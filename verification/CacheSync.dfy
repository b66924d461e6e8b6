/**
 One Cache custom resource kept in step with a cache on the server: the controller pushes the resource to the server,
 the ConfigListener writes server events back into the resource, and users change both.
 */
module CacheSync {
  import opened ApiCalls
  import opened Operands

  datatype Strategy = Retain | Recreate

  // A cache is described by a template of its own or by the name of a template on the server; "" stands for unset.
  datatype Spec = Spec(template: string, templateName: string, updates: Option<Strategy>, refs: seq<string>)

  // `listener` is the generation annotation of the ConfigListener, `marked` its deletion mark, and `controllerDelete`
  // the note with which the controller announces a removal of its own.
  datatype Meta = Meta(generation: nat, listener: Option<nat>, marked: bool, controllerDelete: bool,
                       finalizer: bool, deleting: bool)

  datatype CR = CR(uid: nat, meta: Meta, spec: Spec, ready: bool)

  datatype Cluster = Gone | NotFormed | CacheService | Usable

  // Who removed the cache from the server: the controller, recreating it for the resource `uid`; the controller, on
  // behalf of a deleted resource; or somebody else.
  datatype Cause = Recreation(uid: nat) | Finalization | External

  datatype Writer = ByUser | ByListener | ByController

  // History: who changed the spec of the resource last, and whether the listener has marked a resource because of a
  // removal that was part of its own recreation.
  datatype Past = Past(writer: Writer, nextUid: nat, misled: bool)

  // `server` is the configuration of the cache on the server, `queue` the remove events the listener has not seen yet.
  datatype World = World(cr: Option<CR>, cluster: Cluster, server: Option<string>, queue: seq<Cause>, past: Past)

  datatype Call =
    | DropFinalizer | DeleteResource | SetStrategy | SetNotReady | SetReady | NewClient
    | CacheExists | CacheConfig | CompareConfig | UpdateConfig | AnnotateDelete | DeleteCache | CreateCache

  datatype Env = Env(
    faults: map<Call, Outcome>,
    paused: bool,
    refsReady: bool,       // every Schema the resource refers to exists, targets the cluster and is ready
    same: bool,            // the server finds its configuration and the template equivalent
    named: string          // the configuration behind the template name
  ) {
    function Of(call: Call): Outcome {
      if call in faults then faults[call] else Ok
    }
  }

  // Whether a reconciliation has to contact the server.
  predicate ReconcileOnServer(c: CR) {
    c.meta.listener.Some? ==> c.meta.listener.value < c.meta.generation
  }

  // An object being deleted disappears with its last finalizer.
  function Kept(c: CR): Option<CR> {
    if c.meta.deleting && !c.meta.finalizer then None else Some(c)
  }

  function Write(w: World, c: CR, o: Outcome): World {
    if o == Failed then w else w.(cr := Kept(c))
  }

  // ---- the controller ----

  function WithoutFinalizer(c: CR): CR {
    c.(meta := c.meta.(finalizer := false))
  }

  function RemoveFinalizer(w: World, c: CR, e: Env): World {
    if c.meta.finalizer then Write(w, WithoutFinalizer(c), e.Of(DropFinalizer)) else w
  }

  function RemoveMarked(w: World, c: CR, e: Env): World {
    var w1 := RemoveFinalizer(w, c, e);
    if (c.meta.finalizer && e.Of(DropFinalizer) != Ok) || w1.cr.None? || e.Of(DeleteResource) == Failed then w1
    else w1.(cr := None)
  }

  function FinishDeletion(w: World, c: CR, e: Env): World {
    if !c.meta.finalizer || e.Of(DeleteCache) == Failed then w
    else
      var w1 := w.(server := None, queue := if w.server.Some? then w.queue + [Finalization] else w.queue);
      if e.Of(DeleteCache) != Ok then w1 else RemoveFinalizer(w1, c, e)
  }

  // The cache is created on the server.
  function Create(w: World, c: CR, e: Env): (World, bool) {
    var config := if c.spec.templateName != "" then e.named else c.spec.template;
    (if e.Of(CreateCache) == Failed then w else w.(server := Some(config)), e.Of(CreateCache) == Ok)
  }

  // The cache is removed and created again; the listener is told to expect the removal.
  function Replace(w: World, c: CR, e: Env): (World, bool) {
    var announced := Write(w, c.(meta := c.meta.(controllerDelete := true)), e.Of(AnnotateDelete));
    if e.Of(AnnotateDelete) != Ok then (announced, false)
    else if e.Of(DeleteCache) == Failed then (announced, false)
    else
      var queue := if w.server.Some? then w.queue + [Recreation(c.uid)] else w.queue;
      var removed := announced.(server := None, queue := queue);
      if e.Of(DeleteCache) != Ok then (removed, false)
      else
        var created := removed.(server := Some(c.spec.template));
        (if e.Of(CreateCache) == Failed then removed else created, e.Of(CreateCache) == Ok)
  }

  function UpdateOnServer(w: World, c: CR, e: Env): (World, bool) {
    if c.spec.template == "" then (w, true)
    else if e.Of(CacheConfig) != Ok || e.Of(CompareConfig) != Ok then (w, false)
    else if e.same then (w, true)
    else
      var updated := if e.Of(UpdateConfig) == Failed then w else w.(server := Some(c.spec.template));
      if e.Of(UpdateConfig) == Ok then (updated, true)
      else if c.spec.updates == Some(Retain) then (updated, false)
      else Replace(updated, c, e)
  }

  function CreateOrUpdate(w: World, c: CR, e: Env): (World, bool) {
    if e.Of(CacheExists) != Ok then (w, false)
    else if c.spec.template == "" && c.spec.templateName == "" then (w, false)
    else if w.server.Some? then UpdateOnServer(w, c, e)
    else Create(w, c, e)
  }

  // The resource as the run holds it after contacting the server: announcing a removal has changed it.
  function Current(w: World, c: CR): CR {
    if w.cr.Some? then w.cr.value else c
  }

  function Push(w: World, c: CR, e: Env): World {
    var (w1, ok) := if ReconcileOnServer(c) then CreateOrUpdate(w, c, e) else (w, true);
    var c1 := Current(w1, c);
    if !ok then Write(w1, c1.(ready := false), e.Of(SetNotReady))
    else Write(w1, c1.(ready := true, meta := c1.meta.(finalizer := true)), e.Of(SetReady))
  }

  function Reconcile(w: World, e: Env): World {
    if w.cr.None? then w
    else
      var c := w.cr.value;
      if c.meta.marked then RemoveMarked(w, c, e)
      else if !c.meta.deleting && e.paused then w
      else if !c.meta.deleting && c.spec.updates.None? then
        var next := c.(spec := c.spec.(updates := Some(Retain)), meta := c.meta.(generation := c.meta.generation + 1));
        if e.Of(SetStrategy) == Failed then w else w.(cr := Some(next), past := w.past.(writer := ByController))
      else if w.cluster == Gone then
        if c.meta.deleting then RemoveFinalizer(w, c, e) else Write(w, c.(ready := false), e.Of(SetNotReady))
      else if w.cluster != Usable then w
      else if c.spec.refs != [] && !c.meta.deleting && !e.refsReady then Write(w, c.(ready := false), e.Of(SetNotReady))
      else if e.Of(NewClient) != Ok then w
      else if c.meta.deleting then FinishDeletion(w, c, e)
      else Push(w, c, e)
  }

  // ---- the listener ----

  // A server event about the configuration of the cache. The update drops the schema references, and it is stamped with
  // the generation it is going to produce.
  function ListenedSpec(spec: Spec, template: string): Spec {
    Spec(template, "", spec.updates, [])
  }

  function Listen(w: World, template: string): World {
    match w.cr
    case None =>
      var meta := Meta(1, Some(1), false, false, true, false);
      w.(cr := Some(CR(w.past.nextUid, meta, Spec(template, "", Some(Retain), []), false)),
         past := w.past.(writer := ByListener, nextUid := w.past.nextUid + 1))
    case Some(c) =>
      if c.spec.template == "" then w
      else
        var spec := ListenedSpec(c.spec, template);
        var stamped := c.meta.(finalizer := true, listener := Some(c.meta.generation + 1));
        if spec == c.spec then w.(cr := Some(c.(meta := stamped)))
        else w.(cr := Some(c.(meta := stamped.(generation := c.meta.generation + 1), spec := spec)),
                past := w.past.(writer := ByListener))
  }

  // A remove event: a removal the controller announced clears the announcement; any other marks the resource.
  function Consume(w: World, o: Outcome): World {
    if w.queue == [] then w
    else
      var rest := w.(queue := w.queue[1..]);
      if w.cr.None? || o == Failed then rest
      else
        var c := w.cr.value;
        if c.meta.controllerDelete then rest.(cr := Some(c.(meta := c.meta.(controllerDelete := false))))
        else if c.meta.deleting then rest
        else rest.(cr := Some(c.(meta := c.meta.(marked := true))),
                   past := w.past.(misled := w.past.misled || w.queue[0] == Recreation(c.uid)))
  }

  // ---- everything that can happen ----

  datatype Event =
    | Reconciled(e: Env)
    | Listened(template: string)
    | Consumed(o: Outcome)
    | Created(spec: Spec)          // by the user
    | Edited(spec: Spec)
    | Deleted
    | Touched(ready: bool)         // a write to the status, or to other metadata
    | RemovedOnServer
    | PutOnServer(config: string)
    | ClusterIs(cluster: Cluster)

  function Step(w: World, ev: Event): World {
    match ev
    case Reconciled(e) => Reconcile(w, e)
    case Listened(template) => Listen(w, template)
    case Consumed(o) => Consume(w, o)
    case Created(spec) =>
      if w.cr.Some? then w
      else w.(cr := Some(CR(w.past.nextUid, Meta(1, None, false, false, false, false), spec, false)),
              past := w.past.(writer := ByUser, nextUid := w.past.nextUid + 1))
    case Edited(spec) =>
      if w.cr.None? || spec == w.cr.value.spec then w
      else
        var c := w.cr.value;
        w.(cr := Some(c.(spec := spec, meta := c.meta.(generation := c.meta.generation + 1))),
           past := w.past.(writer := ByUser))
    case Deleted =>
      if w.cr.None? || w.cr.value.meta.deleting then w
      else
        var c := w.cr.value;
        w.(cr := Kept(c.(meta := c.meta.(deleting := true, generation := c.meta.generation + 1))))
    case Touched(ready) => if w.cr.None? then w else w.(cr := Some(w.cr.value.(ready := ready)))
    case RemovedOnServer => if w.server.None? then w else w.(server := None, queue := w.queue + [External])
    case PutOnServer(config) => w.(server := Some(config))
    case ClusterIs(cluster) => w.(cluster := cluster)
  }

  function Steps(w: World, evs: seq<Event>): World {
    if evs == [] then w else Step(Steps(w, evs[..|evs| - 1]), evs[|evs| - 1])
  }

  predicate Initial(w: World) {
    w.cr.None? && w.queue == [] && !w.past.misled
  }
}
