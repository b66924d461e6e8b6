/**
 The Cache controller as the operator executes it, with its early returns, and the retry loop of the ConfigListener.
 The controller is proved to do exactly what CacheSync says.
 */
module CacheReconciler {
  import opened ApiCalls
  import opened Operands
  import opened CacheSync

  class Reconciler {
    var cr: Option<CR>
    var cluster: Cluster
    var server: Option<string>
    var queue: seq<Cause>
    ghost var past: Past

    ghost function View(): World
      reads this
    {
      World(cr, cluster, server, queue, past)
    }

    constructor (w: World)
      ensures View() == w
    {
      cr, cluster, server, queue, past := w.cr, w.cluster, w.server, w.queue, w.past;
    }

    // Writing the resource.
    method Update(c: CR, o: Outcome) returns (err: bool)
      modifies this`cr
      ensures View() == Write(old(View()), c, o) && err == (o != Ok)
    {
      if o != Failed {
        cr := Kept(c);
      }
      err := o != Ok;
    }

    method ReleaseFinalizer(e: Env) returns (err: bool)
      requires cr.Some?
      modifies this`cr
      ensures View() == RemoveFinalizer(old(View()), old(cr).value, e)
      ensures err <==> old(cr).value.meta.finalizer && e.Of(DropFinalizer) != Ok
    {
      if !cr.value.meta.finalizer {
        return false;
      }
      err := Update(WithoutFinalizer(cr.value), e.Of(DropFinalizer));
    }

    method DeleteFromServer(cause: Cause, e: Env) returns (err: bool)
      modifies this`server, this`queue
      ensures err == (e.Of(DeleteCache) != Ok)
      ensures if e.Of(DeleteCache) == Failed then server == old(server) && queue == old(queue)
              else server == None && queue == (if old(server).Some? then old(queue) + [cause] else old(queue))
    {
      if e.Of(DeleteCache) != Failed {
        if server.Some? {
          queue := queue + [cause];
        }
        server := None;
      }
      err := e.Of(DeleteCache) != Ok;
    }

    method ReconcileDataGrid(e: Env) returns (ok: bool)
      requires cr.Some? && !cr.value.meta.deleting && e.Of(CacheExists) == Ok
      modifies this
      ensures (View(), ok) == CreateOrUpdate(old(View()), old(cr).value, e)
    {
      var spec := cr.value.spec;
      if spec.template == "" && spec.templateName == "" {
        return false;
      }
      if server.Some? {
        if spec.template == "" {
          return true;
        }
        if e.Of(CacheConfig) != Ok || e.Of(CompareConfig) != Ok {
          return false;
        }
        if e.same {
          return true;
        }
        if e.Of(UpdateConfig) != Failed {
          server := Some(spec.template);
        }
        if spec.updates == Some(Retain) || e.Of(UpdateConfig) == Ok {
          return e.Of(UpdateConfig) == Ok;
        }
        var uid := cr.value.uid;
        var err := Update(cr.value.(meta := cr.value.meta.(controllerDelete := true)), e.Of(AnnotateDelete));
        if err {
          return false;
        }
        err := DeleteFromServer(Recreation(uid), e);
        if err {
          return false;
        }
        if e.Of(CreateCache) != Failed {
          server := Some(spec.template);
        }
        return e.Of(CreateCache) == Ok;
      }
      if e.Of(CreateCache) != Failed {
        server := Some(if spec.templateName != "" then e.named else spec.template);
      }
      ok := e.Of(CreateCache) == Ok;
    }

    method Reconcile(e: Env)
      modifies this
      ensures View() == CacheSync.Reconcile(old(View()), e)
    {
      if cr.None? {
        return;
      }
      var crDeleted := cr.value.meta.deleting;
      if cr.value.meta.marked {
        var err := ReleaseFinalizer(e);
        if err || cr.None? {
          return;
        }
        if e.Of(DeleteResource) != Failed {
          cr := None;
        }
        return;
      }
      if !crDeleted && e.paused {
        return;
      }
      if !crDeleted && cr.value.spec.updates.None? {
        if e.Of(SetStrategy) != Failed {
          cr := Some(cr.value.(spec := cr.value.spec.(updates := Some(Retain)),
                               meta := cr.value.meta.(generation := cr.value.meta.generation + 1)));
          past := past.(writer := ByController);
        }
        return;
      }
      if cluster == Gone {
        if crDeleted {
          var err := ReleaseFinalizer(e);
          return;
        }
        var err := Update(cr.value.(ready := false), e.Of(SetNotReady));
        return;
      }
      if cluster != Usable {
        return;
      }
      if cr.value.spec.refs != [] && !crDeleted && !e.refsReady {
        var err := Update(cr.value.(ready := false), e.Of(SetNotReady));
        return;
      }
      if e.Of(NewClient) != Ok {
        return;
      }
      if crDeleted {
        if cr.value.meta.finalizer {
          var err := DeleteFromServer(Finalization, e);
          if err {
            return;
          }
          err := ReleaseFinalizer(e);
        }
        return;
      }
      if ReconcileOnServer(cr.value) {
        var ok := false;
        if e.Of(CacheExists) == Ok {
          ok := ReconcileDataGrid(e);
        }
        if !ok {
          var err := Update(cr.value.(ready := false), e.Of(SetNotReady));
          return;
        }
      }
      var err := Update(cr.value.(ready := true, meta := cr.value.meta.(finalizer := true)), e.Of(SetReady));
    }
  }

  // ---- the retry loops of the ConfigListener ----

  const MAX_RETRIES := 5

  // How one attempt to patch the resource ends.
  datatype Attempt = Patched | Conflict | Refused

  // The text a listener keeps in step: the template of a Cache, the content of a Schema. An attempt changes the copy in
  // memory first; that copy stays changed when the patch is turned down.
  class Listener {
    var stored: string

    constructor (stored: string)
      ensures this.stored == stored
    {
      this.stored := stored;
    }

    // The Cache listener: the comparison at the top of the loop overwrites the error of the attempt before. After a
    // conflict the changed copy compares equal, so the loop ends without an error and without having written anything.
    // At most one attempt is ever made, and the update is lost silently exactly when that one meets a conflict.
    // (A configuration that came with an event is never the empty text.)
    method UpdateCache(config: string, attempts: seq<Attempt>) returns (err: bool, made: nat)
      requires |attempts| >= MAX_RETRIES && config != ""
      modifies this
      ensures made == (if old(stored) == "" || old(stored) == config then 0 else 1)
      ensures stored == (if made == 1 && attempts[0] == Patched then config else old(stored))
      ensures err <==> made == 1 && attempts[0] == Refused
      ensures !err && old(stored) != "" && stored != config <==> made == 1 && attempts[0] == Conflict
    {
      var copy := stored;
      err, made := false, 0;
      var i := 1;
      while i <= MAX_RETRIES
        invariant 1 <= i && made == i - 1 <= 1
        invariant made == 0 ==> copy == stored == old(stored) && !err
        invariant made == 1 ==>
                    && copy == config && stored == old(stored)
                    && attempts[0] == Conflict && old(stored) !in {"", config}
      {
        if copy == "" {
          break;
        }
        err := false;
        if copy == config {
          break;
        }
        copy := config;
        made := made + 1;
        if attempts[i - 1] == Patched {
          stored := copy;
          break;
        }
        err := true;
        if attempts[i - 1] == Refused {
          return;
        }
        i := i + 1;
      }
    }

    // The Schema listener has the same loop, but the error survives the comparison: again at most one attempt is made,
    // and a conflict is reported as if five had failed.
    method UpdateSchema(proto: string, attempts: seq<Attempt>) returns (err: bool, made: nat)
      requires |attempts| >= MAX_RETRIES
      modifies this
      ensures made == (if old(stored) == proto then 0 else 1)
      ensures stored == (if made == 1 && attempts[0] == Patched then proto else old(stored))
      ensures err <==> made == 1 && attempts[0] != Patched
    {
      var copy := stored;
      err, made := false, 0;
      var i := 1;
      while i <= MAX_RETRIES
        invariant 1 <= i && made == i - 1 <= 1
        invariant made == 0 ==> copy == stored == old(stored) && !err
        invariant made == 1 ==>
                    && copy == proto && stored == old(stored)
                    && attempts[0] == Conflict && old(stored) != proto && err
      {
        if copy == proto {
          break;
        }
        copy := proto;
        made := made + 1;
        if attempts[i - 1] == Patched {
          err := false;
          stored := copy;
          break;
        }
        err := true;
        if attempts[i - 1] == Refused {
          return;
        }
        i := i + 1;
      }
    }
  }
}
