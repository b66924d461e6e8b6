/**
 The Schema controller as the operator executes it, with its early returns and its loop over the Cache resources.
 */
module SchemaReconciler {
  import opened ApiCalls
  import opened Operands
  import opened SchemaController

  class Reconciler {
    var schema: Option<Schema>
    var cluster: Cluster
    var server: Option<string>
    var caches: seq<Cache>

    function View(): World
      reads this
    {
      World(schema, cluster, server, caches)
    }

    constructor (w: World)
      ensures View() == w
    {
      schema, cluster, server, caches := w.schema, w.cluster, w.server, w.caches;
    }

    method HasSchemaRef(c: Cache, name: string) returns (found: bool)
      ensures found <==> name in c.refs
    {
      for k := 0 to |c.refs|
        invariant forall j :: 0 <= j < k ==> c.refs[j] != name
      {
        if c.refs[k] == name {
          return true;
        }
      }
      found := false;
    }

    // The names of the referring Cache resources, in list order.
    method FindReferencingCaches() returns (names: seq<string>)
      requires schema.Some?
      ensures names != [] <==> Referenced(caches, schema.value)
      ensures forall n :: n in names <==>
                            exists k :: 0 <= k < |caches| && References(caches[k], schema.value) && caches[k].name == n
    {
      names := [];
      for k := 0 to |caches|
        invariant forall n :: n in names <==>
                                exists j :: 0 <= j < k && References(caches[j], schema.value) && caches[j].name == n
      {
        var c := caches[k];
        if c.cluster == schema.value.cluster {
          var found := HasSchemaRef(c, schema.value.name);
          if found {
            names := names + [c.name];
          }
        }
      }
      if names != [] {
        assert names[0] in names;
      }
      if Referenced(caches, schema.value) {
        var k :| 0 <= k < |caches| && References(caches[k], schema.value);
        assert caches[k].name in names;
      }
    }

    method Update(s: Schema, o: Outcome) returns (err: bool)
      modifies this`schema
      ensures View() == Write(old(View()), s, o) && err == (o != Ok)
    {
      if o != Failed {
        schema := Kept(s);
      }
      err := o != Ok;
    }

    method ReleaseFinalizer(e: Env) returns (err: bool)
      requires schema.Some?
      modifies this`schema
      ensures View() == RemoveFinalizer(old(View()), old(schema).value, e)
      ensures err <==> old(schema).value.finalizer && e.Of(DropFinalizer) != Ok
    {
      if !schema.value.finalizer {
        return false;
      }
      err := Update(schema.value.(finalizer := false), e.Of(DropFinalizer));
    }

    method RemoveDeleted(e: Env)
      requires schema.Some?
      modifies this`schema, this`server
      ensures View() == FinishDeletion(old(View()), old(schema).value, e)
    {
      if !schema.value.finalizer || e.Of(ListCaches) != Ok {
        return;
      }
      var referencing := FindReferencingCaches();
      if |referencing| > 0 {
        var err := Update(schema.value.(ready := false), e.Of(SetStatus));
        return;
      }
      if e.Of(DeleteSchema) != Failed {
        server := None;
      }
      if e.Of(DeleteSchema) == Ok {
        var err := ReleaseFinalizer(e);
      }
    }

    method Reconcile(e: Env)
      modifies this
      ensures View() == SchemaController.Reconcile(old(View()), e)
    {
      if schema.None? {
        return;
      }
      if schema.value.marked {
        var err := ReleaseFinalizer(e);
        if err || schema.None? {
          return;
        }
        if e.Of(DeleteResource) != Failed {
          schema := None;
        }
        return;
      }
      var crDeleted := schema.value.deleting;
      if !crDeleted && e.paused {
        return;
      }
      if cluster == Gone {
        if crDeleted {
          var err := ReleaseFinalizer(e);
        } else {
          var err := Update(schema.value.(ready := false), e.Of(SetStatus));
        }
        return;
      }
      if cluster != Usable || !e.versionKnown {
        return;
      }
      if !e.bidirectional && e.Of(SetSync) != Ok {
        return;
      }
      if e.Of(NewClient) != Ok {
        return;
      }
      if crDeleted {
        RemoveDeleted(e);
        return;
      }
      if !e.bidirectional || ReconcileOnServer(schema.value) {
        if e.Of(PutSchema) != Failed {
          server := Some(schema.value.content);
        }
        if e.Of(PutSchema) != Ok || e.rejected {
          var err := Update(schema.value.(ready := false), e.Of(SetStatus));
          return;
        }
      }
      if e.Of(CheckStatus) != Ok || e.broken {
        var err := Update(schema.value.(ready := false, finalizer := true), e.Of(SetStatus));
        return;
      }
      var err := Update(schema.value.(ready := true, finalizer := true), e.Of(SetStatus));
    }
  }
}
