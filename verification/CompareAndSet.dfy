/**
 Why a reconciliation may be taken to be one step although users edit the custom resource while it runs: every update of
 the run compares the stored version with the one the run last saw before it sends its patches.
 */
module CompareAndSet {
  import opened ApiCalls
  import opened Operands

  // The custom resource as stored.
  datatype Resource<S, T> = Resource(version: nat, spec: S, status: T)

  // The stored resource, everything else the run changes, the version the run has seen, and whether an update has been
  // turned down or failed; the run stops there.
  datatype State<S, T, O> = State(stored: Resource<S, T>, other: O, seen: nat, stopped: bool)

  // What the run does: an update of the resource, computed from what it has read, with the fates of its two patches; or
  // any other call.
  datatype Action<!S, !T, !O> =
    | Update(mutate: (S, T) -> (S, T), specPatch: Outcome, statusPatch: Outcome)
    | Call(effect: O -> O)

  // What happens, in order: actions of the run, and edits of the spec by others.
  datatype Step<!S, !T, !O> = Act(action: Action<S, T, O>) | Edit(change: S -> S)

  // One patch: not sent when it changes nothing; one that is lost takes effect and reports an error.
  function Patch<S(==), T(==)>(r: Resource<S, T>, spec: S, status: T, o: Outcome): (Resource<S, T>, Outcome) {
    if r.spec == spec && r.status == status then (r, Ok)
    else (if o == Failed then r else Resource(r.version + 1, spec, status), o)
  }

  // An update: the version is compared, then the spec is patched, then the status. The second component is false when
  // the run stops.
  function Write<S(==), T(==)>(r: Resource<S, T>, seen: nat, mutate: (S, T) -> (S, T), first: Outcome, second: Outcome)
    : (Resource<S, T>, bool)
  {
    if r.version != seen then (r, false)
    else
      var (spec, status) := mutate(r.spec, r.status);
      var (half, o) := Patch(r, spec, r.status, first);
      if o != Ok then (half, false)
      else
        var (whole, p) := Patch(half, spec, status, second);
        (whole, p == Ok)
  }

  function Take<S(==), T(==), O>(s: State<S, T, O>, step: Step<S, T, O>): State<S, T, O> {
    match step
    case Edit(change) => s.(stored := s.stored.(version := s.stored.version + 1, spec := change(s.stored.spec)))
    case Act(action) =>
      if s.stopped then s
      else match action
        case Call(effect) => s.(other := effect(s.other))
        case Update(mutate, specPatch, statusPatch) =>
          var (written, ok) := Write(s.stored, s.seen, mutate, specPatch, statusPatch);
          s.(stored := written, seen := if ok then written.version else s.seen, stopped := !ok)
  }

  function TakeAll<S(==), T(==), O>(s: State<S, T, O>, steps: seq<Step<S, T, O>>): State<S, T, O>
    decreases |steps|
  {
    if steps == [] then s else TakeAll(Take(s, steps[0]), steps[1..])
  }

  // The edits alone.
  function Edits<S, T, O>(steps: seq<Step<S, T, O>>): seq<Step<S, T, O>> {
    if steps == [] then [] else (if steps[0].Edit? then [steps[0]] else []) + Edits(steps[1..])
  }

  // What the run would have done undisturbed: its actions up to the first update after an edit, which is turned down.
  function Undisturbed<S, T, O>(steps: seq<Step<S, T, O>>, edited: bool): seq<Step<S, T, O>> {
    if steps == [] then []
    else if steps[0].Edit? then Undisturbed(steps[1..], true)
    else if edited && steps[0].action.Update? then []
    else [steps[0]] + Undisturbed(steps[1..], edited)
  }

  // The stored values, whatever their version.
  predicate SameValues<S(==), T(==), O(==)>(s: State<S, T, O>, t: State<S, T, O>) {
    s.stored.spec == t.stored.spec && s.stored.status == t.stored.status && s.other == t.other
  }

  lemma {:induction false} TakeBoth<S, T, O>(s: State<S, T, O>, a: seq<Step<S, T, O>>, b: seq<Step<S, T, O>>)
    ensures TakeAll(s, a + b) == TakeAll(TakeAll(s, a), b)
    decreases |a|
  {
    if a == [] {
      assert a + b == b;
    } else {
      assert (a + b)[1..] == a[1..] + b;
      TakeBoth(Take(s, a[0]), a[1..], b);
    }
  }

  lemma {:induction false} OnlyEdits<S, T, O>(steps: seq<Step<S, T, O>>)
    ensures forall k :: 0 <= k < |Edits(steps)| ==> Edits(steps)[k].Edit?
  {
    if steps != [] {
      OnlyEdits(steps[1..]);
    }
  }

  lemma {:induction false} OnlyActions<S, T, O>(steps: seq<Step<S, T, O>>, edited: bool)
    ensures forall k :: 0 <= k < |Undisturbed(steps, edited)| ==> Undisturbed(steps, edited)[k].Act?
    ensures edited ==> forall k :: 0 <= k < |Undisturbed(steps, edited)| ==> Undisturbed(steps, edited)[k].action.Call?
  {
    if steps != [] {
      OnlyActions(steps[1..], edited || steps[0].Edit?);
    }
  }

  // An edit and a call that does not touch the resource can be exchanged.
  lemma {:induction false} CallsBeforeEdits<S, T, O>(s: State<S, T, O>, edits: seq<Step<S, T, O>>, call: Step<S, T, O>)
    requires (forall k :: 0 <= k < |edits| ==> edits[k].Edit?) && call.Act? && call.action.Call?
    ensures Take(TakeAll(s, edits), call) == TakeAll(Take(s, call), edits)
    decreases |edits|
  {
    if edits != [] {
      CallsBeforeEdits(Take(s, edits[0]), edits[1..], call);
      assert Take(Take(s, edits[0]), call) == Take(Take(s, call), edits[0]);
    }
  }

  // A run that has been overtaken by an edit only makes calls until its next update, and then nothing.
  lemma {:induction false} Overtaken<S, T, O>(s: State<S, T, O>, steps: seq<Step<S, T, O>>)
    requires s.stored.version > s.seen || s.stopped
    ensures var rest := if s.stopped then [] else Undisturbed(steps, true);
            SameValues(TakeAll(s, steps), TakeAll(TakeAll(s, rest), Edits(steps)))
    decreases |steps|
  {
    if steps != [] {
      var step, next := steps[0], Take(s, steps[0]);
      Overtaken(next, steps[1..]);
      OnlyActions(steps[1..], true);
      OnlyEdits(steps[1..]);
      if step.Edit? {
        var rest := if s.stopped then [] else Undisturbed(steps[1..], true);
        EditsAfterCalls(s, rest, step);
        assert Edits(steps) == [step] + Edits(steps[1..]);
        TakeBoth(TakeAll(s, rest), [step], Edits(steps[1..]));
      } else if !s.stopped && step.action.Update? {
        StoppedIsTheSame(s, Edits(steps[1..]));
        assert Edits(steps) == Edits(steps[1..]);
      } else {
        assert Edits(steps) == Edits(steps[1..]);
      }
    }
  }

  // The same exchange for a sequence of calls.
  lemma {:induction false} EditsAfterCalls<S, T, O>(s: State<S, T, O>, calls: seq<Step<S, T, O>>, edit: Step<S, T, O>)
    requires (forall k :: 0 <= k < |calls| ==> calls[k].Act? && calls[k].action.Call?) && edit.Edit?
    ensures TakeAll(Take(s, edit), calls) == TakeAll(TakeAll(s, calls), [edit])
    decreases |calls|
  {
    if calls == [] {
      assert TakeAll(s, [edit]) == TakeAll(Take(s, edit), []);
    } else {
      assert Take(Take(s, edit), calls[0]) == Take(Take(s, calls[0]), edit);
      EditsAfterCalls(Take(s, calls[0]), calls[1..], edit);
    }
  }

  // Edits do not look at whether the run has stopped.
  lemma {:induction false} StoppedIsTheSame<S, T, O>(s: State<S, T, O>, edits: seq<Step<S, T, O>>)
    requires forall k :: 0 <= k < |edits| ==> edits[k].Edit?
    ensures SameValues(TakeAll(s.(stopped := true), edits), TakeAll(s, edits))
    decreases |edits|
  {
    if edits != [] {
      StoppedIsTheSame(Take(s, edits[0]), edits[1..]);
    }
  }

  // A run that has stopped does nothing more.
  lemma {:induction false} StoppedDoesNothing<S, T, O>(s: State<S, T, O>, steps: seq<Step<S, T, O>>)
    requires s.stopped && forall k :: 0 <= k < |steps| ==> steps[k].Act?
    ensures TakeAll(s, steps) == s
    decreases |steps|
  {
    if steps != [] {
      StoppedDoesNothing(s, steps[1..]);
    }
  }

  // A reconciliation interleaved with edits in any way ends as if it had run undisturbed, cut off at its first update
  // after an edit, and the edits had come afterwards; whichever of its patches fail or get lost.
  lemma {:induction false} RunsAreAtomic<S, T, O>(s: State<S, T, O>, steps: seq<Step<S, T, O>>)
    requires s.stopped || s.stored.version == s.seen
    ensures SameValues(TakeAll(s, steps), TakeAll(TakeAll(s, Undisturbed(steps, false)), Edits(steps)))
    decreases |steps|
  {
    if steps != [] {
      var step, next := steps[0], Take(s, steps[0]);
      if step.Edit? {
        OnlyActions(steps[1..], true);
        var rest := if s.stopped then [] else Undisturbed(steps[1..], true);
        if s.stopped {
          StoppedDoesNothing(s, Undisturbed(steps[1..], true));
        }
        assert TakeAll(s, Undisturbed(steps, false)) == TakeAll(s, rest);
        Overtaken(next, steps[1..]);
        EditsAfterCalls(s, rest, step);
        assert Edits(steps) == [step] + Edits(steps[1..]);
        TakeBoth(TakeAll(s, rest), [step], Edits(steps[1..]));
      } else {
        RunsAreAtomic(next, steps[1..]);
        assert Edits(steps) == Edits(steps[1..]);
      }
    }
  }

  // ---- an edit between the comparison and the patch ----

  // The spec as fields by name.
  function At<V>(fields: map<string, V>, k: string): Option<V> {
    if k in fields then Some(fields[k]) else None
  }

  // A merge patch carries the fields in which `wanted` differs from what was read, and is applied to what is stored.
  ghost function Merged<V>(stored: map<string, V>, read: map<string, V>, wanted: map<string, V>): map<string, V> {
    map k | k in stored.Keys + wanted.Keys && At(if At(read, k) != At(wanted, k) then wanted else stored, k).Some?
      :: At(if At(read, k) != At(wanted, k) then wanted else stored, k).value
  }

  lemma MergedAt<V>(stored: map<string, V>, read: map<string, V>, wanted: map<string, V>, k: string)
    ensures At(Merged(stored, read, wanted), k) == At(if At(read, k) != At(wanted, k) then wanted else stored, k)
  {
  }

  // Nothing turns such an edit down. It is as if it had been made after the update if and only if no field is changed
  // by both, and differently; where one is, the edit of that field is lost.
  lemma EditInTheWindowSurvivesWhen<V>(read: map<string, V>, wanted: map<string, V>, edited: map<string, V>)
    ensures Merged(edited, read, wanted) == Merged(wanted, read, edited)
            <==> forall k :: At(read, k) != At(wanted, k) && At(read, k) != At(edited, k) ==>
                               At(wanted, k) == At(edited, k)
    ensures forall k :: At(read, k) != At(wanted, k) ==> At(Merged(edited, read, wanted), k) == At(wanted, k)
  {
    var after, before := Merged(edited, read, wanted), Merged(wanted, read, edited);
    forall k ensures At(after, k) == (if At(read, k) != At(wanted, k) then At(wanted, k) else At(edited, k))
             ensures At(before, k) == (if At(read, k) != At(edited, k) then At(edited, k) else At(wanted, k)) {
      MergedAt(edited, read, wanted, k);
      MergedAt(wanted, read, edited, k);
    }
    if forall k :: At(after, k) == At(before, k) {
      forall k ensures k in after <==> k in before
               ensures k in after && k in before ==> after[k] == before[k] {
        assert At(after, k) == At(before, k);
      }
      assert after == before;
    }
  }

  // ---- the update as the run makes it ----

  // The copy of the resource a run works on, and the guarded update.
  class Context<S(==), T(==)> {
    var stored: Resource<S, T>
    var copy: Resource<S, T>

    constructor (r: Resource<S, T>)
      ensures stored == copy == r
    {
      stored, copy := r, r;
    }

    // The resource is fetched again and patched only if its version is the one the run works on.
    method UpdateInfinispan(mutate: (S, T) -> (S, T), first: Outcome, second: Outcome) returns (ok: bool)
      modifies this
      ensures (stored, ok) == Write(old(stored), old(copy).version, mutate, first, second)
      ensures old(stored).version != old(copy).version ==> !ok && stored == old(stored)
      ensures ok ==> copy == stored && (stored.spec, stored.status) == mutate(old(stored).spec, old(stored).status)
      ensures !ok ==> stored == old(stored)
                      || (stored.spec == mutate(old(stored).spec, old(stored).status).0
                          && (stored.status == old(stored).status
                              || stored.status == mutate(old(stored).spec, old(stored).status).1))
    {
      var resourceVersion := copy.version;
      copy := stored;
      if copy.version != resourceVersion {
        return false;
      }
      var (spec, status) := mutate(copy.spec, copy.status);
      ok := true;
      if copy.spec != spec {
        if first != Failed {
          stored := Resource(stored.version + 1, spec, stored.status);
        }
        if first != Ok {
          return false;
        }
        copy := stored;
      }
      if copy.status != status {
        if second != Failed {
          stored := Resource(stored.version + 1, spec, status);
        }
        if second != Ok {
          return false;
        }
        copy := stored;
      }
    }
  }
}
