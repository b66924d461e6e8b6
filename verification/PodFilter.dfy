/**
 Keeping only the pods of one StatefulSet: the list is compacted in place.
 */
module PodFilter {

  // A pod with the UIDs of its owners.
  datatype Pod = Pod(name: string, owners: seq<string>)

  function Count(owners: seq<string>, uid: string): nat {
    if owners == [] then 0 else Count(owners[..|owners| - 1], uid) + (if owners[|owners| - 1] == uid then 1 else 0)
  }

  predicate OwnedBy(p: Pod, uid: string) {
    Count(p.owners, uid) > 0
  }

  function Filter(pods: seq<Pod>, uid: string): (r: seq<Pod>)
    ensures |r| <= |pods|
  {
    if pods == [] then []
    else
      var last := pods[|pods| - 1];
      Filter(pods[..|pods| - 1], uid) + (if OwnedBy(last, uid) then [last] else [])
  }

  // No pod names the owner twice.
  ghost predicate OneReference(pods: seq<Pod>, uid: string) {
    forall k :: 0 <= k < |pods| ==> Count(pods[k].owners, uid) <= 1
  }

  // The API server lists no pod twice.
  ghost predicate Distinct(pods: seq<Pod>) {
    forall i, j :: 0 <= i < j < |pods| ==> pods[i] != pods[j]
  }

  lemma {:induction false} CountIsMembership(owners: seq<string>, uid: string)
    ensures Count(owners, uid) > 0 <==> uid in owners
  {
    if owners != [] {
      CountIsMembership(owners[..|owners| - 1], uid);
      assert owners == owners[..|owners| - 1] + [owners[|owners| - 1]];
    }
  }

  // The filter keeps exactly the owned pods, in their order.
  lemma {:induction false} FilterKeepsOwned(pods: seq<Pod>, uid: string)
    ensures var r := Filter(pods, uid);
            && (forall p :: p in r <==> p in pods && uid in p.owners)
            && multiset(r) <= multiset(pods)
  {
    if pods != [] {
      var front, last := pods[..|pods| - 1], pods[|pods| - 1];
      FilterKeepsOwned(front, uid);
      CountIsMembership(last.owners, uid);
      assert pods == front + [last];
    }
  }

  lemma {:induction false} CountGrows(owners: seq<string>, j: nat, uid: string)
    requires j <= |owners|
    ensures Count(owners[..j], uid) <= Count(owners, uid)
    decreases |owners|
  {
    if j < |owners| {
      var front := owners[..|owners| - 1];
      CountGrows(front, j, uid);
      assert front[..j] == owners[..j];
    } else {
      assert owners[..j] == owners;
    }
  }

  lemma {:induction false} FilterIsDistinct(pods: seq<Pod>, uid: string)
    requires Distinct(pods)
    ensures Distinct(Filter(pods, uid))
  {
    if pods != [] {
      var front := pods[..|pods| - 1];
      FilterIsDistinct(front, uid);
      FilterKeepsOwned(front, uid);
      forall k | 0 <= k < |Filter(front, uid)| ensures Filter(front, uid)[k] != pods[|pods| - 1] {
        assert Filter(front, uid)[k] in front;
      }
    }
  }

  // The inner loop: the pod is written once for every matching reference; past the end of the list that is an index out
  // of range.
  method WritePerReference(items: array<Pod>, item: Pod, uid: string, start: nat) returns (pos: nat, panicked: bool)
    requires start <= items.Length
    modifies items
    ensures panicked <==> start + Count(item.owners, uid) > items.Length
    ensures !panicked ==>
              && pos == start + Count(item.owners, uid)
              && (forall k :: start <= k < pos ==> items[k] == item)
              && (forall k :: 0 <= k < items.Length && !(start <= k < pos) ==> items[k] == old(items[k]))
  {
    pos, panicked := start, false;
    var j := 0;
    while j < |item.owners|
      invariant 0 <= j <= |item.owners| && !panicked
      invariant pos == start + Count(item.owners[..j], uid) <= items.Length
      invariant forall k :: start <= k < pos ==> items[k] == item
      invariant forall k :: 0 <= k < items.Length && !(start <= k < pos) ==> items[k] == old(items[k])
    {
      assert item.owners[..j + 1][..j] == item.owners[..j];
      CountGrows(item.owners, j + 1, uid);
      if item.owners[j] == uid {
        if pos >= items.Length {
          return pos, true;
        }
        items[pos] := item;
        pos := pos + 1;
      }
      j := j + 1;
    }
    assert item.owners[..j] == item.owners;
  }

  // The compaction in place. The writing position stays behind the reading position as long as no pod names the owner
  // twice; a pod that does is kept twice, and pods not read yet are overwritten, or the list overflows. So what is kept
  // is right exactly when no pod names the owner twice.
  method FilterPodsByOwnerUID(items: array<Pod>, uid: string) returns (pos: nat, panicked: bool)
    requires Distinct(items[..])
    modifies items
    ensures !panicked ==> pos <= items.Length
    ensures !panicked && items[..pos] == Filter(old(items[..]), uid) <==> OneReference(old(items[..]), uid)
  {
    ghost var before := items[..];
    ghost var twice: int := -1;
    pos, panicked := 0, false;
    var i := 0;
    while i < items.Length
      invariant 0 <= i <= items.Length && pos <= items.Length && !panicked
      invariant twice < 0 ==>
                  && pos <= i && OneReference(before[..i], uid) && items[..pos] == Filter(before[..i], uid)
                  && (forall k :: i <= k < items.Length ==> items[k] == before[k])
      invariant twice >= 0 ==> !OneReference(before, uid) && twice + 1 < pos && items[twice] == items[twice + 1]
    {
      var item := items[i];
      ghost var start, kept := pos, items[..pos];
      pos, panicked := WritePerReference(items, item, uid, pos);
      if panicked {
        assert !OneReference(before, uid) by {
          if twice < 0 { assert before[i] == item && Count(item.owners, uid) > 1; }
        }
        return;
      }
      if twice < 0 {
        assert before[..i + 1][..i] == before[..i];
        if Count(item.owners, uid) > 1 {
          assert before[i] == item;
          twice := start;
        } else {
          assert items[..pos] == if OwnedBy(item, uid) then kept + [item] else kept;
        }
      }
      i := i + 1;
    }
    assert before[..i] == before;
    if twice >= 0 {
      FilterIsDistinct(before, uid);
      assert items[..pos][twice] == items[..pos][twice + 1];
    }
  }
}
