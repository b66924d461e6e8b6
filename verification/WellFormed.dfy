/**
 The WellFormed condition of a cluster, computed from what every pod reports about its members.
 */
module WellFormed {
  import opened Operands

  datatype Status = True | False | Unknown

  // What one pod answers: whether it is ready, and the members it sees unless the server cannot be asked. Two pods see
  // the same cluster view when they list the same members, in whatever order.
  datatype PodView = PodView(ready: bool, members: Option<multiset<string>>)

  // Pods that contribute an error to the condition: not ready, or not answering.
  predicate Unanswered(p: PodView) {
    !p.ready || p.members.None?
  }

  function Views(pods: seq<PodView>): set<multiset<string>> {
    set p | p in pods && p.ready && p.members.Some? :: p.members.value
  }

  function ConditionOf(wanted: nat, pods: seq<PodView>): Status {
    if |pods| < wanted then Unknown
    else if exists k :: 0 <= k < |pods| && Unanswered(pods[k]) then Unknown
    else if |Views(pods)| == 1 then True
    else False
  }

  // True exactly when enough pods exist, there is at least one, every one of them is ready and answers, and they all
  // report the same members.
  lemma TrueMeansOneView(wanted: nat, pods: seq<PodView>)
    ensures ConditionOf(wanted, pods) == True <==>
            && |pods| >= wanted
            && pods != []
            && (forall k :: 0 <= k < |pods| ==> !Unanswered(pods[k]))
            && (forall j, k :: 0 <= j < k < |pods| ==> pods[j].members == pods[k].members)
  {
    var views := Views(pods);
    if |pods| >= wanted && (forall k :: 0 <= k < |pods| ==> !Unanswered(pods[k])) {
      if pods == [] {
        assert views == {};
      } else {
        var v := pods[0].members.value;
        assert pods[0] in pods && v in views;
        if forall j, k :: 0 <= j < k < |pods| ==> pods[j].members == pods[k].members {
          forall x | x in views ensures x == v {
            var k :| 0 <= k < |pods| && pods[k].members.value == x;
            assert k == 0 || pods[0].members == pods[k].members;
          }
          assert views == {v};
        }
        if |views| == 1 {
          SingletonMember(views, v);
          forall k | 0 <= k < |pods| ensures pods[k].members.value == v {
            assert pods[k] in pods && pods[k].members.value in views;
          }
        }
      }
    }
  }

  // Unknown exactly when there are too few pods or one of them does not answer; so False means that all of them answer
  // and there are none, or two see different members.
  lemma UnknownMeansNoAnswer(wanted: nat, pods: seq<PodView>)
    ensures ConditionOf(wanted, pods) == Unknown <==>
            |pods| < wanted || exists k :: 0 <= k < |pods| && (pods[k].ready ==> pods[k].members.None?)
    ensures ConditionOf(wanted, pods) == False <==>
            && |pods| >= wanted && (forall k :: 0 <= k < |pods| ==> pods[k].ready && pods[k].members.Some?)
            && (pods == [] || exists j, k :: 0 <= j < k < |pods| && pods[j].members != pods[k].members)
  {
    TrueMeansOneView(wanted, pods);
    if exists k :: 0 <= k < |pods| && (pods[k].ready ==> pods[k].members.None?) {
      var k :| 0 <= k < |pods| && (pods[k].ready ==> pods[k].members.None?);
      assert Unanswered(pods[k]);
    }
  }

  lemma SingletonMember<T>(s: set<T>, x: T)
    requires |s| == 1 && x in s
    ensures s == {x}
  {
    assert |s - {x}| == 0;
  }

  // The loop over the pods: it collects the distinct views and the errors as it goes.
  method WellFormedCondition(wanted: nat, pods: seq<PodView>) returns (status: Status)
    ensures status == ConditionOf(wanted, pods)
  {
    var clusterViews: set<multiset<string>> := {};
    var podErrors := 0;
    if |pods| < wanted {
      podErrors := 1;
    } else {
      var k := 0;
      while k < |pods|
        invariant 0 <= k <= |pods|
        invariant clusterViews == Views(pods[..k])
        invariant podErrors > 0 <==> exists j :: 0 <= j < k && Unanswered(pods[j])
      {
        var pod := pods[k];
        assert pods[..k + 1] == pods[..k] + [pod];
        if pod.ready {
          if pod.members.Some? {
            clusterViews := clusterViews + {pod.members.value};
          } else {
            podErrors := podErrors + 1;
          }
        } else {
          podErrors := podErrors + 1;
        }
        k := k + 1;
      }
      assert pods[..k] == pods;
    }
    if podErrors == 0 {
      status := if |clusterViews| == 1 then True else False;
    } else {
      status := Unknown;
    }
  }
}
