/** What the manager reads from an instance, and the choice of the most advanced one. */
module Dbop {
  import opened Basics
  import opened Replication

  datatype Host = PodHost(index: nat) | ExternalHost(number: nat)

  datatype IoState = IoYes | IoNo | IoConnecting

  /** SHOW REPLICA STATUS. */
  datatype ReplicaStatus = ReplicaStatus(
    sourceHost: Host,
    retrieved: set<Gtid>,
    executed: set<Gtid>,
    io: IoState,
    secondsBehind: Option<int>)

  datatype Status = Status(
    isErrant: bool,
    uuid: nat,
    executed: set<Gtid>,
    purged: set<Gtid>,
    readOnly: bool,
    superReadOnly: bool,
    waitCount: nat,
    semiSource: bool,
    semiReplica: bool,
    waitSessions: nat,
    replicaHosts: seq<int>,
    replica: Option<ReplicaStatus>,
    clone: Option<string>)

  datatype TopRunnerError = ErrErrantTransactions | ErrNoTopRunner | ErrQuery
  datatype TopRunner = Top(index: nat) | NoTop(error: TopRunnerError)

  /** The union of the retrieved and the executed set, or nothing for an instance that is not a replica. */
  function Gtids(status: Option<Status>): set<Gtid> {
    if status.Some? && status.value.replica.Some?
    then status.value.replica.value.retrieved + status.value.replica.value.executed
    else {}
  }

  predicate Eligible(status: seq<Option<Status>>, i: nat) {
    i < |status| && Gtids(status[i]) != {}
  }

  /** Among the first m instances, i has everything that any eligible one has. */
  ghost predicate IsTop(status: seq<Option<Status>>, m: nat, i: nat) {
    && i < m && Eligible(status, i)
    && forall j: nat :: j < m && Eligible(status, j) ==> Gtids(status[j]) <= Gtids(status[i])
  }

  ghost predicate NoneEligible(status: seq<Option<Status>>, m: nat) {
    forall j: nat :: j < m ==> !Eligible(status, j)
  }

  /** Every prefix that has an eligible instance has a top one. */
  ghost predicate PrefixesHaveTops(status: seq<Option<Status>>) {
    forall m: nat :: m <= |status| ==> NoneEligible(status, m) || exists i: nat :: IsTop(status, m, i)
  }

  ghost predicate Incomparable(status: seq<Option<Status>>, i: nat, j: nat) {
    && Eligible(status, i) && Eligible(status, j)
    && !(Gtids(status[i]) <= Gtids(status[j])) && !(Gtids(status[j]) <= Gtids(status[i]))
  }

  method FindTopRunner(status: seq<Option<Status>>) returns (r: TopRunner)
    ensures r.Top? ==> IsTop(status, |status|, r.index)
    ensures r.Top? ==> forall j: nat :: j < r.index ==> !IsTop(status, |status|, j)
    ensures r == NoTop(ErrErrantTransactions) ==> exists i: nat, j: nat :: Incomparable(status, i, j)
    ensures r != NoTop(ErrQuery) ==> (r == NoTop(ErrNoTopRunner) <==> NoneEligible(status, |status|))
    ensures r != NoTop(ErrQuery) ==> (r.Top? <==> !NoneEligible(status, |status|) && PrefixesHaveTops(status))
  {
    var latest := -1;
    var latestGtids: set<Gtid> := {};
    for i := 0 to |status|
      invariant latest == -1 ==> latestGtids == {} && NoneEligible(status, i)
      invariant latest != -1 ==> 0 <= latest < i && IsTop(status, i, latest) && latestGtids == Gtids(status[latest])
      invariant latest != -1 ==> forall j: nat :: j < latest ==> !IsTop(status, i, j)
      invariant forall m: nat :: m <= i ==> NoneEligible(status, m) || exists t: nat :: IsTop(status, m, t)
    {
      var n := i + 1;
      if status[i] == None || status[i].value.replica == None {
        KeepsTop(status, i, n, latest);
        continue;
      }
      var gtids := Gtids(status[i]);
      if gtids == {} {
        KeepsTop(status, i, n, latest);
        continue;
      }
      if latestGtids == {} {
        latest, latestGtids := i, gtids;
        assert IsTop(status, n, i);
        continue;
      }
      var failed: bool := *;
      if failed {
        return NoTop(ErrQuery);
      }
      if gtids <= latestGtids {
        assert IsTop(status, n, latest);
        assert forall j: nat :: j < latest && IsTop(status, n, j) ==> IsTop(status, i, j);
        continue;
      }
      failed := *;
      if failed {
        return NoTop(ErrQuery);
      }
      if latestGtids <= gtids {
        assert IsTop(status, n, i);
        forall j: nat | j < i ensures !IsTop(status, n, j) {
          assert Eligible(status, i);
        }
        latest, latestGtids := i, gtids;
        continue;
      }
      assert Incomparable(status, i, latest);
      NoLaterTop(status, i, latest);
      return NoTop(ErrErrantTransactions);
    }
    if latest == -1 {
      return NoTop(ErrNoTopRunner);
    }
    return Top(latest);
  }

  lemma KeepsTop(status: seq<Option<Status>>, i: nat, n: nat, latest: int)
    requires n == i + 1 && i < |status| && !Eligible(status, i)
    requires latest == -1 ==> NoneEligible(status, i)
    requires latest != -1 ==> 0 <= latest && IsTop(status, i, latest)
    ensures latest == -1 ==> NoneEligible(status, n)
    ensures latest != -1 ==> IsTop(status, n, latest)
    ensures forall j: nat :: IsTop(status, n, j) ==> IsTop(status, i, j)
  {
  }

  lemma NoLaterTop(status: seq<Option<Status>>, i: nat, latest: nat)
    requires latest < i && IsTop(status, i, latest) && Incomparable(status, i, latest)
    ensures !PrefixesHaveTops(status)
  {
    if PrefixesHaveTops(status) {
      assert !NoneEligible(status, i + 1) by { assert Eligible(status, i); }
      var t: nat :| IsTop(status, i + 1, t);
    }
  }

  /** If the eligible sets form a chain, there is always a top runner. */
  lemma ChainHasTops(status: seq<Option<Status>>)
    requires forall i: nat, j: nat :: !Incomparable(status, i, j)
    ensures PrefixesHaveTops(status)
  {
    forall m: nat | m <= |status| ensures NoneEligible(status, m) || exists i: nat :: IsTop(status, m, i) {
      ChainTop(status, m);
    }
  }

  lemma {:induction false} ChainTop(status: seq<Option<Status>>, m: nat)
    requires m <= |status|
    requires forall i: nat, j: nat :: !Incomparable(status, i, j)
    ensures NoneEligible(status, m) || exists i: nat :: IsTop(status, m, i)
  {
    if m > 0 {
      ChainTop(status, m - 1);
      if NoneEligible(status, m - 1) {
        if Eligible(status, m - 1) {
          assert IsTop(status, m, m - 1);
        }
      } else {
        var t: nat :| IsTop(status, m - 1, t);
        assert !Incomparable(status, m - 1, t);
        if Gtids(status[m - 1]) <= Gtids(status[t]) {
          assert IsTop(status, m, t);
        } else if Eligible(status, m - 1) {
          assert IsTop(status, m, m - 1);
        }
      }
    }
  }

  /** Whatever the order of the instances, the top set is the same. */
  lemma TopSetIsUnique(a: seq<Option<Status>>, b: seq<Option<Status>>, i: nat, j: nat)
    requires forall s :: s in a <==> s in b
    requires IsTop(a, |a|, i) && IsTop(b, |b|, j)
    ensures Gtids(a[i]) == Gtids(b[j])
  {
    assert a[i] in b;
    assert b[j] in a;
  }

  /**
   Off a chain the outcome depends on the order: with the superset first the scan succeeds, with it last
   it reports errant transactions although a top runner exists.
   */
  lemma OrderMatters(s: Status, x: Gtid, y: Gtid)
    requires x != y && s.replica.Some?
    ensures var r := s.replica.value;
            var one := Some(s.(replica := Some(r.(retrieved := {x}, executed := {}))));
            var two := Some(s.(replica := Some(r.(retrieved := {y}, executed := {}))));
            var both := Some(s.(replica := Some(r.(retrieved := {x, y}, executed := {}))));
            && IsTop([one, two, both], 3, 2) && !PrefixesHaveTops([one, two, both])
            && PrefixesHaveTops([both, one, two])
  {
    var r := s.replica.value;
    var one := Some(s.(replica := Some(r.(retrieved := {x}, executed := {}))));
    var two := Some(s.(replica := Some(r.(retrieved := {y}, executed := {}))));
    var both := Some(s.(replica := Some(r.(retrieved := {x, y}, executed := {}))));
    var bad := [one, two, both];
    assert Gtids(bad[0]) == {x} && Gtids(bad[1]) == {y} && Gtids(bad[2]) == {x, y};
    assert x in Gtids(bad[0]) && x !in Gtids(bad[1]) && y !in Gtids(bad[0]);
    NoLaterTop(bad, 1, 0);
    var good := [both, one, two];
    assert Gtids(good[0]) == {x, y} && Gtids(good[1]) == {x} && Gtids(good[2]) == {y};
    forall m: nat | m <= |good| ensures NoneEligible(good, m) || exists i: nat :: IsTop(good, m, i) {
      if m > 0 {
        assert IsTop(good, m, 0);
      }
    }
  }
}
