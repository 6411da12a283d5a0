/** Whole runs: what every reachable state satisfies, and what survives interference by the environment. */
module Runs {
  import opened Basics
  import opened Replication
  import opened ReplicationSafety

  // ----- runs -----

  ghost predicate Legal(start: State, log: seq<Event>)
    decreases |log|, 0
  {
    |log| == 0 ||
    (var before := log[..|log| - 1];
     var e := log[|log| - 1];
     Legal(start, before) && Enabled(Replay(start, before), e) && Permitted(Replay(start, before), e))
  }

  ghost function Replay(start: State, log: seq<Event>): State
    requires Legal(start, log)
    decreases |log|, 1
  {
    if |log| == 0 then start else Step(Replay(start, log[..|log| - 1]), log[|log| - 1])
  }

  lemma Extend(start: State, log: seq<Event>, e: Event)
    requires Legal(start, log) && Enabled(Replay(start, log), e) && Permitted(Replay(start, log), e)
    ensures Legal(start, log + [e])
    ensures Replay(start, log + [e]) == Step(Replay(start, log), e)
  {
    hide Enabled, Permitted, Step;
    assert (log + [e])[..|log|] == log;
  }

  /** Freshly started servers: empty, super-read-only, following nobody. */
  function Initial(replicas: nat): (s: State)
    requires replicas > 0
    ensures |s.insts| == replicas
  {
    State(seq(replicas, _ => Instance({}, {}, {}, {}, true, false, 1, false, None, false, {})), 0, {}, {})
  }

  lemma InitialInv(replicas: nat)
    requires replicas > 0
    ensures Inv(Initial(replicas))
  {
  }

  /** What MOCO promises of a state. */
  ghost predicate Safe(s: State) {
    // fencing: another instance is read-only, or too few replicas follow it for a commit to complete there
    && (forall o: nat :: o < |s.insts| && o != s.primary ==>
          s.insts[o].superReadOnly || |Followers(s, o)| < Half(s))
    // durability: the recorded primary has executed every acknowledged transaction
    && s.primary < |s.insts| && s.acked <= s.insts[s.primary].executed
    // at any other instance only a transaction that the primary has executed can be acknowledged
    && (forall o: nat, g :: o < |s.insts| && o != s.primary && Enabled(s, Acknowledge(o, g)) ==>
          g in s.insts[s.primary].executed)
    // semi-sync before writes
    && (forall i: nat :: i < |s.insts| && |s.insts| > 1 && !s.insts[i].superReadOnly ==>
          s.insts[i].semiSource && s.insts[i].waitCount == Half(s))
  }

  lemma InvSafe(s: State)
    requires Inv(s)
    ensures Safe(s)
  {
    forall o: nat | o < |s.insts| && o != s.primary && !s.insts[o].superReadOnly ensures |Followers(s, o)| < Half(s) {
      assert Fenced(s, o, s.insts[s.primary].executed);
    }
    forall o: nat, g | o < |s.insts| && o != s.primary && Enabled(s, Acknowledge(o, g))
      ensures g in s.insts[s.primary].executed
    {
      AcknowledgedInside(s, o, g, s.primary, s.insts[s.primary].executed);
    }
    forall i: nat | i < |s.insts| && |s.insts| > 1 && !s.insts[i].superReadOnly
      ensures s.insts[i].semiSource && s.insts[i].waitCount == Half(s)
    {
      assert InstanceOk(s, i);
    }
  }

  lemma {:induction false} RunInv(start: State, log: seq<Event>)
    requires Inv(start) && Legal(start, log)
    ensures Inv(Replay(start, log))
  {
    if |log| > 0 {
      hide Inv, Enabled, Permitted, Step;
      RunInv(start, log[..|log| - 1]);
      StepInv(Replay(start, log[..|log| - 1]), log[|log| - 1]);
    }
  }

  lemma {:induction false} LegalPrefix(start: State, log: seq<Event>, n: nat)
    requires Legal(start, log) && n <= |log|
    ensures Legal(start, log[..n])
  {
    if n < |log| {
      LegalPrefix(start, log[..|log| - 1], n);
      assert log[..|log| - 1][..n] == log[..n];
    } else {
      assert log[..n] == log;
    }
  }

  /** Every state of every run is safe. */
  lemma RunSafe(start: State, log: seq<Event>, n: nat)
    requires Inv(start) && Legal(start, log) && n <= |log|
    ensures Legal(start, log[..n]) && Safe(Replay(start, log[..n]))
  {
    hide Inv, Safe;
    LegalPrefix(start, log, n);
    RunInv(start, log[..n]);
    InvSafe(Replay(start, log[..n]));
  }

  /** Some run from freshly started servers ends in s. */
  ghost predicate Reachable(replicas: nat, s: State)
    requires replicas > 0
  {
    exists log :: Legal(Initial(replicas), log) && Replay(Initial(replicas), log) == s
  }

  lemma StartIsReachable(replicas: nat)
    requires replicas > 0
    ensures Reachable(replicas, Initial(replicas))
  {
    assert Legal(Initial(replicas), []) && Replay(Initial(replicas), []) == Initial(replicas);
  }

  /** One step further. */
  lemma Take(replicas: nat, s: State, e: Event) returns (r: State)
    requires replicas > 0 && Reachable(replicas, s) && e.i < |s.insts| && Enabled(s, e) && Permitted(s, e)
    ensures r == Step(s, e) && Reachable(replicas, r)
  {
    hide Enabled, Permitted, Step;
    var log :| Legal(Initial(replicas), log) && Replay(Initial(replicas), log) == s;
    Extend(Initial(replicas), log, e);
    r := Step(s, e);
  }

  lemma ReachableInv(replicas: nat, s: State)
    requires replicas > 0 && Reachable(replicas, s)
    ensures Inv(s)
  {
    hide Inv;
    var log :| Legal(Initial(replicas), log) && Replay(Initial(replicas), log) == s;
    InitialInv(replicas);
    RunInv(Initial(replicas), log);
  }

  // ----- interference -----

  ghost predicate InstanceKept(x: Instance, y: Instance) {
    && y.source == x.source
    && x.executed <= y.executed
    && x.retrieved <= y.retrieved
    && (x.superReadOnly ==> y.superReadOnly)
    && (!x.io ==> !y.io && y.retrieved == x.retrieved)
    // a closed instance that receives nothing keeps exactly what it has
    && (x.superReadOnly && !x.io && x.pending == {} ==> y.pending == {} && y.Received() == x.Received())
  }

  /** The candidate j has stopped acknowledging, and t is all it needs to execute. */
  ghost predicate Candidate(s: State, j: nat, t: set<Gtid>) {
    j < |s.insts| && Quiet(s, j) && Guards(s, j, t)
  }

  ghost predicate IsQuiet(s: State, o: nat) { o < |s.insts| && Quiet(s, o) }

  /** The primary has semi-sync on with the right wait count, if it needs it. */
  ghost predicate SemiReady(s: State) {
    s.primary < |s.insts| &&
    (|s.insts| > 1 ==> s.insts[s.primary].semiSource && s.insts[s.primary].waitCount == Half(s))
  }

  /** The primary's wait count is right. */
  ghost predicate CountReady(s: State) {
    s.primary < |s.insts| && s.insts[s.primary].waitCount == Half(s)
  }

  /** What the manager may rely on between its own statements. */
  ghost predicate Keeps(a: State, b: State) {
    && |a.insts| == |b.insts| && a.primary == b.primary
    && (forall i: nat :: i < |a.insts| ==> InstanceKept(a.insts[i], b.insts[i]))
    && (forall o: nat :: IsQuiet(a, o) ==> IsQuiet(b, o))
    && (forall i: nat, v :: Frozen(a, i, v) ==> Frozen(b, i, v))
    && (forall j: nat, t :: Candidate(a, j, t) ==> Candidate(b, j, t))
    && (forall v :: Settled(a, a.primary, v) ==> Settled(b, b.primary, v))
  }

  lemma KeepsReflexive(a: State)
    ensures Keeps(a, a)
  {
  }

  lemma KeepsTransitive(a: State, b: State, c: State)
    requires Keeps(a, b) && Keeps(b, c)
    ensures Keeps(a, c)
  {
    hide Settled, Candidate, Frozen, IsQuiet;
  }

  lemma PassiveKeeps(s: State, e: Event)
    requires Inv(s) && Enabled(s, e) && Passive(e)
    ensures Keeps(s, Step(s, e))
  {
    hide Enabled, Step, Quiet, Guards, Guarded, Settled, Frozen, Base, FollowsReadOnly, InstanceOk;
    var s' := Step(s, e);
    PrimaryFollows(s);
    PassiveInstance(s, e, s.primary);
    forall i: nat | i < |s.insts| ensures InstanceKept(s.insts[i], s'.insts[i]) { PassiveInstance(s, e, i); }
    forall o: nat | IsQuiet(s, o) ensures IsQuiet(s', o) { PassiveQuiet(s, e, o); }
    forall i: nat, v | Frozen(s, i, v) ensures Frozen(s', i, v) { PassiveFrozen(s, e, i, v); }
    forall j: nat, t | Candidate(s, j, t) ensures Candidate(s', j, t) {
      PassiveQuiet(s, e, j);
      PassiveGuards(s, e, j, t);
    }
    forall v | Settled(s, s.primary, v) ensures Settled(s', s'.primary, v) {
      PassiveSettled(s, e, s.primary, v);
    }
  }

  lemma PrimaryFollows(s: State)
    requires Inv(s)
    ensures s.primary < |s.insts| && FollowsReadOnly(s, s.primary)
  {
  }

  lemma PassiveSemiReady(s: State, e: Event)
    requires Enabled(s, e) && Passive(e) && s.primary < |s.insts| && e != Restart(s.primary)
    ensures SemiReady(s) ==> SemiReady(Step(s, e))
    ensures CountReady(s) ==> CountReady(Step(s, e))
  {
    hide Enabled, Step;
    PassiveInstance(s, e, s.primary);
  }

  // ----- the quorum argument of a failover -----

  /**
   If more than Half(s) frozen instances show nothing outside t, then whoever executes t may be the primary:
   every acknowledged transaction is in t, and no other instance can have anything else acknowledged.
   */
  lemma QuorumCandidate(s: State, ok: set<nat>, views: seq<set<Gtid>>, j: nat, t: set<Gtid>)
    requires Base(s) && |views| == |s.insts|
    requires ok <= Indices(|s.insts|) && |ok| > Half(s)
    requires forall i: nat :: i in ok ==> Frozen(s, i, views[i]) && views[i] <= t
    requires j < |s.insts| && !s.insts[j].io && Quiet(s, j)
    ensures Candidate(s, j, t)
  {
    hide InstanceOk, AcksOk, Quiet;
    forall g | g in s.acked ensures g in t {
      var i := Overlap(ok, Holders(s, g), |s.insts|);
    }
    forall o: nat | o < |s.insts| && o != j && !s.insts[o].superReadOnly ensures Fenced(s, o, t) {
      if o in ok {
        QuietFenced(s, o, t);
      } else {
        QuorumFences(s, ok, views, o, t);
      }
    }
  }

  lemma QuietFenced(s: State, o: nat, t: set<Gtid>)
    requires o < |s.insts| && Quiet(s, o) && !s.insts[o].superReadOnly
    ensures Fenced(s, o, t)
  {
    FencedGrows(s, o, {}, t);
  }

  /** An instance outside the frozen quorum cannot collect enough acknowledgements for anything unseen. */
  lemma QuorumFences(s: State, ok: set<nat>, views: seq<set<Gtid>>, o: nat, t: set<Gtid>)
    requires Base(s) && |views| == |s.insts|
    requires ok <= Indices(|s.insts|) && |ok| > Half(s)
    requires forall i: nat :: i in ok ==> Frozen(s, i, views[i]) && views[i] <= t
    requires o < |s.insts| && o !in ok
    ensures Fenced(s, o, t)
  {
    hide QuorumHeld, Quiet;
    assert InstanceOk(s, o) && AcksOk(s, o);
    var n := |s.insts|;
    NotItsOwnFollower(s, o);
    assert Followers(s, o) !! ok + {o};
    DisjointCard(Followers(s, o), ok + {o}, n);
    forall g | g in s.insts[o].pending && g !in t ensures |Potential(s, o, g)| < Half(s) {
      forall i | i in ok ensures i !in Ackers(s, o, g) {
        assert Frozen(s, i, views[i]);
      }
      assert Potential(s, o, g) !! ok + {o};
      DisjointCard(Potential(s, o, g), ok + {o}, n);
    }
  }

  lemma NotItsOwnFollower(s: State, o: nat)
    requires o < |s.insts| && InstanceOk(s, o)
    ensures o !in Followers(s, o)
  {
  }

  // ----- sequences of events, permitted or not -----

  /** The servers can take all of these steps, one after the other. */
  predicate CanSend(s: State, es: seq<Event>)
    decreases |es|
  {
    es == [] || (Enabled(s, es[0]) && CanSend(Step(s, es[0]), es[1..]))
  }

  function SendAll(s: State, es: seq<Event>): (r: State)
    requires CanSend(s, es)
    ensures |r.insts| == |s.insts|
    decreases |es|
  {
    if es == [] then s else SendAll(Step(s, es[0]), es[1..])
  }

  lemma {:induction false} SendBoth(s: State, es: seq<Event>, fs: seq<Event>)
    requires CanSend(s, es) && CanSend(SendAll(s, es), fs)
    ensures CanSend(s, es + fs) && SendAll(s, es + fs) == SendAll(SendAll(s, es), fs)
    decreases |es|
  {
    hide Enabled, Step;
    if es == [] {
      assert es + fs == fs;
    } else {
      assert (es + fs)[1..] == es[1..] + fs;
      SendBoth(Step(s, es[0]), es[1..], fs);
    }
  }

  lemma {:induction false} SendSplit(s: State, es: seq<Event>, n: nat)
    requires CanSend(s, es) && n <= |es|
    ensures CanSend(s, es[..n]) && CanSend(SendAll(s, es[..n]), es[n..])
    ensures SendAll(s, es) == SendAll(SendAll(s, es[..n]), es[n..])
    decreases n
  {
    hide Enabled, Step;
    if n == 0 {
      assert es[..0] == [] && es[0..] == es;
    } else {
      assert es[..n][1..] == es[1..][..n - 1] && es[1..][n - 1..] == es[n..];
      SendSplit(Step(s, es[0]), es[1..], n - 1);
    }
  }

  ghost predicate InstancesKept(a: State, b: State) {
    |b.insts| == |a.insts| && forall i: nat :: i < |a.insts| ==> InstanceKept(a.insts[i], b.insts[i])
  }

  /** Passive steps keep what an instance has, whatever state they start from. */
  lemma {:induction false} PassiveRunKept(s: State, es: seq<Event>)
    requires CanSend(s, es) && forall k :: 0 <= k < |es| ==> Passive(es[k])
    ensures InstancesKept(s, SendAll(s, es))
    decreases |es|
  {
    hide Enabled, Step;
    if es != [] {
      var r := Step(s, es[0]);
      forall i: nat | i < |s.insts| ensures InstanceKept(s.insts[i], r.insts[i]) {
        assert Passive(es[0]);
        PassiveInstance(s, es[0], i);
      }
      PassiveRunKept(r, es[1..]);
      forall i: nat | i < |s.insts| ensures InstanceKept(s.insts[i], SendAll(s, es).insts[i]) {
        assert InstanceKept(s.insts[i], r.insts[i]) && InstanceKept(r.insts[i], SendAll(r, es[1..]).insts[i]);
      }
    }
  }
}
