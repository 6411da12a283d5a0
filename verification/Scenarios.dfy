/** Two runs that end where a configure does not do all that one would expect of it. */
module Scenarios {
  import opened Basics
  import opened Replication
  import opened ReplicationSafety
  import opened Runs
  import opened Status
  import opened Configure
  import opened FixedPoint

  /** An instance that has purged nothing, with the wait count of a cluster of three. */
  function Server(executed: set<Gtid>, pending: set<Gtid>, retrieved: set<Gtid>, open: bool, semiSource: bool,
                  semiReplica: bool, source: Option<nat>, io: bool, acks: set<(Gtid, nat)>): Instance
  {
    Instance(executed, pending, retrieved, {}, !open, semiSource, 1, semiReplica, source, io, acks)
  }

  /** Sets that differ in the way they are written. */
  lemma SameSets<T>(a: T, b: T)
    ensures {} + {a} == {a} && {a} - {a} == {} && {a} + {b} == {a, b} && {b} + {a} == {a, b}
  {
  }

  const FRESH: Instance := Server({}, {}, {}, false, false, false, None, false, {})

  lemma FreshStart()
    ensures Initial(3) == State([FRESH, FRESH, FRESH], 0, {}, {})
  {
  }

  /** Instance c becomes the primary of a fresh cluster and is opened for writes. */
  function Opened(c: nat): State
    requires c < 3
  {
    State([FRESH, FRESH, FRESH][c := Writable({}, {}, {})], c, {}, {})
  }

  lemma ReachOpened(c: nat)
    requires c < 3
    ensures Reachable(3, Opened(c))
  {
    hide Reachable, Spare, SpareLog, Settled, Holders, Fenced;
    StartIsReachable(3);
    FreshStart();
    var s := Take(3, Initial(3), SetPrimary(c));
    s := Take(3, s, SemiSourceOn(c));
    s := Take(3, s, SetReadWrite(c));
    assert s.insts == Opened(c).insts;
  }

  /** What a fresh instance is once it follows the primary c. */
  function Follower(c: nat): Instance { Server({}, {}, {}, false, false, true, Some(c), true, {}) }

  lemma Join(s: State, i: nat) returns (r: State)
    requires Reachable(3, s) && |s.insts| == 3 && i < 3 && s.primary < 3 && i != s.primary && s.insts[i] == FRESH
    ensures Reachable(3, r) && r == s.(insts := s.insts[i := Follower(s.primary)])
  {
    hide Reachable, Spare, SpareLog, Settled, Holders, Guarded, Ackers;
    r := Take(3, s, ChangeSource(i, s.primary));
    r := Take(3, r, SetSemiReplica(i, true));
    r := Take(3, r, StartReplica(i));
  }

  function Writable(executed: set<Gtid>, pending: set<Gtid>, acks: set<(Gtid, nat)>): Instance {
    Server(executed, pending, {}, true, true, false, None, false, acks)
  }

  /** The first transaction of the primary c is fetched by its follower f and acknowledged. */
  lemma CommitAcked(s: State, f: nat, g: Gtid) returns (r: State)
    requires Reachable(3, s) && |s.insts| == 3 && s.primary < 3 && f < 3 && f != s.primary
    requires s.insts[s.primary] == Writable({}, {}, {}) && s.insts[f] == Follower(s.primary)
    requires g !in s.issued && g.origin == s.primary
    ensures Reachable(3, r) && |r.insts| == 3 && r.primary == s.primary
    ensures r.insts == s.insts[s.primary := Writable({g}, {}, {(g, f)})]
                              [f := Server({}, {}, {g}, false, false, true, Some(s.primary), true, {})]
    ensures r.acked == s.acked + {g} && r.issued == s.issued + {g}
  {
    hide Reachable, Spare, SpareLog, Settled, Holders, Guarded;
    var c := s.primary;
    SameSets(g, g);
    SameSets((g, f), (g, f));
    r := Fetched(s, f, g);
    assert Ackers(r, c, g) == {f};
    r := Take(3, r, Acknowledge(c, g));
  }

  lemma Fetched(s: State, f: nat, g: Gtid) returns (r: State)
    requires Reachable(3, s) && |s.insts| == 3 && s.primary < 3 && f < 3 && f != s.primary
    requires s.insts[s.primary] == Writable({}, {}, {}) && s.insts[f] == Follower(s.primary)
    requires g !in s.issued && g.origin == s.primary
    ensures Reachable(3, r)
    ensures r == s.(insts := s.insts[s.primary := Writable({}, {g}, {(g, f)})]
                                    [f := Server({}, {}, {g}, false, false, true, Some(s.primary), true, {})],
                    issued := s.issued + {g})
  {
    hide Reachable, Spare, SpareLog, Settled, Holders, Guarded, Ackers;
    var c := s.primary;
    SameSets(g, g);
    SameSets((g, f), (g, f));
    r := Take(3, s, Commit(c, g));
    r := Take(3, r, Fetch(f, g));
  }

  // ----- a relay log that clears a flag -----

  const OLD: Gtid := Gtid(1, 0)
  const NEW: Gtid := Gtid(1, 1)

  /** Instance 1 is the primary, 0 and 2 follow it. */
  function Following(): State {
    State([Follower(1),
           Writable({}, {}, {}),
           Follower(1)], 1, {}, {})
  }

  lemma ReachFollowing()
    ensures Reachable(3, Following())
  {
    hide Reachable, Spare, SpareLog, Settled, Holders, Guarded, Ackers;
    ReachOpened(1);
    var s := Join(Opened(1), 0);
    s := Join(s, 2);
    assert s.insts == Following().insts;
  }

  /** OLD is acknowledged, with the acknowledgement of 0. */
  function Committed(): State {
    State([Server({OLD}, {}, {OLD}, false, false, true, Some(1), true, {}),
           Writable({OLD}, {}, {(OLD, 0)}),
           Follower(1)], 1, {OLD}, {OLD})
  }

  lemma ReachCommitted()
    ensures Reachable(3, Committed())
  {
    hide Reachable, Spare, SpareLog, Settled, Holders, Guarded;
    ReachFollowing();
    SameSets(OLD, OLD);
    var s := CommitAcked(Following(), 0, OLD);
    s := Take(3, s, Apply(0, OLD));
    assert s.insts == Committed().insts;
  }

  /** The session that committed NEW has given up, and 0 has it in its relay log. */
  function GivenUp(): State {
    State([Server({OLD}, {}, {OLD, NEW}, false, false, true, Some(1), true, {}),
           Writable({OLD, NEW}, {}, {(OLD, 0)}),
           Follower(1)], 1, {OLD}, {OLD, NEW})
  }

  lemma ReachGivenUp()
    ensures Reachable(3, GivenUp())
  {
    hide Reachable, Spare, SpareLog, Settled, Holders, Guarded, Ackers;
    ReachCommitted();
    SameSets(OLD, NEW);
    SameSets(NEW, NEW);
    var s := Take(3, Committed(), Commit(1, NEW));
    s := Take(3, s, Abandon(1, NEW));
    s := Take(3, s, Fetch(0, NEW));
    assert s.insts == GivenUp().insts;
  }

  function Caught(): State {
    State([Server({OLD}, {}, {OLD, NEW}, false, false, true, Some(1), true, {}),
           Writable({OLD, NEW}, {}, {(OLD, 0)}),
           Server({OLD, NEW}, {}, {OLD, NEW}, false, false, true, Some(1), true, {})], 1, {OLD}, {OLD, NEW})
  }

  lemma ReachCaught()
    ensures Reachable(3, Caught())
  {
    hide Reachable, Spare, SpareLog, Settled, Holders, Guarded, Ackers;
    ReachGivenUp();
    SameSets(OLD, NEW);
    var s := Take(3, GivenUp(), Fetch(2, OLD));
    s := Take(3, s, Fetch(2, NEW));
    s := Take(3, s, Apply(2, OLD));
    s := Take(3, s, Apply(2, NEW));
    assert s.insts == Caught().insts;
  }

  /** The new primary 0 still has NEW in its relay log; the others have executed it. */
  function Behind(): State {
    State([Server({OLD}, {}, {OLD, NEW}, false, false, true, Some(1), false, {}),
           Server({OLD, NEW}, {}, {}, false, true, false, None, false, {(OLD, 0)}),
           Server({OLD, NEW}, {}, {OLD, NEW}, false, false, true, Some(1), false, {})], 0, {OLD}, {OLD, NEW})
  }

  lemma Stopping() returns (s: State)
    ensures s == Behind().(primary := 1) && Reachable(3, s)
  {
    hide Reachable, Spare, SpareLog, Settled, Holders, Guarded, Ackers;
    ReachCaught();
    s := Take(3, Caught(), SetSuperReadOnly(1));
    s := Take(3, s, StopIo(0));
    s := Take(3, s, StopIo(2));
    assert s.insts == Behind().insts;
  }

  lemma ReachBehind()
    ensures Reachable(3, Behind())
  {
    hide Reachable, Spare, SpareLog, Settled, Holders, Fenced;
    var s := Stopping();
    assert Guarded(s, 0);
    s := Take(3, s, SetPrimary(0));
    assert s.insts == Behind().insts;
  }

  /**
   Both replicas are flagged, and no longer will be once the primary has caught up: a second configure attaches them,
   although every instance answers and every thread connects.
   */
  lemma RelayLogClearsFlag(stored: seq<nat>, spec: Spec, pods: seq<Pod>, purges: set<nat>)
    requires spec.replicas == 3 == |pods| && !spec.external
    ensures Reachable(3, Behind())
    ensures var net := Net({}, {0, 1, 2});
            var seen := ViewOf(Behind(), stored, net, spec, pods);
            && NoClone(seen) && WaitsForRelayLog(seen) && !FlagsStay(seen)
            && CanSend(Behind(), ConfigureRun(seen, [NEW, OLD], purges))
            && var r := SendAll(Behind(), ConfigureRun(seen, [NEW, OLD], purges));
               r.primary == 0 && Plan(ViewOf(r, stored, net, spec, pods)) != []
  {
    hide *;
    ReachBehind();
    ReachableInv(3, Behind());
    BehindFlags(stored, spec, pods);
    InvCanConfigure(Behind(), spec);
    AnotherConfigure(Behind(), stored, Net({}, {0, 1, 2}), spec, pods, [NEW, OLD], purges);
  }

  lemma BehindFlags(stored: seq<nat>, spec: Spec, pods: seq<Pod>)
    requires spec.replicas == 3 == |pods| && !spec.external
    ensures |Behind().insts| == 3 && Behind().primary == 0
    ensures var seen := ViewOf(Behind(), stored, Net({}, {0, 1, 2}), spec, pods);
            && NoClone(seen) && WaitsForRelayLog(seen) && !FlagsStay(seen) && |seen.status| == 3
            && Awaited(seen, [NEW, OLD])
            && forall i: nat :: i < 3 && seen.status[i].Some? ==> !Connecting(seen.status[i].value)
  {
    var s, net := Behind(), Net({}, {0, 1, 2});
    var seen := ViewOf(s, stored, net, spec, pods);
    assert seen.status[0] == StatusOf(s, stored, net, 0) && seen.status[1] == StatusOf(s, stored, net, 1)
           && seen.status[2] == StatusOf(s, stored, net, 2);
    assert NEW in s.insts[1].executed - s.insts[0].executed && NEW in s.insts[2].executed - s.insts[0].executed;
    assert ErrantIn(s, stored, 1) && ErrantIn(s, stored, 2);
    assert Retrieved(seen) == {OLD, NEW} && seen.executed == {OLD};
    assert !ErrantOnceDrained(seen, 1);
  }

  // ----- an errant replica that is not stopped -----

  const MINE: Gtid := Gtid(0, 0)
  const STRAY: Gtid := Gtid(2, 0)

  /** Instance 2 was the primary, committed STRAY alone, and was closed; 0 takes over. */
  function Replaced(): State {
    State([FRESH, FRESH, Server({STRAY}, {}, {}, false, true, false, None, false, {})], 0, {}, {STRAY})
  }

  lemma ReachReplaced()
    ensures Reachable(3, Replaced())
  {
    hide Reachable, Spare, SpareLog, Settled, Holders, Fenced;
    ReachOpened(2);
    SameSets(STRAY, STRAY);
    var s := Take(3, Opened(2), Commit(2, STRAY));
    s := Take(3, s, Abandon(2, STRAY));
    s := Take(3, s, SetSuperReadOnly(2));
    assert Guarded(s, 0);
    s := Take(3, s, SetPrimary(0));
    assert s.insts == Replaced().insts;
  }

  /** The empty primary 0 is open; nobody can be compared with it, so 1 and 2 are attached. */
  function BothFollow(): State {
    State([Writable({}, {}, {}),
           Follower(0),
           Server({STRAY}, {}, {}, false, false, true, Some(0), true, {})], 0, {}, {STRAY})
  }

  lemma ReachBothFollow()
    ensures Reachable(3, BothFollow())
  {
    hide Reachable, Spare, SpareLog, Settled, Holders, Guarded, Ackers;
    ReachReplaced();
    var s := Take(3, Replaced(), SemiSourceOn(0));
    s := Take(3, s, SetReadWrite(0));
    s := Join(s, 1);
    s := JoinTwo(s);
    assert s.insts == BothFollow().insts;
  }

  lemma JoinTwo(s: State) returns (r: State)
    requires Reachable(3, s) && |s.insts| == 3 && s.primary == 0
    requires s.insts[2] == Server({STRAY}, {}, {}, false, true, false, None, false, {})
    ensures Reachable(3, r)
    ensures r == s.(insts := s.insts[2 := Server({STRAY}, {}, {}, false, false, true, Some(0), true, {})])
  {
    hide Reachable, Spare, SpareLog, Settled, Holders, Guarded, Ackers;
    r := Take(3, s, ChangeSource(2, 0));
    r := Take(3, r, SetSemiReplica(2, true));
    r := Take(3, r, SemiSourceOff(2));
    r := Take(3, r, StartReplica(2));
  }

  /** The first transaction of 0 is acknowledged and everywhere; now 2 is errant, and its thread is started. */
  function StillStarted(): State {
    State([Writable({MINE}, {}, {(MINE, 1)}),
           Server({MINE}, {}, {MINE}, false, false, true, Some(0), true, {}),
           Server({STRAY, MINE}, {}, {MINE}, false, false, true, Some(0), true, {})], 0, {MINE}, {STRAY, MINE})
  }

  function Acknowledged(): State {
    State([Writable({MINE}, {}, {(MINE, 1)}),
           Server({}, {}, {MINE}, false, false, true, Some(0), true, {}),
           Server({STRAY}, {}, {}, false, false, true, Some(0), true, {})], 0, {MINE}, {STRAY, MINE})
  }

  lemma ReachAcknowledged()
    ensures Reachable(3, Acknowledged())
  {
    hide Reachable, Spare, SpareLog, Settled, Holders, Guarded;
    ReachBothFollow();
    SameSets(MINE, MINE);
    SameSets(STRAY, MINE);
    var s := CommitAcked(BothFollow(), 1, MINE);
    assert s.insts == Acknowledged().insts;
  }

  lemma ReachStillStarted()
    ensures Reachable(3, StillStarted())
  {
    hide Reachable, Spare, SpareLog, Settled, Holders, Guarded, Ackers;
    ReachAcknowledged();
    SameSets(STRAY, MINE);
    SameSets(MINE, MINE);
    var s := Take(3, Acknowledged(), Apply(1, MINE));
    s := Take(3, s, Fetch(2, MINE));
    s := Take(3, s, Apply(2, MINE));
    assert s.insts == StillStarted().insts;
  }

  /** If the thread of 2 has lost its connection, the configure sends nothing, and the errant replica is not stopped. */
  lemma ErrantStaysStarted(stored: seq<nat>, spec: Spec, pods: seq<Pod>)
    requires spec.replicas == 3 == |pods| && !spec.external
    ensures Reachable(3, StillStarted())
    ensures var seen := ViewOf(StillStarted(), stored, Net({}, {0, 1}), spec, pods);
            && Plan(seen) == [] && !WaitsForRelayLog(seen)
            && seen.status[2].Some? && seen.status[2].value.isErrant && Connecting(seen.status[2].value)
            && StillStarted().insts[2].io
  {
    ReachStillStarted();
    hide Reachable, Plan;
    var s, net := StillStarted(), Net({}, {0, 1});
    var seen := ViewOf(s, stored, net, spec, pods);
    assert seen.status[0] == StatusOf(s, stored, net, 0) && seen.status[1] == StatusOf(s, stored, net, 1)
           && seen.status[2] == StatusOf(s, stored, net, 2);
    assert STRAY in s.insts[2].executed - s.insts[0].executed;
    assert s.insts[1].executed - s.insts[0].executed == {};
    assert ErrantIn(s, stored, 2) && !ErrantIn(s, stored, 1);
    NothingToSend(seen);
  }
}
