/** Failover: fence the old primary, choose the most advanced replica, let it catch up, record it. */
module Failover {
  import opened Basics
  import opened Replication
  import opened ReplicationSafety
  import opened Runs
  import opened Status
  import opened World
  import opened Statements
  import opened Gather
  import D = Dbop

  /** The run goes on, possibly with another primary. */
  ghost predicate Continues(a: Moment, b: Moment) {
    && PodsKept(a, b) && |b.s.insts| == |a.s.insts|
    && b.start == a.start && a.log <= b.log && b.errantList == a.errantList
  }

  lemma UndisturbedContinues(a: Moment, b: Moment)
    requires Undisturbed(a, b)
    ensures Continues(a, b) && b.s.primary == a.s.primary
  {
  }

  /** The reachable replicas are quiet, and the first n of them have stopped receiving. */
  ghost predicate Stopped(s: State, p: Picture, n: nat) {
    && WellFormed(p) && |p.status| == |s.insts| && p.primary == s.primary && n <= |p.status|
    && (forall k: nat :: k < |p.status| && k != p.primary && p.status[k].Some? ==>
          IsQuiet(s, k) && Reflects(s, k, p.status[k].value) && (k < n ==> !s.insts[k].io))
  }

  lemma StoppedKept(a: State, b: State, p: Picture, n: nat)
    requires Keeps(a, b) && Stopped(a, p, n)
    ensures Stopped(b, p, n)
  {
    hide IsQuiet, Reflects, Frozen, Candidate, Settled;
    forall k: nat | k < |p.status| && k != p.primary && p.status[k].Some?
      ensures IsQuiet(b, k) && Reflects(b, k, p.status[k].value) && (k < n ==> !b.insts[k].io)
    {
      assert InstanceKept(a.insts[k], b.insts[k]);
      ReflectsKept(a, b, k, p.status[k].value);
    }
  }

  lemma StoppedOneMore(s: State, p: Picture, n: nat)
    requires Stopped(s, p, n) && n < |p.status| && (n == p.primary || p.status[n].None? || !s.insts[n].io)
    ensures Stopped(s, p, n + 1)
  {
  }

  method StopReplicas(w: World, ss: StatusSet) returns (ok: bool)
    requires w.Valid() && Stopped(w.s, ss.seen, 0)
    modifies w
    ensures old(w.faults) <= w.faults && (!ok ==> old(w.faults) < w.faults)
    ensures w.Valid() && Undisturbed(old(w.Now()), w.Now())
    ensures ok ==> Stopped(w.s, ss.seen, |ss.seen.status|)
  {
    hide Inv, Legal, Replay, LabelsOk, ConnectionsOk, ErrantsOk, Keeps, PodsKept, Stopped, SemiReady;
    UndisturbedReflexive(w.Now());
    StoppedShape(w.s, ss.seen, 0);
    for i := 0 to |ss.seen.status|
      invariant w.Valid() && Undisturbed(old(w.Now()), w.Now())
      invariant Stopped(w.s, ss.seen, i) && |w.s.insts| == |ss.seen.status| && old(w.faults) <= w.faults
    {
      if i == ss.seen.primary || ss.seen.status[i].None? {
        StoppedOneMore(w.s, ss.seen, i);
        continue;
      }
      ghost var before := w.Now();
      ok := StopReplicaIOThread(w, i);
      UndisturbedTransitive(old(w.Now()), before, w.Now());
      if !ok {
        return;
      }
      StoppedKept(before.s, w.s, ss.seen, i);
      StoppedOneMore(w.s, ss.seen, i);
      SizeKept(before.s, w.s);
    }
    ok := true;
  }

  lemma StoppedShape(s: State, p: Picture, n: nat)
    requires Stopped(s, p, n)
    ensures WellFormed(p) && |p.status| == |s.insts| && p.primary == s.primary && n <= |p.status|
  {
  }

  // ----- the second look -----

  /** The first n candidates have shown everything that they will ever have received. */
  ghost predicate Rechecked(a: State, s: State, p: Picture, candidates: seq<Option<D.Status>>, n: nat) {
    && |candidates| == |p.status| == |s.insts| == |a.insts| && n <= |candidates|
    && (forall k: nat :: k < |candidates| && candidates[k].Some? ==>
          && k < n && k != p.primary && p.status[k].Some? && !p.status[k].value.isErrant
          && LookedAt(a, s, k, candidates[k].value))
    && (forall k: nat :: k < n && k != p.primary && p.status[k].Some? && !p.status[k].value.isErrant ==>
          candidates[k].Some? && (p.status[k].value.replica.Some? ==> candidates[k].value.replica.Some?))
  }

  ghost predicate LookedAt(a: State, s: State, k: nat, st: D.Status)
    requires k < |a.insts|
  {
    && Reflects(s, k, st)
    && (st.replica.Some? ==> Frozen(s, k, Shown(st)) && a.insts[k].Received() <= Shown(st))
  }

  lemma RecheckedKept(a: State, s: State, s': State, p: Picture, candidates: seq<Option<D.Status>>, n: nat)
    requires Keeps(s, s') && Rechecked(a, s, p, candidates, n)
    ensures Rechecked(a, s', p, candidates, n)
  {
    hide Reflects, Frozen, IsQuiet, Candidate, Settled;
    forall k: nat | k < |candidates| && candidates[k].Some? ensures LookedAt(a, s', k, candidates[k].value) {
      assert LookedAt(a, s, k, candidates[k].value);
      ReflectsKept(s, s', k, candidates[k].value);
    }
  }

  lemma RecheckedSkip(a: State, s: State, p: Picture, candidates: seq<Option<D.Status>>, n: nat)
    requires Rechecked(a, s, p, candidates, n) && n < |candidates|
    requires n == p.primary || p.status[n].None? || p.status[n].value.isErrant
    ensures Rechecked(a, s, p, candidates, n + 1)
  {
  }

  lemma RecheckedMore(a: State, s: State, p: Picture, candidates: seq<Option<D.Status>>, n: nat, st: D.Status)
    requires Rechecked(a, s, p, candidates, n) && n < |candidates|
    requires n != p.primary && p.status[n].Some? && !p.status[n].value.isErrant
    requires LookedAt(a, s, n, st)
    requires Reflects(s, n, p.status[n].value)
    ensures Rechecked(a, s, p, candidates[n := Some(st)], n + 1)
  {
    hide Frozen;
  }

  lemma LookedLater(a: State, b: State, s: State, k: nat, st: D.Status)
    requires Keeps(a, b) && k < |a.insts| && LookedAt(b, s, k, st)
    ensures LookedAt(a, s, k, st)
  {
    hide Frozen, Reflects;
    assert InstanceKept(a.insts[k], b.insts[k]);
  }

  method LookAgain(w: World, ss: StatusSet, ghost a: Moment) returns (ok: bool, candidates: seq<Option<D.Status>>)
    requires w.Valid() && Stopped(w.s, ss.seen, |ss.seen.status|)
    requires Undisturbed(a, w.Now())
    modifies w
    ensures old(w.faults) <= w.faults && (!ok ==> old(w.faults) < w.faults)
    ensures w.Valid() && Undisturbed(a, w.Now())
    ensures ok ==> Stopped(w.s, ss.seen, |ss.seen.status|)
    ensures ok ==> Rechecked(a.s, w.s, ss.seen, candidates, |ss.seen.status|)
  {
    hide Inv, Legal, Replay, LabelsOk, ConnectionsOk, ErrantsOk, Keeps, PodsKept, Stopped, Rechecked, LookedAt,
      SemiReady;
    StoppedShape(w.s, ss.seen, |ss.seen.status|);
    candidates := seq(|ss.seen.status|, _ => None);
    NothingChecked(a.s, w.s, ss.seen, candidates);
    for i := 0 to |ss.seen.status|
      invariant w.Valid() && Undisturbed(a, w.Now()) && |candidates| == |w.s.insts| == |ss.seen.status|
      invariant Stopped(w.s, ss.seen, |ss.seen.status|) && old(w.faults) <= w.faults
      invariant Rechecked(a.s, w.s, ss.seen, candidates, i)
    {
      if i == ss.seen.primary || ss.seen.status[i].None? || ss.seen.status[i].value.isErrant {
        RecheckedSkip(a.s, w.s, ss.seen, candidates, i);
        continue;
      }
      ghost var before := w.Now();
      var st, _ := GetStatus(w, i);
      UndisturbedTransitive(a, before, w.Now());
      StoppedKept(before.s, w.s, ss.seen, |ss.seen.status|);
      if st.None? {
        ok := false;
        return;
      }
      RecheckedKept(a.s, before.s, w.s, ss.seen, candidates, i);
      FreshLook(a.s, before.s, w.s, ss.seen, i, st.value);
      RecheckedMore(a.s, w.s, ss.seen, candidates, i, st.value);
      SizeKept(before.s, w.s);
      candidates := candidates[i := st];
    }
    ok := true;
  }

  lemma NothingChecked(a: State, s: State, p: Picture, candidates: seq<Option<D.Status>>)
    requires Keeps(a, s) && |candidates| == |p.status| == |s.insts|
    requires forall k: nat :: k < |candidates| ==> candidates[k].None?
    ensures Rechecked(a, s, p, candidates, 0)
  {
  }

  lemma FreshLook(a: State, b: State, s: State, p: Picture, i: nat, st: D.Status)
    requires Keeps(a, b) && Keeps(b, s) && Stopped(b, p, |p.status|) && Stopped(s, p, |p.status|)
    requires i < |p.status| && i != p.primary && p.status[i].Some?
    requires Reflects(s, i, st)
    requires st.replica.Some? && IsQuiet(b, i) && !b.insts[i].io ==>
               Frozen(s, i, Shown(st)) && b.insts[i].Received() <= Shown(st)
    ensures i < |a.insts| && LookedAt(a, s, i, st) && Reflects(s, i, p.status[i].value)
  {
    hide Frozen, Reflects, IsQuiet, Candidate, Settled;
    LookedLater(a, b, s, i, st);
  }

  // ----- the choice -----

  /** The instances other than p that have received g. */
  ghost function ReceivedElsewhere(s: State, g: Gtid, p: nat): set<nat> {
    set i: nat | i < |s.insts| && i != p && g in s.insts[i].Received()
  }

  /** The top runner among the rechecked instances may become the primary once it has executed what it shows. */
  lemma TopIsCandidate(a: State, s: State, p: Picture, candidates: seq<Option<D.Status>>, t: nat)
    requires Inv(s) && Stopped(s, p, |p.status|) && Rechecked(a, s, p, candidates, |p.status|)
    requires MeansFailed(p) && p.spec.replicas == |s.insts|
    requires D.IsTop(candidates, |candidates|, t)
    ensures Candidate(s, t, D.Gtids(candidates[t]))
  {
    hide Reflects, Frozen, Inv, Candidate, IsQuiet, LostData;
    var goal := D.Gtids(candidates[t]);
    var views := seq(|candidates|, k requires 0 <= k < |candidates| => D.Gtids(candidates[k]));
    var ok := UsableReplicas(p);
    assert ok <= Indices(|s.insts|);
    forall i: nat | i in ok ensures Frozen(s, i, views[i]) && views[i] <= goal {
      assert candidates[i].Some? && candidates[i].value.replica.Some?;
      assert LookedAt(a, s, i, candidates[i].value);
      TopCovers(candidates, t, i);
    }
    QuietOf(s, t);
    InvBase(s);
    QuorumCandidate(s, ok, views, t, goal);
  }

  /** In a Failed picture, whatever Half(a) other instances had received is in what the top runner shows. */
  lemma LossLess(a: State, p: Picture, candidates: seq<Option<D.Status>>, t: nat, done: set<Gtid>)
    requires WellFormed(p) && MeansFailed(p) && |a.insts| == p.spec.replicas == |candidates|
    requires forall i: nat :: i < |candidates| && Usable(p, i) ==> a.insts[i].Received() <= D.Gtids(candidates[i])
    requires D.IsTop(candidates, |candidates|, t) && D.Gtids(candidates[t]) <= done
    ensures forall g :: |ReceivedElsewhere(a, g, p.primary)| >= Half(a) ==> g in done
  {
    hide Usable, LostData;
    forall g | |ReceivedElsewhere(a, g, p.primary)| >= Half(a) ensures g in done {
      var holders := ReceivedElsewhere(a, g, p.primary) + {p.primary};
      var i := Overlap(UsableReplicas(p), holders, |a.insts|);
      UsableIsOther(p, i);
      TopCovers(candidates, t, i);
    }
  }

  lemma UsableIsOther(p: Picture, i: nat)
    requires WellFormed(p) && Usable(p, i)
    ensures i != p.primary
  {
  }

  /** st shows the replication state of instance i in s. */
  ghost predicate ShowsReplica(s: State, i: nat, st: D.Status) {
    && i < |s.insts| && (st.replica.Some? <==> s.insts[i].source.Some?)
    && (st.replica.Some? ==>
          st.replica.value.retrieved == s.insts[i].retrieved && st.replica.value.executed == s.insts[i].executed)
  }

  /**
   The failover of a cluster in any state, reachable or not, relay logs lost or not.  Beside it the environment
   takes any steps and IO threads are stopped (es).  Instance i is looked at again after looks[i] of them, the top
   runner t is chosen, and at the end it has executed what it had retrieved.  Then it has executed every
   transaction that at least Half(a) instances other than the primary had received at the beginning.
   */
  lemma FailoverLosesNothing(a: State, es: seq<Event>, p: Picture, looks: seq<nat>,
                             candidates: seq<Option<D.Status>>, t: nat)
    requires CanSend(a, es) && forall k :: 0 <= k < |es| ==> Passive(es[k])
    requires WellFormed(p) && MeansFailed(p) && |a.insts| == p.spec.replicas == |candidates| == |looks|
    requires forall i :: 0 <= i < |looks| ==> looks[i] <= |es| && CanSend(a, es[..looks[i]])
    requires forall i: nat :: i < |candidates| && Usable(p, i) ==> a.insts[i].source.Some? && candidates[i].Some?
    requires forall i :: 0 <= i < |candidates| && candidates[i].Some? ==>
               ShowsReplica(SendAll(a, es[..looks[i]]), i, candidates[i].value)
    requires D.IsTop(candidates, |candidates|, t)
    requires candidates[t].value.replica.value.retrieved <= SendAll(a, es).insts[t].executed
    ensures forall g :: |ReceivedElsewhere(a, g, p.primary)| >= Half(a) ==> g in SendAll(a, es).insts[t].executed
  {
    hide CanSend, SendAll, Usable, LostData, MeansFailed, Passive;
    forall i: nat | i < |candidates| && Usable(p, i) ensures a.insts[i].Received() <= D.Gtids(candidates[i]) {
      var r := SendAll(a, es[..looks[i]]);
      PassiveRunKept(a, es[..looks[i]]);
      assert InstanceKept(a.insts[i], r.insts[i]) && ShowsReplica(r, i, candidates[i].value);
    }
    var r := SendAll(a, es[..looks[t]]);
    SendSplit(a, es, looks[t]);
    PassiveRunKept(r, es[looks[t]..]);
    assert InstanceKept(r.insts[t], SendAll(a, es).insts[t]) && ShowsReplica(r, t, candidates[t].value);
    LossLess(a, p, candidates, t, SendAll(a, es).insts[t].executed);
  }

  lemma InvBase(s: State)
    requires Inv(s)
    ensures Base(s)
  {
  }

  lemma QuietOf(s: State, i: nat)
    requires IsQuiet(s, i)
    ensures i < |s.insts| && Quiet(s, i)
  {
  }

  lemma TopCovers(candidates: seq<Option<D.Status>>, t: nat, i: nat)
    requires D.IsTop(candidates, |candidates|, t) && i < |candidates|
    ensures D.Gtids(candidates[i]) <= D.Gtids(candidates[t])
  {
    assert D.Eligible(candidates, i) || D.Gtids(candidates[i]) == {};
  }

  lemma CandidateKeptOn(s: State, s': State, t: nat, goal: set<Gtid>)
    requires Candidate(s, t, goal) && Keeps(s, s')
    ensures Candidate(s', t, goal)
  {
    hide Candidate, Frozen, IsQuiet, Settled;
  }

  /** A candidate that has executed its goal may be recorded. */
  lemma CandidateReady(s: State, t: nat, goal: set<Gtid>)
    requires Inv(s) && Candidate(s, t, goal) && goal <= s.insts[t].executed
    ensures Enabled(s, SetPrimary(t)) && Permitted(s, SetPrimary(t))
  {
    hide Fenced, Base, Quiet;
    forall o: nat | o < |s.insts| && o != t && !s.insts[o].superReadOnly ensures Fenced(s, o, s.insts[t].executed) {
      FencedGrows(s, o, goal, s.insts[t].executed);
    }
  }

  lemma KeepsInstances(a: State, b: State)
    requires Keeps(a, b)
    ensures InstancesKept(a, b)
  {
  }

  /** The status update that changes status.currentPrimaryIndex. */
  method RecordPrimary(w: World, t: nat, ghost goal: set<Gtid>) returns (ok: bool)
    requires w.Valid() && Candidate(w.s, t, goal) && goal <= w.s.insts[t].executed
    requires forall k :: 0 <= k < |w.errantList| ==> w.errantList[k] != t
    modifies w
    ensures old(w.faults) <= w.faults && (!ok ==> old(w.faults) < w.faults)
    ensures w.Valid() && Continues(old(w.Now()), w.Now())
    ensures w.s.primary == old(w.s).primary || w.s.primary == t
    ensures w.s.primary == t && t != old(w.s).primary ==> goal <= w.s.insts[t].executed
    ensures InstancesKept(old(w.s), w.s)
    ensures ok ==> w.s.primary == t
  {
    hide Inv, Legal, Replay, LabelsOk, ConnectionsOk, Keeps, PodsKept, Candidate, Enabled, Permitted, SemiReady;
    ghost var a := w.Now();
    w.Interfere();
    ghost var b := w.Now();
    UndisturbedContinues(a, b);
    CandidateStays(a.s, b.s, t, goal);
    KeepsInstances(a.s, b.s);
    ok := w.Answered();
    if !ok {
      return;
    }
    CandidateReady(w.s, t, goal);
    RecordingKeeps(w.s, t);
    w.Issue(SetPrimary(t));
    ContinuesStep(a, b, w.Now());
    ok := w.Answered();
  }

  lemma CandidateStays(a: State, b: State, t: nat, goal: set<Gtid>)
    requires Keeps(a, b) && Candidate(a, t, goal) && goal <= a.insts[t].executed
    ensures Candidate(b, t, goal) && t < |b.insts| && goal <= b.insts[t].executed
  {
    hide Quiet, Guards, Frozen, Settled;
    assert InstanceKept(a.insts[t], b.insts[t]);
  }

  lemma RecordingKeeps(s: State, t: nat)
    requires Enabled(s, SetPrimary(t))
    ensures Step(s, SetPrimary(t)).insts == s.insts && Step(s, SetPrimary(t)).primary == t
  {
  }

  lemma ContinuesStep(a: Moment, b: Moment, c: Moment)
    requires Continues(a, b)
    requires c == b.(s := c.s, log := c.log) && |c.s.insts| == |b.s.insts| && b.log <= c.log
    ensures Continues(a, c)
  {
    forall i: nat | i < |a.pods| ensures PodKept(a, c, i) {
      assert PodKept(a, b, i);
    }
  }

  // ----- failover -----

  lemma CurrentStopped(m: Moment, ss: StatusSet)
    requires Current(m, ss)
    ensures Stopped(m.s, ss.seen, 0)
  {
    hide IsQuiet, Reflects, Settled, SemiReady;
    forall k: nat | k < |ss.seen.status| && k != ss.seen.primary && ss.seen.status[k].Some?
      ensures IsQuiet(m.s, k) && Reflects(m.s, k, ss.seen.status[k].value)
    {
      assert ReadOne(m.s, k, ss.seen.status[k].value);
    }
  }

  /** An instance that is not flagged is not in the stored list. */
  lemma UnlistedCandidate(a: State, s: State, m: Moment, ss: StatusSet, candidates: seq<Option<D.Status>>, t: nat)
    requires Current(m, ss) && ss.seen.executed == {}
    requires Rechecked(a, s, ss.seen, candidates, |ss.seen.status|) && t < |candidates| && candidates[t].Some?
    ensures t != ss.seen.primary
    ensures forall k :: 0 <= k < |m.errantList| ==> m.errantList[k] != t
  {
  }

  /** What the top runner retrieved, it executes: its whole view is then executed. */
  lemma CaughtUp(a: State, s: State, s': State, p: Picture, candidates: seq<Option<D.Status>>, t: nat)
    requires Rechecked(a, s, p, candidates, |p.status|) && D.IsTop(candidates, |candidates|, t) && Keeps(s, s')
    requires candidates[t].value.replica.value.retrieved <= s'.insts[t].executed
    ensures D.Gtids(candidates[t]) <= s'.insts[t].executed
  {
    hide Frozen;
    assert LookedAt(a, s, t, candidates[t].value);
    ReflectsKept(s, s', t, candidates[t].value);
  }

  lemma TopShape(candidates: seq<Option<D.Status>>, t: nat)
    requires D.IsTop(candidates, |candidates|, t)
    ensures t < |candidates| && candidates[t].Some? && candidates[t].value.replica.Some?
  {
  }

  /** looked: the statuses of the second look. */
  method Failover(w: World, ss: StatusSet) returns (ok: bool, ghost looked: seq<Option<D.Status>>)
    requires w.Valid() && Current(w.Now(), ss) && Classify(ss.seen) == Failed && ss.seen.spec.replicas == |w.s.insts|
    modifies w, ss`candidate
    // without a fault it fails only if two replicas that are not errant have received incomparable sets
    ensures old(w.faults) <= w.faults
    ensures !ok && w.faults == old(w.faults) ==>
              && (forall k: nat :: k < |looked| && looked[k].Some? ==>
                    k != old(w.s).primary && k !in old(w.errantList) && Reflects(w.s, k, looked[k].value))
              && exists i: nat, j: nat :: D.Incomparable(looked, i, j)
    ensures w.Valid() && Continues(old(w.Now()), w.Now())
    ensures ok ==> w.s.primary == ss.candidate != old(w.s).primary
    ensures w.s.primary != old(w.s).primary ==> w.s.primary == ss.candidate < |w.s.insts|
    // a listed errant replica is never promoted
    ensures w.s.primary != old(w.s).primary ==> w.s.primary !in old(w.errantList)
    // loss-less: what Half(s) other instances had received is executed by the new primary
    ensures w.s.primary != old(w.s).primary ==>
              forall g :: |ReceivedElsewhere(old(w.s), g, old(w.s).primary)| >= Half(old(w.s)) ==>
                g in w.s.insts[w.s.primary].executed
  {
    hide Inv, Legal, Replay, LabelsOk, ConnectionsOk, Keeps, PodsKept, Candidate, Stopped, Rechecked, Current,
      SemiReady, Continues;
    ghost var a := w.Now();
    looked := [];
    CurrentStopped(a, ss);
    ok := StopReplicas(w, ss);
    UndisturbedContinues(a, w.Now());
    if !ok {
      return;
    }
    var candidates;
    ok, candidates := LookAgain(w, ss, a);
    UndisturbedContinues(a, w.Now());
    if !ok {
      return;
    }
    looked := candidates;
    var r := D.FindTopRunner(candidates);
    if r.NoTop? {
      if r.error == D.ErrQuery {
        w.faults := w.faults + 1;
      }
      SomeoneEligible(a, w.s, ss, candidates);
      return false, looked;
    }
    ok := Promote(w, ss, candidates, r.index, a);
  }

  /** In a Failed state there is always someone to choose from, and nobody listed as errant is. */
  lemma SomeoneEligible(a: Moment, s: State, ss: StatusSet, candidates: seq<Option<D.Status>>)
    requires Current(a, ss) && Classify(ss.seen) == Failed
    requires Rechecked(a.s, s, ss.seen, candidates, |ss.seen.status|)
    ensures !D.NoneEligible(candidates, |candidates|)
    ensures forall k: nat :: k < |candidates| && candidates[k].Some? ==>
              k != a.s.primary && k !in a.errantList && Reflects(s, k, candidates[k].value)
  {
    hide Frozen, IsQuiet, Settled, SemiReady, Reflects;
    FailedHasNoPrimarySet(ss.seen);
    IsFailedPicture(ss.seen);
    forall k: nat | k < |candidates| && candidates[k].Some?
      ensures k != a.s.primary && k !in a.errantList && Reflects(s, k, candidates[k].value)
    {
      assert LookedAt(a.s, s, k, candidates[k].value);
      UnlistedCandidate(a.s, s, a, ss, candidates, k);
    }
    assert UsableReplicas(ss.seen) != {};
    var i :| i in UsableReplicas(ss.seen);
    assert ReadOne(a.s, i, ss.seen.status[i].value);
    HasData(a.s, i, ss.seen.status[i].value);
    assert candidates[i].Some? && candidates[i].value.replica.Some? && LookedAt(a.s, s, i, candidates[i].value);
    assert D.Eligible(candidates, i);
  }

  lemma HasData(s: State, i: nat, st: D.Status)
    requires Reflects(s, i, st) && st.executed != {}
    ensures s.insts[i].Received() != {}
  {
    var g :| g in st.executed;
    assert g in s.insts[i].Received();
  }

  method Promote(w: World, ss: StatusSet, candidates: seq<Option<D.Status>>, t: nat, ghost a: Moment) returns (ok: bool)
    requires w.Valid() && Current(a, ss) && Classify(ss.seen) == Failed && ss.seen.spec.replicas == |w.s.insts|
    requires Undisturbed(a, w.Now()) && Stopped(w.s, ss.seen, |ss.seen.status|)
    requires Rechecked(a.s, w.s, ss.seen, candidates, |ss.seen.status|) && D.IsTop(candidates, |candidates|, t)
    modifies w, ss`candidate
    ensures old(w.faults) <= w.faults && (!ok ==> old(w.faults) < w.faults)
    ensures w.Valid() && Continues(a, w.Now())
    ensures ok ==> w.s.primary == ss.candidate != a.s.primary
    ensures w.s.primary != a.s.primary ==> w.s.primary == ss.candidate < |w.s.insts| && w.s.primary !in a.errantList
    ensures w.s.primary != a.s.primary ==>
              forall g :: |ReceivedElsewhere(a.s, g, a.s.primary)| >= Half(a.s) ==> g in w.s.insts[w.s.primary].executed
  {
    hide Inv, Legal, Replay, LabelsOk, ConnectionsOk, Keeps, PodsKept, Candidate, Stopped, Rechecked, SemiReady,
      ReadFrom;
    FailedHasNoPrimarySet(ss.seen);
    IsFailedPicture(ss.seen);
    StoppedShape(w.s, ss.seen, |ss.seen.status|);
    ghost var goal := D.Gtids(candidates[t]);
    TopIsCandidate(a.s, w.s, ss.seen, candidates, t);
    TopShape(candidates, t);
    UnlistedCandidate(a.s, w.s, a, ss, candidates, t);
    ss.candidate := t;
    ghost var b := w.Now();
    RecheckedShape(a.s, w.s, ss.seen, candidates, |ss.seen.status|);
    ok := WaitForGTID(w, t, candidates[t].value.replica.value.retrieved);
    UndisturbedTransitive(a, b, w.Now());
    UndisturbedContinues(a, w.Now());
    if !ok {
      return;
    }
    ghost var c := w.Now();
    CaughtUp(a.s, b.s, c.s, ss.seen, candidates, t);
    CandidateKeptOn(b.s, c.s, t, goal);
    ok := RecordPrimary(w, t, goal);
    NothingLost(a.s, b.s, ss.seen, candidates, t, w.s.insts[t].executed);
    ContinuesTransitive(a, c, w.Now());
  }

  lemma NothingLost(a: State, s: State, p: Picture, candidates: seq<Option<D.Status>>, t: nat, done: set<Gtid>)
    requires WellFormed(p) && MeansFailed(p) && |a.insts| == p.spec.replicas
    requires Rechecked(a, s, p, candidates, |p.status|) && D.IsTop(candidates, |candidates|, t)
    requires D.Gtids(candidates[t]) <= done
    ensures forall g :: |ReceivedElsewhere(a, g, p.primary)| >= Half(a) ==> g in done
  {
    hide Reflects, Frozen, LostData, MeansFailed;
    forall i: nat | i < |candidates| && Usable(p, i) ensures a.insts[i].Received() <= D.Gtids(candidates[i]) {
      assert LookedAt(a, s, i, candidates[i].value);
    }
    LossLess(a, p, candidates, t, done);
  }

  lemma IsFailedPicture(p: Picture)
    requires WellFormed(p) && Classify(p) == Failed
    ensures MeansFailed(p)
  {
  }

  lemma RecheckedShape(a: State, s: State, p: Picture, candidates: seq<Option<D.Status>>, n: nat)
    requires Rechecked(a, s, p, candidates, n)
    ensures |candidates| == |p.status| == |s.insts| == |a.insts|
  {
  }

  lemma ContinuesTransitive(a: Moment, b: Moment, c: Moment)
    requires Continues(a, b) && Continues(b, c)
    ensures Continues(a, c)
  {
    forall i: nat | i < |a.pods| ensures PodKept(a, c, i) {
      assert PodKept(a, b, i) && PodKept(b, c, i);
    }
  }
}
