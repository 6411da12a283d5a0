/** Configure: bring servers and labels to what the recorded primary asks for. */
module Configure {
  import opened Basics
  import opened Replication
  import opened ReplicationSafety
  import opened Runs
  import opened Status
  import opened World
  import opened Statements
  import opened Gather
  import opened Labels
  import D = Dbop

  // ----- the statements a gathered picture asks for -----

  predicate IoRunning(st: D.Status) { st.replica.Some? && st.replica.value.io == D.IoYes }

  /** The IO thread is started and has no connection. */
  predicate Connecting(st: D.Status) { st.replica.Some? && st.replica.value.io == D.IoConnecting }

  function StopPlan(seen: Picture): seq<Event>
    requires seen.primary < |seen.status| && seen.status[seen.primary].Some?
  {
    if IoRunning(seen.status[seen.primary].value) then [StopIo(seen.primary)] else []
  }

  function SemiPlan(seen: Picture): seq<Event>
    requires seen.primary < |seen.status| && seen.status[seen.primary].Some?
  {
    var pst := seen.status[seen.primary].value;
    if seen.spec.replicas == 1 || (pst.semiSource && pst.waitCount == seen.spec.replicas / 2) then []
    else PrimaryStatements(seen.primary, seen.spec.replicas / 2)
  }

  /** The server outside that an intermediate primary is to follow. */
  function ExternalSource(seen: Picture): nat { |seen.status| + seen.spec.sourceHost }

  predicate NeedsExternal(seen: Picture, pst: D.Status) {
    !IoRunning(pst) || pst.replica.value.sourceHost != D.ExternalHost(seen.spec.sourceHost)
  }

  /** An intermediate primary is closed for writes and follows the server outside, without semi-sync. */
  function IntermediatePlan(seen: Picture): seq<Event>
    requires seen.primary < |seen.status| && seen.status[seen.primary].Some?
  {
    var pst := seen.status[seen.primary].value;
    (if pst.superReadOnly then [] else [Event.SetSuperReadOnly(seen.primary)]) +
    (if NeedsExternal(seen, pst) then ReplicaStatements(seen.primary, ExternalSource(seen), false) else [])
  }

  /**
   Without a replication source, between the two parts the manager waits until the primary has executed its relay
   log.
   */
  function PrimaryPlan(seen: Picture): seq<Event>
    requires seen.primary < |seen.status| && seen.status[seen.primary].Some?
  {
    if seen.spec.external then IntermediatePlan(seen) else StopPlan(seen) + SemiPlan(seen)
  }

  predicate NeedsClone(seen: Picture, st: D.Status) {
    st.executed == {} && seen.executed != {} && st.replica.None?
  }

  predicate NeedsSource(seen: Picture, st: D.Status) {
    !IoRunning(st) || st.replica.value.sourceHost != D.PodHost(seen.primary) || st.semiReplica == seen.spec.external
  }

  function ReplicaPlan(seen: Picture, i: nat): seq<Event>
    requires i < |seen.status|
  {
    if i == seen.primary || seen.status[i].None? then []
    else
      var st := seen.status[i].value;
      if st.isErrant then (if IoRunning(st) then [StopIo(i)] else [])
      else
        (if st.superReadOnly then [] else [Event.SetSuperReadOnly(i)]) +
        (if NeedsClone(seen, st) then [CloneFromPrimary(i)] else []) +
        (if NeedsSource(seen, st) then ReplicaStatements(i, seen.primary, !seen.spec.external) else [])
  }

  function ReplicaPlans(seen: Picture, n: nat): seq<Event>
    requires n <= |seen.status|
  {
    if n == 0 then [] else ReplicaPlans(seen, n - 1) + ReplicaPlan(seen, n - 1)
  }

  function WritePlan(seen: Picture): seq<Event>
    requires seen.primary < |seen.status| && seen.status[seen.primary].Some?
  {
    if !seen.spec.external && seen.status[seen.primary].value.readOnly then WritableStatements(seen.primary) else []
  }

  function Plan(seen: Picture): seq<Event>
    requires seen.primary < |seen.status| && seen.status[seen.primary].Some?
  {
    PrimaryPlan(seen) + ReplicaPlans(seen, |seen.status|) + WritePlan(seen)
  }

  predicate WaitsForRelayLog(seen: Picture)
    requires seen.primary < |seen.status| && seen.status[seen.primary].Some?
  {
    var pst := seen.status[seen.primary].value;
    !seen.spec.external && pst.replica.Some? && pst.replica.value.retrieved != {}
  }

  /**
   A configure sends nothing to replica i. An errant one must not show a running IO thread, but it may be started.
   */
  ghost predicate InPlace(seen: Picture, i: nat)
    requires i < |seen.status|
  {
    i == seen.primary || seen.status[i].None? ||
    (var st := seen.status[i].value;
     if st.isErrant then !IoRunning(st)
     else && st.superReadOnly && IoRunning(st) && st.replica.value.sourceHost == D.PodHost(seen.primary)
          && st.semiReplica == !seen.spec.external)
  }

  /**
   A configure sends nothing to the primary: it is open with semi-sync in order, or, with a replication source, closed
   and following that source.
   */
  ghost predicate PrimaryInPlace(seen: Picture)
    requires seen.primary < |seen.status| && seen.status[seen.primary].Some?
  {
    var pst := seen.status[seen.primary].value;
    if seen.spec.external then
      pst.superReadOnly && IoRunning(pst) && pst.replica.value.sourceHost == D.ExternalHost(seen.spec.sourceHost)
    else
      && !IoRunning(pst) && !pst.readOnly
      && (seen.spec.replicas == 1 || (pst.semiSource && pst.waitCount == seen.spec.replicas / 2))
  }

  /** What is sent to a reachable replica, in the fields of the picture. */
  lemma ReplicaPlanByFields(seen: Picture, i: nat)
    requires i < |seen.status| && i != seen.primary && seen.status[i].Some?
    ensures var st := seen.status[i].value;
            var running := st.replica.Some? && st.replica.value.io == D.IoYes;
            ReplicaPlan(seen, i) ==
              if st.isErrant then (if running then [StopIo(i)] else [])
              else
                (if st.superReadOnly then [] else [Event.SetSuperReadOnly(i)]) +
                (if st.executed == {} && seen.executed != {} && st.replica.None? then [CloneFromPrimary(i)] else []) +
                (if running && st.replica.value.sourceHost == D.PodHost(seen.primary)
                    && st.semiReplica == !seen.spec.external then []
                 else [StopIo(i), ChangeSource(i, seen.primary), SetSemiReplica(i, !seen.spec.external),
                       SemiSourceOff(i), StartReplica(i)])
  {
  }

  /** What is sent to the primary, in the fields of the picture. */
  lemma PrimaryPlanByFields(seen: Picture)
    requires seen.primary < |seen.status| && seen.status[seen.primary].Some?
    ensures var c, n, pst := seen.primary, seen.spec.replicas, seen.status[seen.primary].value;
            var running := pst.replica.Some? && pst.replica.value.io == D.IoYes;
            var host := |seen.status| + seen.spec.sourceHost;
            && PrimaryPlan(seen) ==
                 (if seen.spec.external then
                    (if pst.superReadOnly then [] else [Event.SetSuperReadOnly(c)]) +
                    (if running && pst.replica.value.sourceHost == D.ExternalHost(seen.spec.sourceHost) then []
                     else [StopIo(c), ChangeSource(c, host), SetSemiReplica(c, false), SemiSourceOff(c),
                           StartReplica(c)])
                  else
                    (if running then [StopIo(c)] else []) +
                    (if n == 1 || (pst.semiSource && pst.waitCount == n / 2) then []
                     else [SetWaitCount(c, n / 2), SemiSourceOn(c)]))
            && WritePlan(seen) == (if seen.spec.external || !pst.readOnly then []
                                   else [StopIo(c), ResetReplica(c), Event.SetReadWrite(c)])
            && (WaitsForRelayLog(seen) <==>
                !seen.spec.external && pst.replica.Some? && pst.replica.value.retrieved != {})
  {
  }

  lemma NoReplicaPlan(seen: Picture, i: nat)
    requires i < |seen.status|
    ensures ReplicaPlan(seen, i) == [] <==> InPlace(seen, i)
  {
  }

  lemma {:induction false} NoReplicaPlans(seen: Picture, n: nat)
    requires n <= |seen.status|
    ensures ReplicaPlans(seen, n) == [] <==> forall i: nat :: i < n ==> InPlace(seen, i)
  {
    hide ReplicaPlan, InPlace;
    if n > 0 {
      NoReplicaPlans(seen, n - 1);
      NoReplicaPlan(seen, n - 1);
    }
  }

  lemma NoPrimaryPlan(seen: Picture)
    requires seen.primary < |seen.status| && seen.status[seen.primary].Some?
    ensures PrimaryPlan(seen) == [] && WritePlan(seen) == [] <==> PrimaryInPlace(seen)
  {
  }

  /**
   There is nothing to send exactly when every reachable replica that is not errant replicates from the primary in the
   right semi-sync mode, no errant one shows a running IO thread, and the primary is in place.
   */
  lemma NothingToSend(seen: Picture)
    requires WellFormed(seen) && seen.status[seen.primary].Some?
    ensures Plan(seen) == [] <==> PrimaryInPlace(seen) && forall i: nat :: i < |seen.status| ==> InPlace(seen, i)
  {
    hide PrimaryPlan, ReplicaPlans, WritePlan, InPlace, PrimaryInPlace;
    NoReplicaPlans(seen, |seen.status|);
    NoPrimaryPlan(seen);
  }

  // ----- the primary -----

  /** The primary may be opened for writes, as far as its replication channel and semi-sync are concerned. */
  ghost predicate Prepared(s: State, pst: D.Status) {
    && s.primary < |s.insts| && SemiReady(s)
    && Settled(s, s.primary, Shown(pst)) && Shown(pst) <= s.insts[s.primary].executed
  }

  lemma PreparedKept(a: State, b: State, pst: D.Status, ks: set<nat>)
    requires Prepared(a, pst) && ServersKept(a, b, ks)
    ensures Prepared(b, pst)
  {
    hide Settled, SemiReady;
  }

  lemma DrainedPrimary(s: State, pst: D.Status)
    requires s.primary < |s.insts| && Reflects(s, s.primary, pst)
    requires pst.replica.Some? ==> pst.replica.value.retrieved <= s.insts[s.primary].executed
    ensures Shown(pst) <= s.insts[s.primary].executed
  {
  }

  /** The first half of configurePrimary: stop receiving and execute everything retrieved. */
  method DrainPrimary(w: World, pst: D.Status) returns (ok: bool, redo: bool)
    requires w.Valid() && w.pinned && Reflects(w.s, w.s.primary, pst) && ReadPrimary(w.s, pst)
    modifies w
    ensures old(w.faults) <= w.faults && (!ok ==> old(w.faults) < w.faults)
    ensures w.Valid() && Undisturbed(old(w.Now()), w.Now()) && ReadPrimary(w.s, pst)
    ensures ok ==> w.s.primary < |w.s.insts| && Shown(pst) <= w.s.insts[w.s.primary].executed
    ensures redo <==> IoRunning(pst) || (ok && pst.replica.Some? && pst.replica.value.retrieved != {})
    ensures Sends(old(w.sent), if IoRunning(pst) then [StopIo(old(w.s).primary)] else [], w.sent, ok || !IoRunning(pst))
  {
    hide Inv, Legal, Replay, LabelsOk, ConnectionsOk, ErrantsOk, Keeps, PodsKept, Settled, SemiReady, Reflects,
      ReadPrimary;
    InvPrimary(w.s);
    ghost var a := w.Now();
    UndisturbedReflexive(a);
    var p := w.s.primary;
    redo, ok := false, true;
    if IoRunning(pst) {
      redo := true;
      ok := StopReplicaIOThread(w, p);
      ReadPrimaryKept(a, w.Now(), pst);
      if !ok {
        return;
      }
    }
    ReflectsKept(a.s, w.s, p, pst);
    SizeKept(a.s, w.s);
    if pst.replica.Some? && pst.replica.value.retrieved != {} {
      ghost var b := w.Now();
      ok := WaitForGTID(w, p, pst.replica.value.retrieved);
      UndisturbedTransitive(a, b, w.Now());
      ReadPrimaryKept(a, w.Now(), pst);
      if !ok {
        return;
      }
      redo := true;
      ReflectsKept(a.s, w.s, p, pst);
      SizeKept(a.s, w.s);
    }
    DrainedPrimary(w.s, pst);
  }

  method ConfigurePrimaryRole(w: World, ss: StatusSet) returns (ok: bool, redo: bool)
    requires w.Valid() && w.pinned && Current(w.Now(), ss) && ss.seen.spec.replicas == |w.s.insts|
    requires ss.seen.status[ss.seen.primary].Some? && !ss.seen.spec.external
    modifies w
    ensures old(w.faults) <= w.faults && (!ok ==> old(w.faults) < w.faults)
    ensures w.Valid() && Reconfigured(old(w.Now()), w.Now(), {old(w.s).primary})
    ensures ok ==> Prepared(w.s, ss.seen.status[ss.seen.primary].value)
    ensures ok ==> (redo <==> PrimaryPlan(ss.seen) != [] || WaitsForRelayLog(ss.seen))
    ensures Sends(old(w.sent), PrimaryPlan(ss.seen), w.sent, ok)
  {
    hide Inv, Legal, Replay, LabelsOk, ConnectionsOk, ErrantsOk, Keeps, PodsKept, Settled, ReadFrom, Reflects,
      ReadOne, ServersKept,
      ErrantsMatch, IsQuiet;
    ghost var a := w.Now();
    var pst := ss.seen.status[ss.seen.primary].value;
    PrimaryRead(a, ss);
    InvPrimary(w.s);
    var p := w.s.primary;
    ok, redo := DrainPrimary(w, pst);
    ghost var b := w.Now();
    ghost var drained := w.sent;
    ghost var first := if IoRunning(pst) then [StopIo(p)] else [];
    UndisturbedReconfigures(a, b);
    KeptMore(a.s, b.s, {}, {p});
    SizeKept(a.s, b.s);
    if !ok {
      SendsPart(old(w.sent), first, w.sent, PrimaryPlan(ss.seen)[|first|..]);
      return;
    }
    if ss.seen.spec.replicas == 1 || (pst.semiSource && pst.waitCount == ss.seen.spec.replicas / 2) {
      return;
    }
    redo := true;
    ok := ConfigurePrimary(w);
    SendsMore(old(w.sent), first, drained, PrimaryStatements(p, ss.seen.spec.replicas / 2), w.sent, ok);
    Chain(a, b, w.Now(), {p});
    if ok {
      DrainedStays(b.s, w.s, pst, {p});
    }
  }

  lemma PrimaryRead(m: Moment, ss: StatusSet)
    requires Current(m, ss) && ss.seen.status[ss.seen.primary].Some?
    ensures m.s.primary == ss.seen.primary < |m.s.insts|
    ensures Reflects(m.s, m.s.primary, ss.seen.status[ss.seen.primary].value)
    ensures ReadPrimary(m.s, ss.seen.status[ss.seen.primary].value)
  {
    assert ReadOne(m.s, m.s.primary, ss.seen.status[ss.seen.primary].value);
  }

  lemma DrainedStays(a: State, b: State, pst: D.Status, ks: set<nat>)
    requires ServersKept(a, b, ks) && ReadPrimary(a, pst) && Shown(pst) <= a.insts[a.primary].executed && SemiReady(b)
    ensures Prepared(b, pst)
  {
    hide Settled, SemiReady;
  }

  // ----- a replica -----

  /** A reachable replica that is not errant lacks transactions that the primary has purged. */
  ghost predicate LacksLogs(seen: Picture, i: nat)
    requires i < |seen.status| && seen.primary < |seen.status| && seen.status[seen.primary].Some?
  {
    && i != seen.primary && seen.status[i].Some? && !seen.status[i].value.isErrant
    && seen.status[seen.primary].value.purged - seen.status[i].value.executed != {}
  }

  /** What is still known of replica i when its turn comes. */
  ghost predicate KnownReplica(s: State, i: nat, st: D.Status) {
    i < |s.insts| && (st.superReadOnly ==> s.insts[i].superReadOnly) && (st.replica.None? ==> s.insts[i].source == None)
  }

  lemma KnownKept(a: State, b: State, i: nat, st: D.Status, ks: set<nat>)
    requires KnownReplica(a, i, st) && ServersKept(a, b, ks) && i !in ks
    ensures KnownReplica(b, i, st)
  {
  }

  /** Makes sure that replica i is super-read-only. */
  method CloseReplica(w: World, i: nat, st: D.Status) returns (ok: bool)
    requires w.Valid() && w.pinned && KnownReplica(w.s, i, st)
    modifies w
    ensures old(w.faults) <= w.faults && (!ok ==> old(w.faults) < w.faults)
    ensures w.Valid() && Reconfigured(old(w.Now()), w.Now(), {})
    ensures KnownReplica(w.s, i, st)
    ensures ok ==> w.s.insts[i].superReadOnly
    ensures Sends(old(w.sent), if st.superReadOnly then [] else [Event.SetSuperReadOnly(i)], w.sent, ok)
    // sessions that would hold up the statement are killed before
    ensures w.kills == old(w.kills) + if st.superReadOnly then [] else [i]
  {
    hide Inv, Legal, Replay, LabelsOk, ConnectionsOk, ErrantsOk, Keeps, PodsKept, SemiReady, ServersKept;
    ghost var a := w.Now();
    InvPrimary(w.s);
    UndisturbedReflexive(a);
    if st.superReadOnly {
      UndisturbedReconfigures(a, a);
      return true;
    }
    ok := KillConnections(w, i);
    ghost var b := w.Now();
    SizeKept(a.s, b.s);
    if ok {
      ok := SetReadOnly(w, i);
      UndisturbedTransitive(a, b, w.Now());
    }
    UndisturbedReconfigures(a, w.Now());
    KnownKept(a.s, w.s, i, st, {});
  }

  method ConfigureReplicaRole(w: World, ss: StatusSet, i: nat) returns (ok: bool, redo: bool)
    requires w.Valid() && w.pinned && WellFormed(ss.seen) && ss.seen.primary == w.s.primary
    requires i < |ss.seen.status| && i != ss.seen.primary && ss.seen.status[i].Some?
    requires ss.seen.status[ss.seen.primary].Some?
    requires KnownReplica(w.s, i, ss.seen.status[i].value)
    modifies w
    ensures old(w.faults) <= w.faults && (!ok ==> old(w.faults) < w.faults || LacksLogs(ss.seen, i))
    ensures w.Valid() && Reconfigured(old(w.Now()), w.Now(), {i})
    ensures ok ==> (redo <==> ReplicaPlan(ss.seen, i) != [])
    ensures Sends(old(w.sent), ReplicaPlan(ss.seen, i), w.sent, ok)
    ensures ok && !ss.seen.status[i].value.isErrant ==> w.s.insts[i].superReadOnly
    ensures ok ==> || ss.seen.status[i].value.isErrant
                   || ss.seen.status[ss.seen.primary].value.purged - ss.seen.status[i].value.executed == {}
  {
    hide Inv, Legal, Replay, LabelsOk, ConnectionsOk, ErrantsOk, Keeps, PodsKept, SemiReady, ServersKept;
    ghost var a := w.Now();
    InvPrimary(w.s);
    UndisturbedReflexive(a);
    UndisturbedReconfigures(a, a);
    KeptMore(a.s, a.s, {}, {i});
    var st := ss.seen.status[i].value;
    redo := false;
    if st.isErrant {
      if !IoRunning(st) {
        return true, false;
      }
      ok := StopReplicaIOThread(w, i);
      UndisturbedReconfigures(a, w.Now());
      KeptMore(a.s, w.s, {}, {i});
      return ok, true;
    }
    ok := CloseReplica(w, i, st);
    KeptMore(a.s, w.s, {}, {i});
    ghost var es := if st.superReadOnly then [] else [Event.SetSuperReadOnly(i)];
    if !ok {
      SendsPart(old(w.sent), es, w.sent, ReplicaPlan(ss.seen, i)[|es|..]);
      return;
    }
    ghost var b := w.Now();
    ghost var closed := w.sent;
    ReconfiguredFrame(a, b, {i});
    ok, redo := AttachReplica(w, ss, i);
    SendsMore(old(w.sent), es, closed, AttachPlan(ss.seen, i), w.sent, ok);
    PlanSplits(ss.seen, i);
    Chain(a, b, w.Now(), {i});
    redo := redo || !st.superReadOnly;
  }

  function AttachPlan(seen: Picture, i: nat): seq<Event>
    requires i < |seen.status| && seen.status[i].Some?
  {
    (if NeedsClone(seen, seen.status[i].value) then [CloneFromPrimary(i)] else []) +
    (if NeedsSource(seen, seen.status[i].value) then ReplicaStatements(i, seen.primary, !seen.spec.external) else [])
  }

  lemma PlanSplits(seen: Picture, i: nat)
    requires i < |seen.status| && i != seen.primary && seen.status[i].Some? && !seen.status[i].value.isErrant
    ensures ReplicaPlan(seen, i) ==
              (if seen.status[i].value.superReadOnly then [] else [Event.SetSuperReadOnly(i)]) + AttachPlan(seen, i)
  {
  }

  /** Clones an empty replica, and points it at the primary unless binary logs that it needs are gone. */
  method AttachReplica(w: World, ss: StatusSet, i: nat) returns (ok: bool, redo: bool)
    requires w.Valid() && w.pinned && WellFormed(ss.seen) && ss.seen.primary == w.s.primary
    requires i < |ss.seen.status| && i != ss.seen.primary && ss.seen.status[i].Some?
    requires ss.seen.status[ss.seen.primary].Some?
    requires KnownReplica(w.s, i, ss.seen.status[i].value) && w.s.insts[i].superReadOnly
    requires !ss.seen.status[i].value.isErrant
    modifies w
    ensures old(w.faults) <= w.faults && (!ok ==> old(w.faults) < w.faults || LacksLogs(ss.seen, i))
    ensures w.Valid() && Reconfigured(old(w.Now()), w.Now(), {i})
    ensures ok ==> w.s.insts[i].superReadOnly
    ensures ok ==> (redo <==> AttachPlan(ss.seen, i) != [])
    ensures Sends(old(w.sent), AttachPlan(ss.seen, i), w.sent, ok)
    // a replica that lacks what the primary has purged is not repointed
    ensures ss.seen.status[ss.seen.primary].value.purged - ss.seen.status[i].value.executed != {} ==>
              !ok && (w.sent == old(w.sent) || w.sent == old(w.sent) + [CloneFromPrimary(i)])
  {
    hide Inv, Legal, Replay, LabelsOk, ConnectionsOk, ErrantsOk, Keeps, PodsKept, SemiReady, ServersKept, Reconfigured;
    ghost var a := w.Now();
    InvPrimary(w.s);
    UndisturbedReflexive(a);
    UndisturbedReconfigures(a, a);
    ReconfiguredMore(a, a, {}, {i});
    var st := ss.seen.status[i].value;
    redo := false;
    if NeedsClone(ss.seen, st) {
      redo := true;
      var addressed := w.Answered();
      if !addressed {
        return false, redo;
      }
      ok := CloneInstance(w, i);
      if !ok {
        SendsPart(old(w.sent), [CloneFromPrimary(i)], w.sent, AttachPlan(ss.seen, i)[1..]);
        return;
      }
    }
    ghost var b := w.Now();
    ghost var cloned := w.sent;
    var answered := w.Answered();
    if !answered || ss.seen.status[ss.seen.primary].value.purged - st.executed != {} {
      return false, redo;
    }
    ok := true;
    if NeedsSource(ss.seen, st) {
      redo := true;
      ok := ConfigureReplica(w, i, !ss.seen.spec.external);
      SendsMore(old(w.sent), if NeedsClone(ss.seen, st) then [CloneFromPrimary(i)] else [], cloned,
                ReplicaStatements(i, ss.seen.primary, !ss.seen.spec.external), w.sent, ok);
      Chain(a, b, w.Now(), {i});
    }
  }

  lemma ReconfiguredMore(a: Moment, b: Moment, ks: set<nat>, ls: set<nat>)
    requires Reconfigured(a, b, ks) && ks <= ls
    ensures Reconfigured(a, b, ls)
  {
    hide SemiReady, Settled;
  }

  // ----- the whole -----

  /** The replicas whose turn has not come yet are as they were read. */
  ghost predicate Waiting(s: State, seen: Picture, n: nat) {
    && |s.insts| == |seen.status| && s.primary == seen.primary
    && forall i: nat :: n <= i < |seen.status| && i != seen.primary && seen.status[i].Some? ==>
         KnownReplica(s, i, seen.status[i].value)
  }

  lemma WaitingAtFirst(m: Moment, ss: StatusSet)
    requires Current(m, ss)
    ensures Waiting(m.s, ss.seen, 0)
  {
    hide IsQuiet, Settled, SemiReady;
    forall i: nat | i < |ss.seen.status| && i != ss.seen.primary && ss.seen.status[i].Some?
      ensures KnownReplica(m.s, i, ss.seen.status[i].value)
    {
      assert ReadOne(m.s, i, ss.seen.status[i].value);
    }
  }

  lemma WaitingKept(a: State, b: State, seen: Picture, n: nat, ks: set<nat>)
    requires Waiting(a, seen, n) && ServersKept(a, b, ks)
    requires forall k :: k in ks ==> k < n || k == seen.primary
    ensures Waiting(b, seen, n)
  {
    hide SemiReady, Settled;
  }

  method ConfigureReplicas(w: World, ss: StatusSet) returns (ok: bool, redo: bool)
    requires w.Valid() && w.pinned && WellFormed(ss.seen) && Waiting(w.s, ss.seen, 0)
    requires ss.seen.status[ss.seen.primary].Some? && Prepared(w.s, ss.seen.status[ss.seen.primary].value)
    modifies w
    // without a fault it fails only if the primary has purged what some replica lacks
    ensures old(w.faults) <= w.faults
    ensures !ok ==> old(w.faults) < w.faults || exists i: nat :: i < |ss.seen.status| && LacksLogs(ss.seen, i)
    ensures w.Valid() && w.pinned && Prepared(w.s, ss.seen.status[ss.seen.primary].value)
    ensures Onward(old(w.Now()), w.Now())
    ensures Sends(old(w.sent), ReplicaPlans(ss.seen, |ss.seen.status|), w.sent, ok)
    ensures ok ==> (redo <==> ReplicaPlans(ss.seen, |ss.seen.status|) != [])
  {
    hide Inv, Legal, Replay, LabelsOk, ConnectionsOk, ErrantsOk, PodsKept, ServersKept, Prepared, ReplicaPlan, Onward,
      KnownReplica, Sends, ReplicaPlans, Reconfigured;
    NoPlans(ss.seen, w.sent);
    ghost var a := w.Now();
    ghost var pst := ss.seen.status[ss.seen.primary].value;
    UndisturbedReflexive(a);
    UndisturbedOnward(a, a);
    redo := false;
    for i := 0 to |ss.seen.status|
      invariant w.Valid() && w.pinned && Prepared(w.s, pst) && Waiting(w.s, ss.seen, i) && Onward(a, w.Now())
      invariant Sends(old(w.sent), ReplicaPlans(ss.seen, i), w.sent, true)
      invariant redo <==> ReplicaPlans(ss.seen, i) != []
      invariant old(w.faults) <= w.faults
    {
      NextPlans(ss.seen, i);
      if i == ss.seen.primary || ss.seen.status[i].None? {
        NoPlan(ss.seen, i);
        continue;
      }
      ghost var before, sent := w.Now(), w.sent;
      var r;
      ok, r := ConfigureReplicaRole(w, ss, i);
      redo := redo || r;
      SendsMore(old(w.sent), ReplicaPlans(ss.seen, i), sent, ReplicaPlan(ss.seen, i), w.sent, ok);
      TurnTaken(a, before, w.Now(), ss.seen, i, pst);
      if !ok {
        PlansPrefix(ss.seen, i + 1, |ss.seen.status|);
        SendsLonger(old(w.sent), ReplicaPlans(ss.seen, i + 1), w.sent, ReplicaPlans(ss.seen, |ss.seen.status|));
        return;
      }
    }
    ok := true;
  }

  lemma NoPlans(seen: Picture, sent: seq<Event>)
    ensures ReplicaPlans(seen, 0) == [] && Sends(sent, ReplicaPlans(seen, 0), sent, true)
  {
  }

  lemma NextPlans(seen: Picture, i: nat)
    requires i < |seen.status|
    ensures ReplicaPlans(seen, i + 1) == ReplicaPlans(seen, i) + ReplicaPlan(seen, i)
    ensures ReplicaPlan(seen, i) == [] ==> ReplicaPlans(seen, i + 1) == ReplicaPlans(seen, i)
  {
  }

  lemma NoPlan(seen: Picture, i: nat)
    requires i < |seen.status| && (i == seen.primary || seen.status[i].None?)
    ensures ReplicaPlan(seen, i) == []
  {
  }

  lemma SendsLonger(a: seq<Event>, es: seq<Event>, b: seq<Event>, fs: seq<Event>)
    requires Sends(a, es, b, false) && es <= fs
    ensures Sends(a, fs, b, false)
  {
    assert fs == es + fs[|es|..];
    SendsPart(a, es, b, fs[|es|..]);
  }

  lemma {:induction false} PlansPrefix(seen: Picture, m: nat, n: nat)
    requires m <= n <= |seen.status|
    ensures ReplicaPlans(seen, m) <= ReplicaPlans(seen, n)
  {
    hide ReplicaPlan;
    if m < n {
      PlansPrefix(seen, m, n - 1);
    }
  }

  lemma TurnTaken(a: Moment, b: Moment, c: Moment, seen: Picture, i: nat, pst: D.Status)
    requires Onward(a, b) && Reconfigured(b, c, {i}) && Waiting(b.s, seen, i) && Prepared(b.s, pst) && i < |seen.status|
    ensures Onward(a, c) && Waiting(c.s, seen, i + 1) && Prepared(c.s, pst) && c.pinned
  {
    hide Settled, SemiReady, KnownReplica, Prepared, PodsKept;
    assert Onward(b, c);
    OnwardStep(a, b, c);
    assert Waiting(b.s, seen, i + 1);
    WaitingKept(b.s, c.s, seen, i + 1, {i});
    PreparedKept(b.s, c.s, pst, {i});
  }

  /** The same cluster and the same primary, whatever happened to labels and servers. */
  ghost predicate SameRound(a: Moment, b: Moment) {
    && |b.s.insts| == |a.s.insts| && b.s.primary == a.s.primary
    && b.start == a.start && a.log <= b.log && b.errantList == a.errantList
  }

  lemma DataKeptSameRound(a: Moment, b: Moment)
    requires DataKept(a, b)
    ensures SameRound(a, b) && b.pinned == a.pinned
  {
  }

  lemma OnwardSameRound(a: Moment, b: Moment, c: Moment)
    requires SameRound(a, b) && Onward(b, c)
    ensures SameRound(a, c)
  {
  }

  lemma CurrentKept(a: Moment, b: Moment, ss: StatusSet)
    requires DataKept(a, b) && a.pinned && Current(a, ss)
    ensures Current(b, ss)
  {
    hide ReadFrom, IsQuiet, ReadPrimary, Frozen, Candidate, Settled, SemiReady, InstanceKept;
    ReadFromKept(a.s, b.s, ss.seen.status);
    if ss.seen.status[ss.seen.primary].Some? {
      ReadPrimaryKept(a, b, ss.seen.status[ss.seen.primary].value);
    }
  }

  lemma PreparedData(a: Moment, b: Moment, pst: D.Status)
    requires DataKept(a, b) && a.pinned && Prepared(a.s, pst)
    ensures Prepared(b.s, pst)
  {
    hide Frozen, Candidate, Settled, SemiReady, IsQuiet;
    assert InstanceKept(a.s.insts[a.s.primary], b.s.insts[a.s.primary]);
  }

  /** The relabelled Pods whose instance can be reached and is not errant. */
  method AliveOnes(ss: StatusSet, noRoles: seq<nat>) returns (alive: seq<nat>)
    requires |ss.seen.status| == |ss.seen.pods|
    requires forall k :: 0 <= k < |noRoles| ==> noRoles[k] < |ss.seen.status|
    requires forall j, k :: 0 <= j < k < |noRoles| ==> noRoles[j] < noRoles[k]
    ensures forall k: nat :: k in alive <==>
              k in noRoles && ss.seen.status[k].Some? && !IsErrantReplica(ss.seen, ss.errants, k)
    ensures forall j, k :: 0 <= j < k < |alive| ==> alive[j] != alive[k]
  {
    hide IsErrantReplica;
    alive := [];
    for j := 0 to |noRoles|
      invariant forall k: nat :: k in alive <==>
                  k in noRoles[..j] && ss.seen.status[k].Some? && !IsErrantReplica(ss.seen, ss.errants, k)
      invariant forall x, y :: 0 <= x < y < |alive| ==> alive[x] != alive[y]
    {
      var i := noRoles[j];
      assert noRoles[..j + 1] == noRoles[..j] + [i];
      assert i !in noRoles[..j];
      if ss.seen.status[i].Some? && !IsErrantReplica(ss.seen, ss.errants, i) {
        alive := alive + [i];
      }
    }
    assert noRoles[..|noRoles|] == noRoles;
  }

  /** The label work before the servers are touched. */
  method DropRoles(w: World, ss: StatusSet) returns (ok: bool, noRoles: seq<nat>, alive: seq<nat>)
    requires w.Valid() && w.pinned && Current(w.Now(), ss) && RolesKnown(w.Now(), ss.seen, [])
    modifies w
    ensures old(w.faults) <= w.faults && (!ok ==> old(w.faults) < w.faults)
    ensures w.Valid() && w.pinned && SameRound(old(w.Now()), w.Now()) && Current(w.Now(), ss)
    ensures ok ==> && Unlabelled(ss.seen, ss.errants, noRoles, |ss.seen.pods|) && RolesKnown(w.Now(), ss.seen, noRoles)
                   && Cleared(w.Now(), alive, |alive|)
                   && (forall j, k :: 0 <= j < k < |alive| ==> alive[j] != alive[k])
                   && (forall k: nat :: k in alive <==>
                         && k in noRoles && k < |ss.seen.status| && ss.seen.status[k].Some?
                         && !IsErrantReplica(ss.seen, ss.errants, k))
    ensures w.sent == old(w.sent)
  {
    hide Inv, Legal, Replay, LabelsOk, ConnectionsOk, ErrantsOk, PodsKept, RolesKnown, Cleared, DataKept, Unlabelled,
      ReadFrom,
      ReadPrimary, IsErrantReplica, IsQuiet, SameRound;
    ghost var a := w.Now();
    alive := [];
    ok, noRoles := RemoveRoleLabels(w, ss);
    ghost var b := w.Now();
    DataKeptSameRound(a, b);
    CurrentKept(a, b, ss);
    if !ok {
      return;
    }
    UnlabelledShape(b, ss.seen, ss.errants, noRoles);
    alive := AliveOnes(ss, noRoles);
    assert forall j :: 0 <= j < |alive| ==> alive[j] in alive;
    ok := KillAll(w, alive, ss.seen, noRoles);
    DataKeptTransitive(a, b, w.Now());
    DataKeptSameRound(a, w.Now());
    CurrentKept(b, w.Now(), ss);
  }

  lemma UnlabelledShape(m: Moment, seen: Picture, errants: seq<nat>, noRoles: seq<nat>)
    requires Unlabelled(seen, errants, noRoles, |seen.pods|) && RolesKnown(m, seen, noRoles)
    ensures |m.pods| == |seen.pods|
    ensures forall k :: 0 <= k < |noRoles| ==> noRoles[k] < |seen.pods|
    ensures forall j, k :: 0 <= j < k < |noRoles| ==> noRoles[j] < noRoles[k]
  {
    assert forall k :: 0 <= k < |noRoles| ==> noRoles[k] in noRoles;
  }

  /** Opens the primary for writes if it was seen read-only. */
  method OpenPrimary(w: World, ss: StatusSet) returns (ok: bool, redo: bool)
    requires w.Valid() && w.pinned && ss.seen.primary == w.s.primary
    requires ss.seen.primary < |ss.seen.status| && ss.seen.status[ss.seen.primary].Some? && !ss.seen.spec.external
    requires Prepared(w.s, ss.seen.status[ss.seen.primary].value)
    modifies w
    ensures old(w.faults) <= w.faults && (!ok ==> old(w.faults) < w.faults)
    ensures w.Valid() && Onward(old(w.Now()), w.Now())
    ensures redo <==> WritePlan(ss.seen) != []
    ensures Sends(old(w.sent), WritePlan(ss.seen), w.sent, ok)
  {
    hide Inv, Legal, Replay, LabelsOk, ConnectionsOk, ErrantsOk, PodsKept, Onward, Settled, SemiReady;
    UndisturbedReflexive(w.Now());
    UndisturbedOnward(w.Now(), w.Now());
    if !ss.seen.status[ss.seen.primary].value.readOnly {
      return true, false;
    }
    ok := ClearReadOnly(w, Shown(ss.seen.status[ss.seen.primary].value));
    redo := true;
  }

  method Configure(w: World, ss: StatusSet) returns (ok: bool, redo: bool)
    requires w.Valid() && w.pinned && Current(w.Now(), ss) && RolesKnown(w.Now(), ss.seen, [])
    requires ss.seen.spec.replicas == |w.s.insts| && !ss.seen.spec.external && ss.seen.status[ss.seen.primary].Some?
    modifies w
    // without a fault it fails only if the primary has purged what some replica lacks
    ensures old(w.faults) <= w.faults
    ensures !ok ==> old(w.faults) < w.faults || exists i: nat :: i < |ss.seen.status| && LacksLogs(ss.seen, i)
    ensures w.Valid() && SameRound(old(w.Now()), w.Now())
    // the statements sent are those that the picture asks for, in order, and all of them on success
    ensures Sends(old(w.sent), Plan(ss.seen), w.sent, ok)
    ensures ok ==> (redo <==> Plan(ss.seen) != [] || WaitsForRelayLog(ss.seen))
    // wrong labels are gone before the first statement, and the right ones in place before the primary is opened
    ensures w.sent != old(w.sent) ==> NoWrongRole(w.Now(), ss.seen, ss.errants)
    ensures |w.sent| > |old(w.sent)| + |PrimaryPlan(ss.seen) + ReplicaPlans(ss.seen, |ss.seen.status|)| ==>
              RolesInPlace(w.Now(), ss.seen, ss.errants)
    // errant Pods bear no role, every other reachable Pod exactly its own
    ensures ok ==> Labelled(w.Now(), ss.seen, ss.errants) && RolesInPlace(w.Now(), ss.seen, ss.errants)
    ensures ok ==> |w.pods| == |ss.seen.status| && ss.seen.primary < |w.pods|
    ensures ok ==> w.pods[ss.seen.primary].role == RolePrimary
                   || (w.pods[ss.seen.primary].role == Unset && ss.seen.primary in w.recreated)
    ensures ok ==> forall k: nat :: k < |w.pods| && k != ss.seen.primary && ss.seen.status[k].Some? ==>
              if k in ss.errants then w.pods[k].role == Unset
              else w.pods[k].role == RoleReplica || (w.pods[k].role == Unset && k in w.recreated)
  {
    hide Inv, Legal, Replay, LabelsOk, ConnectionsOk, ErrantsOk, PodsKept, RolesKnown, Cleared, Unlabelled, ReadFrom,
      Labelled, ReadPrimary, IsErrantReplica, IsQuiet, SameRound, Current, PrimaryPlan, ReplicaPlans, WritePlan, Onward,
      Prepared, Labelling, NoWrongRole, RolesInPlace;
    ghost var a, sent := w.Now(), w.sent;
    var noRoles, alive;
    PictureShape(a, ss);
    ok, noRoles, alive := DropRoles(w, ss);
    if !ok {
      return ok, false;
    }
    ghost var b := w.Now();
    PictureShape(b, ss);
    SameRoundPrimary(a, b);
    ok, redo := ConfigureServers(w, ss);
    ghost var c, sent' := w.Now(), w.sent;
    OnwardSameRound(a, b, c);
    OnwardNoWrongRole(b, c, ss.seen, ss.errants, noRoles);
    if !ok {
      SendsPart(sent, PrimaryPlan(ss.seen) + ReplicaPlans(ss.seen, |ss.seen.status|), w.sent, WritePlan(ss.seen));
      return;
    }
    RolesStay(b, c, ss.seen, ss.errants, noRoles, alive);
    ok := AddRoleLabels(w, ss, alive, noRoles);
    ghost var d := w.Now();
    LabelsAdded(a, c, d, ss.seen.status[ss.seen.primary].value);
    ghost var j: nat :| Labelling(d, ss.seen, noRoles, alive, j);
    NoneWhileLabelling(d, ss.seen, ss.errants, noRoles, alive, j);
    if !ok {
      SendsPart(sent, PrimaryPlan(ss.seen) + ReplicaPlans(ss.seen, |ss.seen.status|), w.sent, WritePlan(ss.seen));
      return;
    }
    var r;
    SameRoundPrimary(a, d);
    ok, r := OpenPrimary(w, ss);
    redo := redo || r;
    SendsMore(sent, PrimaryPlan(ss.seen) + ReplicaPlans(ss.seen, |ss.seen.status|), sent',
              WritePlan(ss.seen), w.sent, ok);
    OnwardSameRound(a, d, w.Now());
    FinallyLabelled(d, w.Now(), ss.seen, ss.errants, noRoles, alive);
    LabelledRoles(w.Now(), ss.seen, ss.errants);
    RolesByKind(w.Now(), ss.seen, ss.errants);
    CurrentFlags(a, ss);
  }

  lemma OnwardNoWrongRole(b: Moment, c: Moment, seen: Picture, errants: seq<nat>, noRoles: seq<nat>)
    requires Onward(b, c) && RolesKnown(b, seen, noRoles) && Unlabelled(seen, errants, noRoles, |seen.pods|)
    requires |seen.pods| == |seen.status|
    ensures NoWrongRole(c, seen, errants)
  {
    hide PodsKept, RolesKnown, Unlabelled, NoWrongRole;
    RolesKept(b, c, seen, noRoles);
    WrongRolesGone(c, seen, errants, noRoles);
  }

  lemma RolesByKind(m: Moment, seen: Picture, errants: seq<nat>)
    requires Labelled(m, seen, errants) && |seen.pods| == |seen.status|
    ensures |m.pods| == |seen.status| && NoWrongRole(m, seen, errants)
    ensures forall k: nat :: k < |m.pods| && seen.status[k].Some? && !seen.status[k].value.isErrant && k !in errants ==>
              || m.pods[k].role == (if k == seen.primary then RolePrimary else RoleReplica)
              || (m.pods[k].role == Unset && k in m.recreated)
    ensures forall k: nat :: k < |m.pods| && k in errants && k != seen.primary ==> m.pods[k].role == Unset
  {
  }

  /** In a gathered picture flags and list agree, and the primary is neither flagged nor listed. */
  lemma CurrentFlags(m: Moment, ss: StatusSet)
    requires Current(m, ss)
    ensures ss.seen.primary < |ss.seen.status| && ss.seen.primary !in ss.errants
    ensures forall k: nat :: k < |ss.seen.status| && ss.seen.status[k].Some? ==>
              (ss.seen.status[k].value.isErrant <==> k in ss.errants)
  {
    hide ReadFrom, IsQuiet, ReadPrimary;
  }

  /** The server work: the primary first, then every reachable replica. */
  method ConfigureServers(w: World, ss: StatusSet) returns (ok: bool, redo: bool)
    requires w.Valid() && w.pinned && Current(w.Now(), ss)
    requires ss.seen.primary < |ss.seen.status|
    requires ss.seen.spec.replicas == |w.s.insts| && ss.seen.status[ss.seen.primary].Some? && !ss.seen.spec.external
    modifies w
    // without a fault it fails only if the primary has purged what some replica lacks
    ensures old(w.faults) <= w.faults
    ensures !ok ==> old(w.faults) < w.faults || exists i: nat :: i < |ss.seen.status| && LacksLogs(ss.seen, i)
    ensures w.Valid() && w.pinned && Onward(old(w.Now()), w.Now())
    ensures ok ==> Prepared(w.s, ss.seen.status[ss.seen.primary].value)
    ensures Sends(old(w.sent), PrimaryPlan(ss.seen) + ReplicaPlans(ss.seen, |ss.seen.status|), w.sent, ok)
    ensures ok ==>
              (redo <==>
               PrimaryPlan(ss.seen) + ReplicaPlans(ss.seen, |ss.seen.status|) != [] || WaitsForRelayLog(ss.seen))
  {
    hide Inv, Legal, Replay, LabelsOk, ConnectionsOk, ErrantsOk, PodsKept, ReadFrom, ReadPrimary, IsQuiet,
      PrimaryPlan, ReplicaPlans,
      Prepared, Waiting, ServersKept;
    ghost var a, sent := w.Now(), w.sent;
    WaitingAtFirst(a, ss);
    ok, redo := ConfigurePrimaryRole(w, ss);
    ghost var b, sent' := w.Now(), w.sent;
    ReconfiguredOnward(a, b, {a.s.primary});
    if !ok {
      SendsPart(sent, PrimaryPlan(ss.seen), w.sent, ReplicaPlans(ss.seen, |ss.seen.status|));
      return;
    }
    WaitingKept(a.s, b.s, ss.seen, 0, {a.s.primary});
    var r;
    ok, r := ConfigureReplicas(w, ss);
    redo := redo || r;
    SendsMore(sent, PrimaryPlan(ss.seen), sent', ReplicaPlans(ss.seen, |ss.seen.status|), w.sent, ok);
    OnwardStep(a, b, w.Now());
  }

  lemma ReconfiguredOnward(a: Moment, b: Moment, ks: set<nat>)
    requires Reconfigured(a, b, ks)
    ensures Onward(a, b) && b.pinned
  {
  }

  lemma SameRoundPrimary(a: Moment, b: Moment)
    requires SameRound(a, b)
    ensures a.s.primary == b.s.primary && |a.s.insts| == |b.s.insts|
  {
  }

  lemma RolesStay(b: Moment, c: Moment, seen: Picture, errants: seq<nat>, noRoles: seq<nat>, alive: seq<nat>)
    requires Onward(b, c) && RolesKnown(b, seen, noRoles) && Unlabelled(seen, errants, noRoles, |seen.pods|)
    requires Cleared(b, alive, |alive|)
    ensures Labelling(c, seen, noRoles, alive, 0)
  {
    hide PodsKept, RolesKnown, Unlabelled, Cleared, Labelling;
    RolesKept(b, c, seen, noRoles);
    ClearedKept(b, c, alive, |alive|);
    LabellingStarts(c, seen, errants, noRoles, alive);
  }

  lemma LabelsAdded(a: Moment, c: Moment, d: Moment, pst: D.Status)
    requires SameRound(a, c) && DataKept(c, d) && c.pinned && Prepared(c.s, pst)
    ensures SameRound(a, d) && d.pinned && Prepared(d.s, pst)
  {
    hide Prepared;
    PreparedData(c, d, pst);
  }

  lemma FinallyLabelled(d: Moment, e: Moment, seen: Picture, errants: seq<nat>, noRoles: seq<nat>, alive: seq<nat>)
    requires Onward(d, e) && Labelling(d, seen, noRoles, alive, |alive|) && |seen.pods| == |seen.status|
    requires Unlabelled(seen, errants, noRoles, |seen.pods|)
    requires forall k: nat :: k in alive <==>
               k in noRoles && k < |seen.status| && seen.status[k].Some? && !IsErrantReplica(seen, errants, k)
    ensures Labelled(e, seen, errants)
  {
    hide PodsKept, Labelling, Labelled, IsErrantReplica, KeepsLabel;
    LabellingKept(d, e, seen, noRoles, alive, |alive|);
    AllLabelled(e, seen, errants, noRoles, alive);
  }
}
