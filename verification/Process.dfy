/** One round of the manager, and any number of them. */
module Process {
  import opened Replication
  import opened Runs
  import opened Status
  import opened World
  import opened Statements
  import opened Gather
  import opened Labels
  import opened Failover
  import opened Switchover
  import opened Configure
  import opened Basics
  import D = Dbop

  /** Persists the errant list.  It is unchanged whenever the primary cannot be compared with. */
  method UpdateStatus(w: World, ss: StatusSet) returns (ok: bool)
    requires w.Valid() && Current(w.Now(), ss)
    modifies w`errantList, w`faults
    ensures old(w.faults) <= w.faults && (!ok ==> old(w.faults) < w.faults)
    ensures w.Valid() && Current(w.Now(), ss)
    ensures w.errantList == old(w.errantList) || w.errantList == ss.errants
    ensures ok ==> w.errantList == ss.errants
    ensures ss.seen.executed == {} ==> w.errantList == old(w.errantList)
  {
    hide Inv, Legal, Replay, LabelsOk, ConnectionsOk, ViewOk, IsQuiet, ReadPrimary, ReadOne;
    ok := w.Answered();
    if !ok {
      return;
    }
    w.errantList := ss.errants;
    ok := w.Answered();
  }

  /** Nothing of the past is forgotten, and the cluster keeps its size. */
  ghost predicate Later(a: Moment, b: Moment) {
    |b.s.insts| == |a.s.insts| && b.start == a.start && a.log <= b.log
  }

  lemma RolesFromGather(a: Moment, b: Moment, pods: seq<Pod>, seen: Picture)
    requires exists m :: Undisturbed(a, m) && Undisturbed(m, b) && pods == m.pods
    requires seen.pods == pods
    ensures RolesKnown(b, seen, []) && Later(a, b) && DataKept(a, b)
  {
    hide Keeps, SemiReady;
    var m :| Undisturbed(a, m) && Undisturbed(m, b) && pods == m.pods;
    DataKeptTransitive(a, m, b);
    SizeKept(a.s, b.s);
    forall k: nat | k < |b.pods|
      ensures b.pods[k].role == pods[k].role || (b.pods[k].role == Unset && k in b.recreated)
    {
      assert PodKept(m, b, k);
    }
  }

  /** What a gather found, and the moment when it was done. */
  datatype Found = Found(seen: Picture, raw: seq<Option<D.Status>>, errants: seq<nat>, at: Moment)

  /** f was found by a gather that began at a: Pods and statuses are those of moments within it. */
  ghost predicate FoundSince(a: Moment, f: Found) {
    && WellFormed(f.seen) && f.seen.primary == a.s.primary && Undisturbed(a, f.at)
    && (exists m :: Undisturbed(a, m) && Undisturbed(m, f.at) && f.seen.pods == m.pods)
    && AllRead(a, f.at, f.raw)
    && Judged(f.raw, f.seen.primary, a.errantList, f.seen.status, f.errants)
  }

  /** The former primary p is closed, and the new one has executed all that it has executed. */
  ghost predicate HandedOver(s: State, p: nat) {
    && p < |s.insts| && s.primary < |s.insts| && s.insts[p].superReadOnly && !s.insts[p].io
    && s.insts[p].executed <= s.insts[s.primary].executed
  }

  /** The primary has executed whatever half of the instances other than p had received in s. */
  ghost predicate NothingLeftBehind(s: State, p: nat, s': State) {
    && s'.primary < |s'.insts|
    && forall g :: |ReceivedElsewhere(s, g, p)| >= Half(s) ==> g in s'.insts[s'.primary].executed
  }

  /** The primary's Pod is to be deleted or demoted, there is a proper target, and no replica lags behind the limit. */
  ghost predicate DueSwitch(f: Found)
    requires WellFormed(f.seen)
  {
    var c, limit := f.seen.primary, f.seen.spec.maxDelaySeconds;
    && Classify(f.seen) in {Healthy, Degraded} && SwitchTargets(f.seen) != {}
    && (f.seen.pods[c].deleting || f.seen.pods[c].demote)
    && (limit <= 0 || forall i: nat :: i < |f.raw| && i != c && f.raw[i].Some? && f.raw[i].value.replica.Some?
                                       && f.raw[i].value.replica.value.secondsBehind.Some? ==>
                        f.raw[i].value.replica.value.secondsBehind.value <= limit)
  }

  /** Two replicas other than the old primary c, neither of them listed, have received incomparable sets. */
  ghost predicate Torn(s: State, c: nat, errants: seq<nat>) {
    exists looked: seq<Option<D.Status>>, i: nat, j: nat ::
      && D.Incomparable(looked, i, j)
      && forall k: nat :: k < |looked| && looked[k].Some? ==>
           k != c && k !in errants && Reflects(s, k, looked[k].value)
  }

  /**
   What a round that found f did between the moments a and b, in which it sent from sent to sent'.
   faulty: some statement, query or patch has failed.
   */
  ghost predicate RoundDone(f: Found, a: Moment, sent: seq<Event>, b: Moment, sent': seq<Event>, ok: bool, redo: bool,
                            faulty: bool)
    requires WellFormed(f.seen)
  {
    var state := Classify(f.seen);
    // without a fault a round fails only if there is nobody to promote or to attach
    && (!ok ==> || faulty || (state == Failed && Torn(b.s, a.s.primary, f.errants))
                || (&& state in {Degraded, Incomplete} && !DueSwitch(f) && f.seen.status[f.seen.primary].Some?
                    && exists i: nat :: i < |f.seen.status| && LacksLogs(f.seen, i)))
    // the stored list is the gathered one, and the old one if the primary could not be compared with
    && (b.errantList == a.errantList || b.errantList == f.errants)
    && (ok ==> b.errantList == f.errants) && (f.seen.executed == {} ==> b.errantList == a.errantList)
    && (sent' != sent || b.s.primary != a.s.primary ==> b.errantList == f.errants)
    // a failover
    && (state == Failed && ok ==> b.s.primary != a.s.primary && b.s.primary !in f.errants && redo)
    && (state == Failed && b.s.primary != a.s.primary ==> NothingLeftBehind(f.at.s, a.s.primary, b.s))
    // a switchover, to the least proper target
    && (DueSwitch(f) && ok ==>
          && SwitchTarget(f.seen, b.s.primary) && redo
          && (forall i: nat :: SwitchTarget(f.seen, i) ==> b.s.primary <= i))
    && (DueSwitch(f) && b.s.primary != a.s.primary ==> HandedOver(b.s, a.s.primary))
    && (DueSwitch(f) && ok && a.s.primary < |f.seen.pods| && f.seen.pods[a.s.primary].demote ==>
          a.s.primary < |b.pods| && !b.pods[a.s.primary].demote)
    && (b.s.primary != a.s.primary ==> state == Failed || DueSwitch(f))
    // a configure
    && (state in {Degraded, Incomplete} && !DueSwitch(f) ==>
          && f.seen.status[f.seen.primary].Some? && Sends(sent, Plan(f.seen), sent', ok)
          && (ok ==> RolesInPlace(b, f.seen, f.errants))
          && (sent' != sent ==> NoWrongRole(b, f.seen, f.errants))
          && (|sent'| > |sent| + |Plan(f.seen)| - |WritePlan(f.seen)| ==> RolesInPlace(b, f.seen, f.errants))
          && (ok ==> (redo <==> Plan(f.seen) != [] || WaitsForRelayLog(f.seen))))
    // nothing
    && (state !in {Degraded, Incomplete, Failed} && !DueSwitch(f) ==> sent' == sent && !redo)
  }

  /**
   A round: gather, update the status, then exactly one of switchover, failover, configure or nothing.
   found: nothing if the gather failed.
   */
  method Do(w: World, spec: Spec, cloned: bool, restored: bool) returns (ok: bool, redo: bool,
            ghost found: Option<Found>)
    requires w.Valid() && spec.replicas == |w.s.insts| && !spec.external
    modifies w
    ensures w.Valid() && Later(old(w.Now()), w.Now())
    ensures found.None? ==>
              && !ok && !redo && w.s.primary == old(w.s).primary && w.sent == old(w.sent)
              && w.errantList == old(w.errantList) && old(w.faults) < w.faults
    ensures found.Some? ==>
              && FoundSince(old(w.Now()).(pinned := true), found.value) && WellFormed(found.value.seen)
              && found.value.seen.spec == spec && found.value.seen.cloned == cloned
              && found.value.seen.restored == restored
    ensures found.Some? ==>
              RoundDone(found.value, old(w.Now()), old(w.sent), w.Now(), w.sent, ok, redo, old(w.faults) < w.faults)
    // without a fault every instance was reached
    ensures found.Some? && (exists i :: 0 <= i < |found.value.raw| && found.value.raw[i].None?) ==>
              old(w.faults) < w.faults
    ensures old(w.faults) <= w.faults
  {
    hide Inv, Legal, Replay, LabelsOk, ConnectionsOk, ViewOk, ErrantsOk, Current, RolesKnown, Classify, SwitchTarget,
      DataKept, Undisturbed, Judged, SwitchTargets, RoundDone, DueSwitch, AllRead;
    w.pinned := true;
    ghost var a := w.Now();
    var ss, raw := GatherStatus(w, spec, cloned, restored);
    UndisturbedLater(a, w.Now());
    if ss == null {
      return false, false, None;
    }
    ghost var f := Found(ss.seen, raw, ss.errants, w.Now());
    found := Some(f);
    RolesFromGather(a, w.Now(), ss.seen.pods, ss.seen);
    ghost var b := w.Now();
    PictureShape(b, ss);
    DueIs(ss, f);
    ghost var faults := w.faults;
    ok, redo := Finish(w, ss, f);
    RoundFrom(f, old(w.Now()), b, old(w.sent), w.Now(), w.sent, ok, redo, faults < w.faults, old(w.faults) < w.faults);
  }

  lemma RoundFrom(f: Found, a: Moment, b: Moment, sent: seq<Event>, c: Moment, sent': seq<Event>, ok: bool, redo: bool,
                  later: bool, faulty: bool)
    requires WellFormed(f.seen) && RoundDone(f, b, sent, c, sent', ok, redo, later)
    requires b.s.primary == a.s.primary && (later ==> faulty)
    requires b.errantList == a.errantList || (b.errantList == f.errants && f.seen.executed != {})
    ensures RoundDone(f, a, sent, c, sent', ok, redo, faulty)
  {
    hide Classify, DueSwitch, SwitchTarget, Plan, RolesInPlace, WaitsForRelayLog, Sends, Torn, LacksLogs,
      HandedOver, NothingLeftBehind, NoWrongRole, WritePlan;
  }

  /** The round after the gather. */
  method Finish(w: World, ss: StatusSet, ghost f: Found) returns (ok: bool, redo: bool)
    requires w.Valid() && w.pinned && Current(w.Now(), ss) && RolesKnown(w.Now(), ss.seen, [])
    requires ss.seen.spec.replicas == |w.s.insts| && !ss.seen.spec.external
    requires WellFormed(ss.seen) && ss.seen.primary == w.s.primary && ss.state == Classify(ss.seen)
    requires ss.state in {Healthy, Degraded} && ss.needSwitch ==>
               SwitchTarget(ss.seen, ss.candidate) && forall i: nat :: SwitchTarget(ss.seen, i) ==> ss.candidate <= i
    requires f.seen == ss.seen && f.errants == ss.errants && f.at.s == w.s && (Switches(ss) <==> DueSwitch(f))
    modifies w, ss`candidate
    ensures w.Valid() && Later(old(w.Now()), w.Now())
    ensures RoundDone(f, old(w.Now()), old(w.sent), w.Now(), w.sent, ok, redo, old(w.faults) < w.faults)
    ensures old(w.faults) <= w.faults
  {
    hide Inv, Legal, Replay, LabelsOk, ConnectionsOk, ViewOk, ErrantsOk, Current, RolesKnown, Classify, SwitchTarget,
      DueSwitch, RoundDone;
    ghost var b := w.Now();
    ok := UpdateStatus(w, ss);
    RolesUnaffected(b, w.Now(), ss.seen);
    if !ok {
      NothingDone(f, b, w.Now(), w.sent);
      return false, false;
    }
    // the prevent-delete annotation is added or removed; a patch that fails ends the round
    ok := w.Answered();
    if !ok {
      NothingDone(f, b, w.Now(), w.sent);
      return false, false;
    }
    ghost var c, faults := w.Now(), w.faults;
    ok, redo := Dispatch(w, ss, f);
    RoundFrom(f, b, c, old(w.sent), w.Now(), w.sent, ok, redo, faults < w.faults, old(w.faults) < w.faults);
  }

  /** The dispatch does what was found to be due. */
  method Dispatch(w: World, ss: StatusSet, ghost f: Found) returns (ok: bool, redo: bool)
    requires w.Valid() && w.pinned && Current(w.Now(), ss) && RolesKnown(w.Now(), ss.seen, [])
    requires ss.seen.spec.replicas == |w.s.insts| && !ss.seen.spec.external && w.errantList == ss.errants
    requires WellFormed(ss.seen) && ss.seen.primary == w.s.primary && ss.state == Classify(ss.seen)
    requires ss.state in {Healthy, Degraded} && ss.needSwitch ==>
               SwitchTarget(ss.seen, ss.candidate) && forall i: nat :: SwitchTarget(ss.seen, i) ==> ss.candidate <= i
    requires f.seen == ss.seen && f.errants == ss.errants && f.at.s == w.s && (Switches(ss) <==> DueSwitch(f))
    modifies w, ss`candidate
    ensures w.Valid() && Later(old(w.Now()), w.Now())
    ensures RoundDone(f, old(w.Now()), old(w.sent), w.Now(), w.sent, ok, redo, old(w.faults) < w.faults)
    ensures old(w.faults) <= w.faults
  {
    hide Inv, Legal, Replay, LabelsOk, ConnectionsOk, ViewOk, ErrantsOk, Current, RolesKnown, Classify, SwitchTarget,
      DueSwitch, Plan, RolesInPlace, WaitsForRelayLog, Sends, Labelled, Torn, LacksLogs, HandedOver, NothingLeftBehind,
      NoWrongRole, WritePlan;
    ok, redo := Act(w, ss);
  }

  /** What the gathered status set asks for is what is due. */
  lemma DueIs(ss: StatusSet, f: Found)
    requires WellFormed(ss.seen) && ss.state == Classify(ss.seen) && f.seen == ss.seen
    requires ss.state in {Healthy, Degraded} ==>
              (ss.needSwitch <==> && SwitchTargets(ss.seen) != {}
                                  && (ss.seen.pods[ss.seen.primary].deleting || ss.seen.pods[ss.seen.primary].demote))
    requires ss.preventPodDeletion <==>
               && ss.seen.spec.maxDelaySeconds > 0
               && exists i: nat ::
                    && i < |f.raw| && i != ss.seen.primary && f.raw[i].Some? && f.raw[i].value.replica.Some?
                    && f.raw[i].value.replica.value.secondsBehind.Some?
                    && f.raw[i].value.replica.value.secondsBehind.value > ss.seen.spec.maxDelaySeconds
    ensures Switches(ss) <==> DueSwitch(f)
  {
    hide Classify, SwitchTargets;
  }

  /** A round that ends before the dispatch has sent no part of the plan. */
  lemma NothingSent(seen: Picture, sent: seq<Event>)
    requires WellFormed(seen)
    ensures Classify(seen) in {Degraded, Incomplete} ==>
              && seen.status[seen.primary].Some? && Sends(sent, Plan(seen), sent, false)
              && |WritePlan(seen)| <= |Plan(seen)|
  {
    hide Classify, PrimaryPlan, ReplicaPlans, WritePlan;
    if Classify(seen) in {Degraded, Incomplete} {
      PrimaryExists(seen);
    }
  }

  lemma NothingDone(f: Found, a: Moment, b: Moment, sent: seq<Event>)
    requires WellFormed(f.seen) && b == a.(errantList := b.errantList)
    requires b.errantList == f.errants || b.errantList == a.errantList
    requires f.seen.executed == {} ==> b.errantList == a.errantList
    ensures RoundDone(f, a, sent, b, sent, false, false, true)
  {
    hide Classify, DueSwitch, SwitchTarget, Plan, RolesInPlace, WaitsForRelayLog, Sends, Torn, LacksLogs,
      HandedOver, NothingLeftBehind, NoWrongRole, WritePlan;
    NothingSent(f.seen, sent);
  }

  lemma UndisturbedLater(a: Moment, b: Moment)
    requires Undisturbed(a, b)
    ensures Later(a, b) && b.pinned == a.pinned && b.s.primary == a.s.primary && b.errantList == a.errantList
  {
    SizeKept(a.s, b.s);
  }

  lemma RolesUnaffected(a: Moment, b: Moment, seen: Picture)
    requires RolesKnown(a, seen, []) && b == a.(errantList := b.errantList)
    ensures RolesKnown(b, seen, [])
  {
  }

  /** A switchover is due. */
  predicate Switches(ss: StatusSet)
    reads ss
  {
    ss.state in {Healthy, Degraded} && ss.needSwitch && !ss.preventPodDeletion
  }

  /** The dispatch on the cluster state. */
  method Act(w: World, ss: StatusSet) returns (ok: bool, redo: bool)
    requires w.Valid() && w.pinned && Current(w.Now(), ss) && RolesKnown(w.Now(), ss.seen, [])
    requires ss.seen.spec.replicas == |w.s.insts| && !ss.seen.spec.external
    requires w.errantList == ss.errants && WellFormed(ss.seen) && ss.state == Classify(ss.seen)
    requires ss.state in {Healthy, Degraded} && ss.needSwitch ==> SwitchTarget(ss.seen, ss.candidate)
    modifies w, ss`candidate
    ensures w.Valid() && Later(old(w.Now()), w.Now())
    // the primary changes only by a failover or a requested switchover, and then to the candidate
    ensures w.s.primary != old(w.s).primary ==> (ss.state == Failed || Switches(ss)) && w.s.primary == ss.candidate
    ensures ok && (ss.state == Failed || Switches(ss)) ==> w.s.primary == ss.candidate && redo
    ensures ok && ss.state == Failed ==> w.s.primary != old(w.s).primary && w.s.primary !in ss.errants
    ensures ss.state == Failed && w.s.primary != old(w.s).primary ==>
              NothingLeftBehind(old(w.s), old(w.s).primary, w.s)
    ensures Switches(ss) && w.s.primary != old(w.s).primary ==> HandedOver(w.s, old(w.s).primary)
    ensures Switches(ss) && ok && old(w.s).primary < |ss.seen.pods| && ss.seen.pods[old(w.s).primary].demote ==>
              old(w.s).primary < |w.pods| && !w.pods[old(w.s).primary].demote
    ensures ss.state != Failed ==> ss.candidate == old(ss.candidate)
    ensures w.errantList == old(w.errantList)
    ensures old(w.faults) <= w.faults
    ensures !ok && w.faults == old(w.faults) ==>
              || (ss.state == Failed && Torn(w.s, old(w.s).primary, ss.errants))
              || (&& ss.state in {Degraded, Incomplete} && !Switches(ss) && ss.seen.status[ss.seen.primary].Some?
                  && exists i: nat :: i < |ss.seen.status| && LacksLogs(ss.seen, i))
    // a configure sends what the picture asks for, and succeeds only with every label in place
    ensures ss.state in {Degraded, Incomplete} && !Switches(ss) ==>
              && ss.seen.status[ss.seen.primary].Some? && w.s.primary == old(w.s).primary
              && Sends(old(w.sent), Plan(ss.seen), w.sent, ok)
              && (ok ==> Labelled(w.Now(), ss.seen, ss.errants) && RolesInPlace(w.Now(), ss.seen, ss.errants))
              && (w.sent != old(w.sent) ==> NoWrongRole(w.Now(), ss.seen, ss.errants))
              && (|w.sent| > |old(w.sent)| + |Plan(ss.seen)| - |WritePlan(ss.seen)| ==>
                    RolesInPlace(w.Now(), ss.seen, ss.errants))
              && (ok ==> (redo <==> Plan(ss.seen) != [] || WaitsForRelayLog(ss.seen)))
    // in every other state nothing is done
    ensures ss.state !in {Degraded, Incomplete, Failed} && !Switches(ss) ==>
              ok && !redo && w.Now() == old(w.Now()) && w.sent == old(w.sent)
  {
    hide Inv, Legal, Replay, LabelsOk, ConnectionsOk, ViewOk, ErrantsOk, Current, RolesKnown, Classify, SwitchTarget,
      PodsKept, Labelled, WaitsForRelayLog, RolesInPlace, LacksLogs, Reflects, ReceivedElsewhere, NoWrongRole,
      PrimaryPlan, ReplicaPlans, WritePlan;
    if ss.state in {Healthy, Degraded} && ss.needSwitch && !ss.preventPodDeletion {
      Unpin(w, ss);
      PrimaryOpen(ss.seen);
      ghost var cleared;
      ok, cleared := Switchover.Switchover(w, ss);
      InvPrimary(w.s);
      redo := ok;
    } else if ss.state in {Degraded, Incomplete} {
      PrimaryExists(ss.seen);
      ok, redo := Configure.Configure(w, ss);
    } else if ss.state == Failed {
      Unpin(w, ss);
      ghost var looked;
      ok, looked := Failover.Failover(w, ss);
      redo := ok;
    } else {
      ok, redo := true, false;
    }
  }

  /** In a round that will not open the primary for writes, its mysqld may restart again. */
  method Unpin(w: World, ss: StatusSet)
    requires w.Valid() && Current(w.Now(), ss)
    modifies w`pinned
    ensures w.Valid() && Current(w.Now(), ss)
    ensures !w.pinned
  {
    hide Inv, Legal, Replay, LabelsOk, ConnectionsOk, ViewOk, ErrantsOk, ReadFrom, ReadPrimary, IsQuiet, ErrantsMatch;
    w.pinned := false;
  }

  /** All that was ever done to the servers left them safe. */
  ghost predicate SafeSince(start: State, log: seq<Event>) {
    forall n: nat :: n <= |log| ==> Legal(start, log[..n]) && Safe(Replay(start, log[..n]))
  }

  /** One round of a run. */
  datatype Round = Round(
    found: Option<Found>, a: Moment, sent: seq<Event>, b: Moment, sent': seq<Event>, ok: bool, redo: bool, faulty: bool)

  ghost predicate RoundOk(r: Round) {
    match r.found
    case None =>
      && !r.ok && !r.redo && r.faulty && r.b.s.primary == r.a.s.primary && r.sent' == r.sent
      && r.b.errantList == r.a.errantList
    case Some(f) =>
      && FoundSince(r.a.(pinned := true), f) && WellFormed(f.seen)
      && RoundDone(f, r.a, r.sent, r.b, r.sent', r.ok, r.redo, r.faulty)
  }

  lemma IsRoundOk(r: Round)
    requires r.found.None? ==>
               && !r.ok && !r.redo && r.faulty && r.b.s.primary == r.a.s.primary && r.sent' == r.sent
               && r.b.errantList == r.a.errantList
    requires r.found.Some? ==>
               && FoundSince(r.a.(pinned := true), r.found.value) && WellFormed(r.found.value.seen)
               && RoundDone(r.found.value, r.a, r.sent, r.b, r.sent', r.ok, r.redo, r.faulty)
    ensures RoundOk(r)
  {
    hide FoundSince, RoundDone;
  }

  lemma ErrantBounds(errants: seq<nat>, s: State)
    requires ErrantsOk(errants, s)
    ensures forall k :: 0 <= k < |errants| ==> errants[k] < |s.insts| && errants[k] != s.primary
  {
  }

  /**
   Any number of rounds on any sound cluster, under any environment: each round does what it should, every state of the
   run is safe, and at any time at most one Pod is labelled primary and no client is connected under a role that the
   Pod has lost.
   */
  method Rounds(w: World, spec: Spec, rounds: nat) returns (ghost done: seq<Round>)
    requires w.Valid() && spec.replicas == |w.s.insts| && !spec.external
    modifies w
    ensures w.Valid() && Later(old(w.Now()), w.Now())
    ensures |done| == rounds && forall k :: 0 <= k < |done| ==> RoundOk(done[k]) && Later(old(w.Now()), done[k].a)
    ensures forall j, k :: 0 <= j < k < |done| ==> Later(done[j].b, done[k].a)
    ensures (exists k :: 0 <= k < |done| && done[k].faulty) ==> old(w.faults) < w.faults
    ensures Legal(w.start, w.log) && w.s == Replay(w.start, w.log)
    ensures SafeSince(w.start, w.log)
    ensures forall v :: v in w.history ==> ViewOk(v)
    ensures w.s.primary < spec.replicas
    ensures forall k :: 0 <= k < |w.errantList| ==> w.errantList[k] < spec.replicas && w.errantList[k] != w.s.primary
  {
    hide Inv, Legal, Replay, LabelsOk, ConnectionsOk, ViewOk, Safe, RoundDone, WellFormed, RoundOk, ErrantsOk,
      FoundSince;
    done := [];
    for k := 0 to rounds
      invariant w.Valid() && Later(old(w.Now()), w.Now()) && |w.s.insts| == spec.replicas
      invariant |done| == k && forall j :: 0 <= j < |done| ==> RoundOk(done[j]) && Later(old(w.Now()), done[j].a)
      invariant forall j :: 0 <= j < |done| ==> Later(done[j].b, w.Now())
      invariant old(w.faults) <= w.faults
      invariant (exists j :: 0 <= j < |done| && done[j].faulty) ==> old(w.faults) < w.faults
      invariant forall i, j :: 0 <= i < j < |done| ==> Later(done[i].b, done[j].a)
    {
      var cloned: bool, restored: bool := *, *;
      ghost var a, sent, faults := w.Now(), w.sent, w.faults;
      var ok, redo, found := Do(w, spec, cloned, restored);
      ghost var r := Round(found, a, sent, w.Now(), w.sent, ok, redo, faults < w.faults);
      IsRoundOk(r);
      done := done + [r];
      w.pinned := false;   // between rounds every mysqld may restart
      ghost var before := w.Now();
      w.Interfere();
      UndisturbedLater(before, w.Now());
    }
    AlwaysSafe(w.start, w.log);
    InvPrimary(w.s);
    ErrantBounds(w.errantList, w.s);
  }

  lemma AlwaysSafe(start: State, log: seq<Event>)
    requires Inv(start) && Legal(start, log)
    ensures SafeSince(start, log)
  {
    forall n: nat | n <= |log| ensures Legal(start, log[..n]) && Safe(Replay(start, log[..n])) {
      RunSafe(start, log, n);
    }
  }

  /** The same from a fresh cluster. */
  method Operate(spec: Spec, rounds: nat) returns (log: seq<Event>, history: seq<PodView>, primary: nat,
                 errants: seq<nat>)
    requires spec.replicas > 0 && !spec.external
    ensures Legal(Initial(spec.replicas), log) && SafeSince(Initial(spec.replicas), log)
    ensures forall v :: v in history ==> ViewOk(v)
    ensures primary == Replay(Initial(spec.replicas), log).primary < spec.replicas
    ensures forall k :: 0 <= k < |errants| ==> errants[k] < spec.replicas && errants[k] != primary
  {
    hide Inv, Legal, Replay, LabelsOk, ConnectionsOk, ViewOk, Initial, SafeSince;
    var w := new World(spec.replicas);
    var done := Rounds(w, spec, rounds);
    log, history, primary, errants := w.log, w.history, w.s.primary, w.errantList;
  }
}
