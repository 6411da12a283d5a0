/** The gathered picture of a cluster, its classification, and the switchover target. */
module Status {
  import opened Basics
  import opened Replication
  import D = Dbop

  datatype Role = Unset | RolePrimary | RoleReplica | OtherRole(value: string)

  datatype Pod = Pod(ready: bool, deleting: bool, demote: bool, role: Role)

  datatype Spec = Spec(
    replicas: nat,
    external: bool,        // replicationSourceSecretName is set
    sourceHost: nat,       // the host that the secret names
    offline: bool,
    restore: bool,
    serverIdBase: int,
    maxDelaySeconds: int)

  datatype ClusterState =
    Undecided | Incomplete | Healthy | Cloning | Restoring | Degraded | Failed | Lost | Offline

  /** Everything that GatherStatus collects before it classifies. */
  datatype Picture = Picture(
    spec: Spec,
    cloned: bool,
    restored: bool,
    primary: nat,
    pods: seq<Pod>,
    status: seq<Option<D.Status>>,
    executed: set<Gtid>)   // of the primary; empty when it is unreachable

  ghost predicate WellFormed(p: Picture) {
    && p.primary < p.spec.replicas
    && |p.pods| == p.spec.replicas
    && |p.status| == p.spec.replicas
    && p.executed == (if p.status[p.primary].Some? then p.status[p.primary].value.executed else {})
  }

  // ----- what the states mean -----

  ghost predicate LostData(p: Picture)
    requires WellFormed(p)
  {
    && p.executed == {}
    && exists i: nat :: i < |p.status| && i != p.primary && p.status[i].Some? && p.status[i].value.executed != {}
  }

  ghost predicate PrimaryGone(p: Picture)
    requires WellFormed(p)
  {
    p.status[p.primary].None? || LostData(p)
  }

  /** A replica that still has data and can be promoted. */
  ghost predicate Usable(p: Picture, i: nat)
    requires WellFormed(p)
  {
    && i < |p.status| && i != p.primary && p.status[i].Some?
    && var st := p.status[i].value;
       st.replica.Some? && !st.isErrant && st.executed != {}
  }

  ghost function UsableReplicas(p: Picture): set<nat>
    requires WellFormed(p)
  {
    set i: nat | i < |p.status| && Usable(p, i)
  }

  /** A ready, super-read-only, non-errant replica of the current primary. */
  ghost predicate SwitchTarget(p: Picture, i: nat)
    requires WellFormed(p)
  {
    && i < |p.status| && i != p.primary && p.status[i].Some? && p.pods[i].ready
    && var st := p.status[i].value;
       st.superReadOnly && !st.isErrant && st.replica.Some? && st.replica.value.sourceHost == D.PodHost(p.primary)
  }

  ghost function SwitchTargets(p: Picture): set<nat>
    requires WellFormed(p)
  {
    set i: nat | i < |p.status| && SwitchTarget(p, i)
  }

  function InCluster(spec: Spec, id: int): nat {
    if spec.serverIdBase <= id < spec.serverIdBase + spec.replicas then 1 else 0
  }

  /** How many entries of SHOW REPLICAS belong to this cluster. */
  function Attached(spec: Spec, ids: seq<int>): nat {
    if ids == [] then 0 else Attached(spec, ids[..|ids| - 1]) + InCluster(spec, ids[|ids| - 1])
  }

  ghost predicate PrimaryServes(p: Picture)
    requires WellFormed(p)
  {
    && p.status[p.primary].Some?
    && var pst := p.status[p.primary].value;
       if p.spec.external then pst.superReadOnly else !pst.readOnly
  }

  ghost predicate MeansCloning(p: Picture)
    requires WellFormed(p)
  {
    && p.spec.external && !p.cloned
    && match p.status[p.primary]
       case None => true
       case Some(pst) => if pst.clone.Some? then pst.clone.value != "Completed" else pst.executed == {}
  }

  ghost predicate MeansRestoring(p: Picture) { p.spec.restore && !p.restored }

  ghost predicate MeansHealthy(p: Picture)
    requires WellFormed(p)
  {
    && (forall i :: 0 <= i < |p.pods| ==> p.pods[i].ready)
    && (forall i: nat :: i < |p.status| && i != p.primary ==> SwitchTarget(p, i))
    && PrimaryServes(p)
    && Attached(p.spec, p.status[p.primary].value.replicaHosts) == p.spec.replicas - 1
  }

  ghost predicate MeansDegraded(p: Picture)
    requires WellFormed(p)
  {
    && p.pods[p.primary].ready && !LostData(p) && PrimaryServes(p)
    && Attached(p.spec, p.status[p.primary].value.replicaHosts) >= p.spec.replicas / 2
    && p.spec.replicas / 2 <= |SwitchTargets(p)| != p.spec.replicas - 1
  }

  ghost predicate MeansFailed(p: Picture)
    requires WellFormed(p)
  {
    PrimaryGone(p) && |UsableReplicas(p)| > p.spec.replicas / 2
  }

  ghost predicate MeansLost(p: Picture)
    requires WellFormed(p)
  {
    PrimaryGone(p) && |UsableReplicas(p)| <= p.spec.replicas / 2
  }

  ghost function Classify(p: Picture): ClusterState
    requires WellFormed(p)
  {
    if p.spec.offline then Offline
    else if MeansCloning(p) then Cloning
    else if MeansRestoring(p) then Restoring
    else if MeansHealthy(p) then Healthy
    else if MeansDegraded(p) then Degraded
    else if MeansFailed(p) then Failed
    else if MeansLost(p) then Lost
    else Incomplete
  }

  predicate NeedSwitch(pod: Pod) { pod.deleting || pod.demote }

  // ----- laws of the classification -----

  /** Configure and switchover never see a missing primary status. */
  lemma PrimaryExists(p: Picture)
    requires WellFormed(p) && Classify(p) in {Healthy, Degraded, Incomplete}
    ensures p.status[p.primary].Some?
  {
    hide MeansCloning, MeansRestoring;
  }

  /** Without an external source, a cluster that may switch over has a primary that was seen open for writes. */
  lemma PrimaryOpen(p: Picture)
    requires WellFormed(p) && Classify(p) in {Healthy, Degraded} && !p.spec.external
    ensures p.status[p.primary].Some? && !p.status[p.primary].value.readOnly
  {
    hide MeansCloning, MeansRestoring;
  }

  ghost function OwnPositions(spec: Spec, ids: seq<int>): set<nat> {
    set k: nat | k < |ids| && spec.serverIdBase <= ids[k] < spec.serverIdBase + spec.replicas
  }

  lemma OneMorePosition(spec: Spec, ids: seq<int>)
    requires ids != []
    ensures var n := |ids| - 1;
            && n !in OwnPositions(spec, ids[..n])
            && OwnPositions(spec, ids) ==
                 OwnPositions(spec, ids[..n]) + if InCluster(spec, ids[n]) == 1 then {n} else {}
  {
  }

  /** How many positions of the list hold a server ID of the cluster. */
  lemma {:induction false} AttachedCount(spec: Spec, ids: seq<int>)
    ensures Attached(spec, ids) == |OwnPositions(spec, ids)|
    ensures Attached(spec, ids) ==
              |set k: nat | k < |ids| && spec.serverIdBase <= ids[k] < spec.serverIdBase + spec.replicas|
  {
    assert OwnPositions(spec, ids) ==
           set k: nat | k < |ids| && spec.serverIdBase <= ids[k] < spec.serverIdBase + spec.replicas;
    if ids != [] {
      AttachedCount(spec, ids[..|ids| - 1]);
      OneMorePosition(spec, ids);
    } else {
      assert OwnPositions(spec, ids) == {};
    }
  }

  // The classes, in the fields of the picture alone.

  lemma EarlyByFields(p: Picture)
    requires WellFormed(p)
    ensures Classify(p) == Offline <==> p.spec.offline
    ensures Classify(p) == Cloning <==>
              && !p.spec.offline && p.spec.external && !p.cloned
              && match p.status[p.primary]
                 case None => true
                 case Some(pst) => if pst.clone.Some? then pst.clone.value != "Completed" else pst.executed == {}
    ensures Classify(p) == Restoring <==> Classify(p) !in {Offline, Cloning} && p.spec.restore && !p.restored
  {
    hide MeansHealthy, MeansDegraded, MeansFailed, MeansLost;
  }

  lemma HealthyByFields(p: Picture)
    requires WellFormed(p)
    ensures Classify(p) == Healthy <==>
              && Classify(p) !in {Offline, Cloning, Restoring}
              && (forall i: nat :: i < p.spec.replicas ==> p.pods[i].ready)
              && (forall i: nat :: i < p.spec.replicas && i != p.primary ==>
                    && p.status[i].Some? && p.status[i].value.superReadOnly && !p.status[i].value.isErrant
                    && p.status[i].value.replica.Some?
                    && p.status[i].value.replica.value.sourceHost == D.PodHost(p.primary))
              && p.status[p.primary].Some?
              && (if p.spec.external then p.status[p.primary].value.superReadOnly
                  else !p.status[p.primary].value.readOnly)
              && Attached(p.spec, p.status[p.primary].value.replicaHosts) == p.spec.replicas - 1
  {
    hide MeansCloning, MeansRestoring, MeansDegraded, MeansFailed, MeansLost, Attached, SwitchTarget;
    forall i: nat | i < |p.status| && i != p.primary
      ensures SwitchTarget(p, i) <==>
                && p.pods[i].ready && p.status[i].Some? && p.status[i].value.superReadOnly
                && !p.status[i].value.isErrant && p.status[i].value.replica.Some?
                && p.status[i].value.replica.value.sourceHost == D.PodHost(p.primary)
    {
      TargetMeans(p, i);
    }
    assert (forall i: nat :: i < p.spec.replicas ==> p.pods[i].ready) <==>
           (forall i :: 0 <= i < |p.pods| ==> p.pods[i].ready);
  }

  lemma DegradedByFields(p: Picture)
    requires WellFormed(p)
    ensures var c := p.primary;
            var targets := set i: nat | i < p.spec.replicas && i != c && p.pods[i].ready && p.status[i].Some?
                                        && p.status[i].value.superReadOnly && !p.status[i].value.isErrant
                                        && p.status[i].value.replica.Some?
                                        && p.status[i].value.replica.value.sourceHost == D.PodHost(c);
            Classify(p) == Degraded <==>
              && Classify(p) !in {Offline, Cloning, Restoring, Healthy}
              && p.pods[c].ready && p.status[c].Some?
              && (p.executed != {} || forall i: nat :: i < p.spec.replicas && i != c && p.status[i].Some? ==>
                                                         p.status[i].value.executed == {})
              && (if p.spec.external then p.status[c].value.superReadOnly else !p.status[c].value.readOnly)
              && Attached(p.spec, p.status[c].value.replicaHosts) >= p.spec.replicas / 2
              && p.spec.replicas / 2 <= |targets| != p.spec.replicas - 1
  {
    var c := p.primary;
    var targets := set i: nat | i < p.spec.replicas && i != c && p.pods[i].ready && p.status[i].Some?
                                && p.status[i].value.superReadOnly && !p.status[i].value.isErrant
                                && p.status[i].value.replica.Some?
                                && p.status[i].value.replica.value.sourceHost == D.PodHost(c);
    assert targets == SwitchTargets(p);
    hide MeansCloning, MeansRestoring, MeansHealthy, MeansFailed, MeansLost, Attached, SwitchTargets;
  }

  lemma FailedByFields(p: Picture)
    requires WellFormed(p)
    ensures var c := p.primary;
            var usable := set i: nat | i < p.spec.replicas && i != c && p.status[i].Some?
                                       && p.status[i].value.replica.Some? && !p.status[i].value.isErrant
                                       && p.status[i].value.executed != {};
            var gone := || p.status[c].None?
                        || (&& p.executed == {}
                            && exists i: nat :: i < p.spec.replicas && i != c && p.status[i].Some?
                                                && p.status[i].value.executed != {});
            var late := Classify(p) !in {Offline, Cloning, Restoring, Healthy, Degraded};
            && (Classify(p) == Failed <==> late && gone && |usable| > p.spec.replicas / 2)
            && (Classify(p) == Lost <==> late && gone && |usable| <= p.spec.replicas / 2)
            && (Classify(p) == Incomplete <==> late && !gone)
  {
    var usable := set i: nat | i < p.spec.replicas && i != p.primary && p.status[i].Some?
                               && p.status[i].value.replica.Some? && !p.status[i].value.isErrant
                               && p.status[i].value.executed != {};
    assert usable == UsableReplicas(p);
    hide MeansCloning, MeansRestoring, MeansHealthy, MeansDegraded, UsableReplicas;
  }

  /** Failed and Lost split exactly the states with a missing or emptied primary that no earlier case takes. */
  lemma FailedOrLost(p: Picture)
    requires WellFormed(p) && !p.spec.offline && !MeansCloning(p) && !MeansRestoring(p) && !MeansHealthy(p)
    ensures Classify(p) == Failed <==> PrimaryGone(p) && |UsableReplicas(p)| > p.spec.replicas / 2
    ensures Classify(p) == Lost <==> PrimaryGone(p) && |UsableReplicas(p)| <= p.spec.replicas / 2
    ensures PrimaryGone(p) <==> Classify(p) in {Failed, Lost}
  {
    hide MeansCloning, MeansRestoring, MeansHealthy;
  }

  /** A failover only ever finds an empty primary set, so the errant list comes from the stored status. */
  lemma FailedHasNoPrimarySet(p: Picture)
    requires WellFormed(p) && Classify(p) == Failed
    ensures p.executed == {}
  {
    hide MeansCloning, MeansRestoring, MeansHealthy, MeansDegraded;
  }

  lemma UsableBounds(p: Picture, down: set<nat>)
    requires WellFormed(p) && down <= Indices(p.spec.replicas)
    requires forall i: nat :: i < |p.status| && i != p.primary && i !in down ==> Usable(p, i)
    ensures |UsableReplicas(p)| + |down + {p.primary}| >= p.spec.replicas
  {
    var all := Indices(p.spec.replicas);
    assert all <= UsableReplicas(p) + (down + {p.primary});
    SubsetCard(all, UsableReplicas(p) + (down + {p.primary}));
  }

  /**
   Taking down no more instances than the disruption budget allows never loses a cluster of odd size whose
   other replicas are usable, as long as the primary is intact or among those taken down.
   */
  lemma BudgetNeverLoses(p: Picture, down: set<nat>)
    requires WellFormed(p) && p.spec.replicas % 2 == 1
    requires down <= Indices(p.spec.replicas) && |down| <= p.spec.replicas / 2
    requires forall i: nat :: i < |p.status| && i != p.primary && i !in down ==> Usable(p, i)
    requires p.primary in down || !PrimaryGone(p)
    ensures Classify(p) != Lost
  {
    hide MeansCloning, MeansRestoring, MeansHealthy, MeansDegraded;
    if PrimaryGone(p) {
      UsableBounds(p, down);
      assert down + {p.primary} == down;
    }
  }

  /** Lost means that more instances than the budget allows, the primary included, are unusable. */
  lemma LostIsBeyondBudget(p: Picture)
    requires WellFormed(p) && p.spec.replicas % 2 == 1 && Classify(p) == Lost
    ensures |Indices(p.spec.replicas) - UsableReplicas(p)| > p.spec.replicas / 2
  {
    hide MeansCloning, MeansRestoring, MeansHealthy, MeansDegraded;
    var all, ok := Indices(p.spec.replicas), UsableReplicas(p);
    assert ok <= all;
    assert |all - ok| == |all| - |ok|;
  }

  // ----- counting -----

  ghost function TargetsBelow(p: Picture, n: nat): set<nat>
    requires WellFormed(p)
  {
    set i: nat | i < n && SwitchTarget(p, i)
  }

  lemma OneMoreTarget(p: Picture, n: nat)
    requires WellFormed(p)
    ensures TargetsBelow(p, n + 1) == TargetsBelow(p, n) + (if SwitchTarget(p, n) then {n} else {})
    ensures |TargetsBelow(p, n + 1)| == |TargetsBelow(p, n)| + (if SwitchTarget(p, n) then 1 else 0)
  {
    hide SwitchTarget;
    assert TargetsBelow(p, n + 1) == TargetsBelow(p, n) + (if SwitchTarget(p, n) then {n} else {});
  }

  lemma TargetIn(p: Picture, i: nat)
    requires WellFormed(p) && SwitchTarget(p, i)
    ensures i in SwitchTargets(p)
  {
  }

  lemma NoTargets(p: Picture)
    requires WellFormed(p)
    ensures TargetsBelow(p, 0) == {}
  {
  }

  lemma AllTargets(p: Picture)
    requires WellFormed(p)
    ensures TargetsBelow(p, |p.status|) == SwitchTargets(p)
    ensures forall i: nat :: SwitchTarget(p, i) ==> i in SwitchTargets(p)
  {
  }

  lemma TargetMeans(p: Picture, i: nat)
    requires WellFormed(p) && i < |p.status|
    ensures SwitchTarget(p, i) <==>
              && i != p.primary && p.status[i].Some? && p.pods[i].ready
              && p.status[i].value.superReadOnly && p.status[i].value.replica.Some? && !p.status[i].value.isErrant
              && p.status[i].value.replica.value.sourceHost == D.PodHost(p.primary)
  {
  }

  ghost function UsableBelow(p: Picture, n: nat): set<nat>
    requires WellFormed(p)
  {
    set i: nat | i < n && Usable(p, i)
  }

  lemma OneMoreUsable(p: Picture, n: nat)
    requires WellFormed(p)
    ensures |UsableBelow(p, n + 1)| == |UsableBelow(p, n)| + (if Usable(p, n) then 1 else 0)
  {
    hide Usable;
    assert UsableBelow(p, n + 1) == UsableBelow(p, n) + (if Usable(p, n) then {n} else {});
  }

  // ----- the status set -----

  class StatusSet {
    const seen: Picture
    var errants: seq<nat>
    var candidates: seq<nat>
    var needSwitch: bool
    var preventPodDeletion: bool
    var candidate: nat
    var state: ClusterState

    constructor (seen: Picture, errants: seq<nat>, preventPodDeletion: bool)
      ensures this.seen == seen && this.errants == errants && this.preventPodDeletion == preventPodDeletion
      ensures candidates == [] && !needSwitch && state == Undecided
    {
      this.seen := seen;
      this.errants := errants;
      this.candidates := [];
      this.needSwitch := false;
      this.preventPodDeletion := preventPodDeletion;
      this.candidate := 0;
      this.state := Undecided;
    }

    ghost predicate CandidatesOk()
      requires WellFormed(seen)
      reads this
    {
      forall k :: 0 <= k < |candidates| ==> SwitchTarget(seen, candidates[k])
    }

    ghost predicate CandidatesComplete()
      requires WellFormed(seen)
      reads this
    {
      forall i: nat :: SwitchTarget(seen, i) ==> i in candidates
    }

    method HasLostData() returns (b: bool)
      requires WellFormed(seen)
      ensures b == LostData(seen)
    {
      if seen.executed != {} {
        return false;
      }
      for i := 0 to |seen.status|
        invariant forall j: nat :: j < i && j != seen.primary && seen.status[j].Some? ==>
                    seen.status[j].value.executed == {}
      {
        if i == seen.primary || seen.status[i].None? {
          continue;
        }
        if seen.status[i].value.executed != {} {
          return true;
        }
      }
      return false;
    }

    method ReplicasInCluster(ids: seq<int>) returns (n: nat)
      ensures n == Attached(seen.spec, ids)
      ensures var base := seen.spec.serverIdBase;
              n == |set k: nat | k < |ids| && base <= ids[k] < base + seen.spec.replicas|
    {
      AttachedCount(seen.spec, ids);
      n := 0;
      for k := 0 to |ids|
        invariant n == Attached(seen.spec, ids[..k])
      {
        assert ids[..k + 1][..k] == ids[..k];
        if seen.spec.serverIdBase <= ids[k] < seen.spec.serverIdBase + seen.spec.replicas {
          n := n + 1;
        }
      }
      assert ids[..|ids|] == ids;
    }

    method IsHealthy() returns (b: bool)
      requires WellFormed(seen) && CandidatesOk()
      modifies this`candidates
      ensures b <==> MeansHealthy(seen)
      ensures CandidatesOk() && (b ==> CandidatesComplete())
    {
      for i := 0 to |seen.pods|
        invariant forall j :: 0 <= j < i ==> seen.pods[j].ready
      {
        if !seen.pods[i].ready {
          return false;
        }
      }
      for i := 0 to |seen.status|
        invariant CandidatesOk()
        invariant forall j: nat :: j < i && j != seen.primary ==> SwitchTarget(seen, j) && j in candidates
      {
        if i == seen.primary {
          continue;
        }
        if seen.status[i].None? {
          assert !SwitchTarget(seen, i);
          return false;
        }
        var st := seen.status[i].value;
        if st.isErrant || !st.superReadOnly || st.replica.None?
           || st.replica.value.sourceHost != D.PodHost(seen.primary) {
          assert !SwitchTarget(seen, i);
          return false;
        }
        candidates := candidates + [i];
      }
      if seen.status[seen.primary].None? {
        return false;
      }
      var pst := seen.status[seen.primary].value;
      var n := ReplicasInCluster(pst.replicaHosts);
      if n != seen.spec.replicas - 1 {
        return false;
      }
      return if seen.spec.external then pst.superReadOnly else !pst.readOnly;
    }

    /** The loop of isDegraded: every proper target is counted and appended. */
    method CountTargets() returns (ok: nat)
      requires WellFormed(seen) && CandidatesOk()
      modifies this`candidates
      ensures ok == |SwitchTargets(seen)| && CandidatesOk() && CandidatesComplete()
    {
      hide SwitchTarget, TargetsBelow;
      NoTargets(seen);
      ok := 0;
      for i := 0 to |seen.status|
        invariant CandidatesOk()
        invariant ok == |TargetsBelow(seen, i)|
        invariant forall j :: j in TargetsBelow(seen, i) ==> j in candidates
      {
        OneMoreTarget(seen, i);
        TargetMeans(seen, i);
        if i != seen.primary && seen.status[i].Some? && seen.pods[i].ready && seen.status[i].value.superReadOnly
           && seen.status[i].value.replica.Some?
           && seen.status[i].value.replica.value.sourceHost == D.PodHost(seen.primary)
           && !seen.status[i].value.isErrant {
          ok := ok + 1;
          candidates := candidates + [i];
        }
      }
      AllTargets(seen);
    }

    method IsDegraded() returns (b: bool)
      requires WellFormed(seen) && CandidatesOk()
      modifies this`candidates
      ensures b <==> MeansDegraded(seen)
      ensures CandidatesOk() && (b ==> CandidatesComplete())
    {
      if !seen.pods[seen.primary].ready {
        return false;
      }
      var lost := HasLostData();
      if lost || seen.status[seen.primary].None? {
        return false;
      }
      var pst := seen.status[seen.primary].value;
      if (seen.spec.external && !pst.superReadOnly) || (!seen.spec.external && pst.readOnly) {
        return false;
      }
      var n := ReplicasInCluster(pst.replicaHosts);
      if n < seen.spec.replicas / 2 {
        return false;
      }
      var ok := CountTargets();
      return ok >= seen.spec.replicas / 2 && ok != seen.spec.replicas - 1;
    }

    /** The loop that isFailed and isLost share. */
    method CountUsable() returns (ok: nat)
      requires WellFormed(seen)
      ensures ok == |UsableReplicas(seen)|
    {
      ok := 0;
      for i := 0 to |seen.status|
        invariant ok == |UsableBelow(seen, i)|
      {
        OneMoreUsable(seen, i);
        if i == seen.primary || seen.status[i].None? {
          continue;
        }
        var st := seen.status[i].value;
        if st.replica.None? || st.isErrant || st.executed == {} {
          continue;
        }
        ok := ok + 1;
      }
      assert UsableBelow(seen, |seen.status|) == UsableReplicas(seen);
    }

    method IsFailed() returns (b: bool)
      requires WellFormed(seen)
      ensures b <==> MeansFailed(seen)
    {
      var lost := HasLostData();
      if seen.status[seen.primary].Some? && !lost {
        return false;
      }
      var ok := CountUsable();
      return ok > seen.spec.replicas / 2;
    }

    method IsLost() returns (b: bool)
      requires WellFormed(seen)
      ensures b <==> MeansLost(seen)
    {
      var lost := HasLostData();
      if seen.status[seen.primary].Some? && !lost {
        return false;
      }
      var ok := CountUsable();
      return ok <= seen.spec.replicas / 2;
    }

    method IsCloning() returns (b: bool)
      requires WellFormed(seen)
      ensures b <==> MeansCloning(seen)
    {
      if !seen.spec.external || seen.cloned {
        return false;
      }
      if seen.status[seen.primary].None? {
        return true;
      }
      var pst := seen.status[seen.primary].value;
      if pst.clone.Some? && pst.clone.value != "Completed" {
        return true;
      }
      return pst.clone.None? && pst.executed == {};
    }

    method LowestCandidate() returns (c: nat)
      requires candidates != []
      ensures c in candidates && forall k :: 0 <= k < |candidates| ==> c <= candidates[k]
    {
      c := candidates[0];
      for k := 1 to |candidates|
        invariant c in candidates && forall j :: 0 <= j < k ==> c <= candidates[j]
      {
        if candidates[k] < c {
          c := candidates[k];
        }
      }
    }

    /** The first case that applies, with the candidates it leaves behind. */
    method FirstCase() returns (st: ClusterState)
      requires WellFormed(seen) && candidates == []
      modifies this`candidates
      ensures st == Classify(seen)
      ensures CandidatesOk()
      ensures st in {Healthy, Degraded} ==> CandidatesComplete()
    {
      hide MeansHealthy, MeansDegraded, MeansFailed, MeansLost, MeansCloning, SwitchTarget;
      if seen.spec.offline {
        return Offline;
      }
      var b := IsCloning();
      if b {
        return Cloning;
      }
      if seen.spec.restore && !seen.restored {
        return Restoring;
      }
      b := IsHealthy();
      if b {
        return Healthy;
      }
      b := IsDegraded();
      if b {
        return Degraded;
      }
      b := IsFailed();
      if b {
        return Failed;
      }
      b := IsLost();
      return if b then Lost else Incomplete;
    }

    method DecideState()
      requires WellFormed(seen) && candidates == [] && !needSwitch
      modifies this`candidates, this`needSwitch, this`candidate, this`state
      ensures state == Classify(seen)
      // whatever the state, a requested switchover has a proper target, and a Pod to be deleted or demoted asks for it
      ensures needSwitch ==>
                SwitchTarget(seen, candidate) && (seen.pods[seen.primary].deleting || seen.pods[seen.primary].demote)
      // in the states that switch over, it is requested exactly when one of these holds and there is a target
      ensures state in {Healthy, Degraded} ==>
                (needSwitch <==>
                 SwitchTargets(seen) != {} && (seen.pods[seen.primary].deleting || seen.pods[seen.primary].demote))
      // and the target is the lowest of all proper ones
      ensures state in {Healthy, Degraded} && SwitchTargets(seen) != {} ==>
                SwitchTarget(seen, candidate) && forall i: nat :: SwitchTarget(seen, i) ==> candidate <= i
    {
      hide SwitchTarget, Classify;
      state := FirstCase();
      forall i: nat | SwitchTarget(seen, i) ensures i in SwitchTargets(seen) {
        TargetIn(seen, i);
      }
      if |candidates| > 0 {
        assert candidates[0] in SwitchTargets(seen);
        needSwitch := NeedSwitch(seen.pods[seen.primary]);
        candidate := LowestCandidate();
      } else {
        assert state in {Healthy, Degraded} ==> SwitchTargets(seen) == {};
      }
    }
  }
}
