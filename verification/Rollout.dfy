/** The partitioned rolling update: an admission webhook that resets the partition, and a controller that lowers it. */
module Rollout {
  import opened Basics
  import opened Lex
  import opened Decimal

  // ----- the webhook -----

  datatype Operation = Create | Update | OtherOperation
  datatype Owner = Owner(kind: string, apiVersion: string)

  /** spec.updateStrategy without the partition: its type, and maxUnavailable of its rollingUpdate. */
  datatype Strategy = Strategy(kind: string, maxUnavailable: Option<string>)

  datatype OldSpec = OldSpec(replicas: int, partition: Option<int>, strategy: Strategy, template: string)
  datatype Admission = Admitted | Crashed   // Crashed: the old object has no partition to read

  const GROUP_VERSION := "moco.cybozu.com/v1beta2"

  class StatefulSet {
    var owners: seq<Owner>
    var force: bool              // the force-rolling-update annotation is "true"
    var replicas: int
    var partition: Option<int>   // spec.updateStrategy.rollingUpdate.partition
    var strategy: Strategy
    var template: string         // everything else in the spec

    constructor (owners: seq<Owner>, force: bool, replicas: int, partition: Option<int>, strategy: Strategy,
                 template: string)
      ensures this.owners == owners && this.force == force && this.replicas == replicas
      ensures this.partition == partition && this.strategy == strategy && this.template == template
    {
      this.owners, this.force, this.replicas := owners, force, replicas;
      this.partition, this.strategy, this.template := partition, strategy, template;
    }

    function AsOld(): OldSpec
      reads this
    {
      OldSpec(replicas, partition, strategy, template)
    }

    /** The webhook looks at objects with one owner whose kind or API version is MOCO's. */
    predicate Managed()
      reads this
    {
      |owners| == 1 && (owners[0].kind == "MySQLCluster" || owners[0].apiVersion == GROUP_VERSION)
    }

    /** The partition differs from the old object, and nothing outside updateStrategy does. */
    predicate OnlyPartitionDiffers(was: OldSpec)
      reads this
    {
      partition != was.partition && replicas == was.replicas && template == was.template
    }

    method Default(op: Operation, was: Option<OldSpec>) returns (r: Admission)
      modifies this`partition, this`strategy
      // a reset replaces rollingUpdate as a whole
      ensures strategy.kind == old(strategy).kind
      ensures strategy == old(strategy) || (strategy.maxUnavailable == None && partition in {None, Some(replicas)})
      ensures r == Crashed || op == OtherOperation || !Managed() || (partition.Some? && partition.value != replicas) ==>
                strategy == old(strategy)
      ensures r == Crashed <==>
                && op != OtherOperation && Managed() && !force
                && old(partition).Some? && was.Some? && was.value.partition.None?
      ensures r == Crashed || op == OtherOperation || !Managed() ==> partition == old(partition)
      ensures r == Admitted && op != OtherOperation && Managed() && force ==>
                partition == None && strategy.maxUnavailable == None
      // without the annotation, an update either changes the partition alone or sets it to replicas
      ensures r == Admitted && op != OtherOperation && Managed() && !force ==>
                || partition == Some(replicas)
                || (partition == old(partition) && partition.Some? && (was.None? || OnlyPartitionDiffers(was.value)))
      // and a change of the partition alone gets through
      ensures && was.Some? && was.value.partition.Some? && old(partition).Some?
              && old(OnlyPartitionDiffers(was.value)) && !force ==>
                r == Admitted && partition == old(partition)
      // in the fields of the objects: a partition changed alone is kept, any other one is reset
      ensures && op != OtherOperation && |owners| == 1
              && (owners[0].kind == "MySQLCluster" || owners[0].apiVersion == "moco.cybozu.com/v1beta2")
              && !force && old(partition).Some? && was.Some? && was.value.partition.Some? ==>
                && r == Admitted
                && partition == (if && old(partition) != was.value.partition && replicas == was.value.replicas
                                    && template == was.value.template then old(partition)
                                 else Some(replicas))
      // everything else is reset
      ensures op != OtherOperation && Managed() && !force && was.Some? && was.value.partition.Some?
              && !(old(partition).Some? && old(OnlyPartitionDiffers(was.value))) ==>
                r == Admitted && partition == Some(replicas) && strategy.maxUnavailable == None
    {
      if op == OtherOperation {
        return Admitted;
      }
      if |owners| != 1 {
        return Admitted;
      }
      if owners[0].kind != "MySQLCluster" && owners[0].apiVersion != GROUP_VERSION {
        return Admitted;
      }
      if force {
        partition, strategy := None, strategy.(maxUnavailable := None);
        return Admitted;
      }
      if partition.None? {
        partition, strategy := Some(replicas), strategy.(maxUnavailable := None);
        return Admitted;
      }
      if was.None? {
        return Admitted;
      }
      if was.value.partition.None? {
        return Crashed;
      }
      if partition.value != was.value.partition.value
         && replicas == was.value.replicas && template == was.value.template {
        return Admitted;
      }
      partition, strategy := Some(replicas), strategy.(maxUnavailable := None);
      return Admitted;
    }

    /** An update, through the webhook, by someone who leaves the partition as it was or does not mention it. */
    method Replace(replicas: int, strategy: Strategy, template: string, keepPartition: bool) returns (changed: bool)
      requires Managed() && !force && partition.Some?
      modifies this`replicas, this`partition, this`strategy, this`template
      ensures this.replicas == replicas && partition == Some(replicas) && this.template == template
      ensures changed <==> AsOld() != old(AsOld())
    {
      var was := AsOld();
      this.replicas, this.strategy, this.template := replicas, strategy, template;
      if !keepPartition {
        partition := None;
      }
      var r := Default(Update, Some(was));
      changed := AsOld() != was;
    }
  }

  // ----- Pod names -----

  function PodName(prefix: string, ordinal: nat): string { prefix + "-" + Digits(ordinal) }

  lemma NameOrder(prefix: string, i: nat, j: nat)
    requires i < j < 10
    ensures Less(PodName(prefix, i), PodName(prefix, j))
  {
    CommonPrefix(prefix + "-", Digits(i), Digits(j));
  }

  lemma TenComesThird(prefix: string, o: nat)
    requires o < 10
    ensures Less(PodName(prefix, 10), PodName(prefix, o)) <==> o >= 2
    ensures Less(PodName(prefix, o), PodName(prefix, 10)) <==> o < 2
  {
    assert Digits(10) == Digits(1) + [Digit(0)];
    assert Digits(10)[0] == '1' && Digits(o)[0] == Digit(o);
    CommonPrefix(prefix + "-", Digits(10), Digits(o));
    CommonPrefix(prefix + "-", Digits(o), Digits(10));
  }

  /**
   Sorting Pods by name is sorting them by ordinal exactly up to ten Pods: with eleven, Pod 10 comes before Pod 2.
   */
  lemma NamesFollowOrdinals(prefix: string, replicas: nat)
    ensures (forall i: nat, j: nat :: i < j < replicas ==>
              Less(PodName(prefix, i), PodName(prefix, j))) <==> replicas <= 10
  {
    if replicas <= 10 {
      forall i: nat, j: nat | i < j < replicas ensures Less(PodName(prefix, i), PodName(prefix, j)) {
        NameOrder(prefix, i, j);
      }
    } else {
      TenComesThird(prefix, 2);
      assert 2 < 10 < replicas && !Less(PodName(prefix, 2), PodName(prefix, 10));
    }
  }

  // ----- the rollout -----

  datatype ChildPod = ChildPod(
    ordinal: nat,
    revision: string,        // the controller-revision-hash label
    ready: bool,
    available: bool,         // ready for at least five seconds
    terminating: bool,
    containersReady: bool)

  ghost predicate PodsOk(pods: seq<ChildPod>, replicas: nat) {
    && (forall j, k :: 0 <= j < k < |pods| ==> pods[j].ordinal != pods[k].ordinal)
    && forall k :: 0 <= k < |pods| ==> pods[k].ordinal < replicas
  }

  /** The ordinals at or above the partition that are not at the update revision. */
  ghost function Outdated(pods: seq<ChildPod>, partition: int, revision: string): set<nat> {
    set k | 0 <= k < |pods| && pods[k].ordinal >= partition && pods[k].revision != revision :: pods[k].ordinal
  }

  predicate Updated(pods: seq<ChildPod>, revision: string) {
    forall k :: 0 <= k < |pods| ==> pods[k].revision == revision
  }

  /** Strictly increasing numbers below n, n of them, are 0 .. n-1. */
  lemma {:induction false} Consecutive(a: seq<nat>, n: nat, i: nat)
    requires |a| == n && i < n
    requires forall j, k :: 0 <= j < k < n ==> a[j] < a[k]
    requires forall j :: 0 <= j < n ==> a[j] < n
    ensures a[i] == i
  {
    AtLeast(a, i);
    AtMost(a, n, n - 1 - i);
  }

  lemma {:induction false} AtLeast(a: seq<nat>, i: nat)
    requires i < |a| && forall j, k :: 0 <= j < k < |a| ==> a[j] < a[k]
    ensures a[i] >= i
  {
    if i > 0 {
      AtLeast(a, i - 1);
    }
  }

  lemma {:induction false} AtMost(a: seq<nat>, n: nat, d: nat)
    requires |a| == n && d < n && (forall j, k :: 0 <= j < k < n ==> a[j] < a[k]) && forall j :: 0 <= j < n ==> a[j] < n
    ensures a[n - 1 - d] <= n - 1 - d
  {
    if d > 0 {
      AtMost(a, n, d - 1);
    }
  }

  /** The Pod list as the controller sorts it: by name. */
  function SortPods(prefix: string, pods: seq<ChildPod>): seq<ChildPod> {
    SortBy(pods, (p: ChildPod) => PodName(prefix, p.ordinal))
  }

  /** With at most ten Pods, all of them present, the sorted list has Pod i at index i. */
  lemma SortedByOrdinal(prefix: string, pods: seq<ChildPod>, replicas: nat)
    requires PodsOk(pods, replicas) && |pods| == replicas <= 10
    ensures var sorted := SortPods(prefix, pods);
            |sorted| == replicas && forall i :: 0 <= i < replicas ==> sorted[i].ordinal == i && sorted[i] in pods
  {
    var key := (p: ChildPod) => PodName(prefix, p.ordinal);
    var id := (p: ChildPod) => p.ordinal;
    var sorted := SortBy(pods, key);
    SortBySorts(pods, key);
    assert Distinct(pods, id);
    SortByDistinct(pods, key, id);
    forall i | 0 <= i < replicas ensures sorted[i] in pods && sorted[i].ordinal < replicas {
      assert sorted[i] in multiset(pods);
    }
    forall i, j | 0 <= i < j < replicas ensures sorted[i].ordinal < sorted[j].ordinal {
      assert id(sorted[i]) != id(sorted[j]) && !Less(key(sorted[j]), key(sorted[i]));
      if sorted[j].ordinal < sorted[i].ordinal {
        NameOrder(prefix, sorted[j].ordinal, sorted[i].ordinal);
      }
    }
    var ordinals := seq(replicas, i requires 0 <= i < replicas => sorted[i].ordinal);
    forall i | 0 <= i < replicas ensures sorted[i].ordinal == i {
      Consecutive(ordinals, replicas, i);
    }
  }

  /** Distinct ordinals below n: at most n Pods. */
  lemma AtMostReplicas(pods: seq<ChildPod>, n: nat)
    requires PodsOk(pods, n)
    ensures |pods| <= n
  {
    OrdinalsCount(pods, n);
    SubsetCard(Ordinals(pods), Indices(n));
  }

  ghost function Ordinals(pods: seq<ChildPod>): (r: set<nat>)
    ensures forall o :: o in r ==> exists k :: 0 <= k < |pods| && pods[k].ordinal == o
  {
    if pods == [] then {} else Ordinals(pods[..|pods| - 1]) + {pods[|pods| - 1].ordinal}
  }

  lemma {:induction false} OrdinalsCount(pods: seq<ChildPod>, n: nat)
    requires PodsOk(pods, n)
    ensures |Ordinals(pods)| == |pods| && Ordinals(pods) <= Indices(n)
  {
    if pods != [] {
      var last, rest := pods[|pods| - 1], pods[..|pods| - 1];
      OrdinalsCount(rest, n);
      assert last.ordinal !in Ordinals(rest);
    }
  }

  // ----- when the controller lowers the partition -----

  /** What the controller asks of a Pod that is not the next target. */
  predicate Steady(p: ChildPod, updateNeeded: bool, revision: string) {
    (updateNeeded ==> p.revision == revision) && !p.terminating && p.available && p.containersReady
  }

  lemma NotSteady(p: ChildPod, updateNeeded: bool, revision: string)
    requires !p.available
    ensures !Steady(p, updateNeeded, revision)
  {
  }

  /** Every Pod but the next target is available and stays, and is updated if the partition has reached it. */
  ghost predicate OthersSteady(pods: seq<ChildPod>, partition: int, revision: string) {
    forall k :: 0 <= k < |pods| && pods[k].ordinal != partition - 1 ==>
      Steady(pods[k], pods[k].ordinal >= partition, revision)
  }

  /** The next target, if present, satisfies the condition of the controller on its own state. */
  ghost predicate TargetLetsGo(pods: seq<ChildPod>, partition: int, healthy: bool) {
    forall k :: 0 <= k < |pods| && pods[k].ordinal == partition - 1 ==> pods[k].ready ==> healthy
  }

  ghost predicate TargetUpdated(pods: seq<ChildPod>, partition: int, revision: string) {
    exists k :: 0 <= k < |pods| && pods[k].ordinal == partition - 1 && pods[k].revision == revision
  }

  /** Lowering the partition to its predecessor reaches an outdated Pod. */
  ghost predicate Exposes(pods: seq<ChildPod>, partition: int, revision: string) {
    exists k :: 0 <= k < |pods| && pods[k].ordinal == partition - 1 && pods[k].revision != revision
  }

  /** The rollout may go on, in terms of ordinals and not of positions in a list. */
  ghost predicate MayLower(pods: seq<ChildPod>, replicas: nat, partition: int, revision: string, healthy: bool) {
    || (|pods| == replicas && Updated(pods, revision))
    || (|pods| == replicas && (TargetUpdated(pods, partition, revision)
                               || (TargetLetsGo(pods, partition, healthy) && OthersSteady(pods, partition, revision))))
  }

  /** The same, in the fields of the Pods. */
  lemma MayLowerByFields(pods: seq<ChildPod>, replicas: nat, partition: int, revision: string, healthy: bool)
    ensures MayLower(pods, replicas, partition, revision, healthy) <==>
              && |pods| == replicas
              && (|| (forall k :: 0 <= k < |pods| ==> pods[k].revision == revision)
                  || (exists k :: 0 <= k < |pods| && pods[k].ordinal == partition - 1 && pods[k].revision == revision)
                  || (forall k :: 0 <= k < |pods| ==>
                        if pods[k].ordinal == partition - 1 then pods[k].ready ==> healthy
                        else && !pods[k].terminating && pods[k].available && pods[k].containersReady
                             && (pods[k].ordinal >= partition ==> pods[k].revision == revision)))
  {
  }

  /** The number of Pods at the update revision, as the status of the StatefulSet reports it. */
  method CountUpdated(pods: seq<ChildPod>, revision: string) returns (n: nat)
    ensures n <= |pods|
    ensures n == |pods| <==> Updated(pods, revision)
  {
    n := 0;
    for k := 0 to |pods|
      invariant n <= k
      invariant n == k <==> Updated(pods[..k], revision)
    {
      assert pods[..k + 1] == pods[..k] + [pods[k]];
      if pods[k].revision == revision {
        n := n + 1;
      } else {
        assert pods[..k + 1][k].revision != revision;
      }
    }
    assert pods[..|pods|] == pods;
  }

  /** -1: no target. */
  function NextTarget(partition: Option<int>): (r: int)
    ensures r == -1 <==> partition == None || partition == Some(0)
  {
    if partition.None? then -1 else partition.value - 1
  }

  /** The loop over the sorted list, by position. */
  method AllChildPodsReady(sorted: seq<ChildPod>, partition: Option<int>, revision: string) returns (r: bool)
    requires partition.Some?
    // by fields: each Pod but the target stays, is available, has ready containers, and is updated if reached
    ensures r <==>
              forall i :: 0 <= i < |sorted| && i != partition.value - 1 ==>
                && !sorted[i].terminating && sorted[i].available && sorted[i].containersReady
                && (i >= partition.value ==> sorted[i].revision == revision)
    ensures r <==> forall i :: 0 <= i < |sorted| && i != partition.value - 1 ==>
              Steady(sorted[i], i >= partition.value, revision)
  {
    var target := NextTarget(partition);
    for i := 0 to |sorted|
      invariant forall k :: 0 <= k < i && k != partition.value - 1 ==> Steady(sorted[k], k >= partition.value, revision)
    {
      var p := sorted[i];
      if i != target {
        if i >= partition.value && p.revision != revision {
          assert !Steady(p, i >= partition.value, revision);
          return false;
        }
        if p.terminating || !p.available || !p.containersReady {
          assert !Steady(p, i >= partition.value, revision);
          return false;
        }
      }
    }
    return true;
  }

  /** What the controller looks at, by position in the list it sorted by name. */
  predicate ReadyByPosition(sorted: seq<ChildPod>, partition: int, revision: string, healthy: bool) {
    && 1 <= partition <= |sorted|
    && (|| sorted[partition - 1].revision == revision
        || (&& (sorted[partition - 1].ready ==> healthy)
            && forall i :: 0 <= i < |sorted| && i != partition - 1 ==> Steady(sorted[i], i >= partition, revision)))
  }

  method IsRolloutReady(prefix: string, pods: seq<ChildPod>, replicas: nat, partition: Option<int>, revision: string,
                        updatedReplicas: int, healthy: bool)
    returns (r: bool)
    requires partition.Some? && 0 <= partition.value <= replicas
    ensures r <==> updatedReplicas == replicas
                   || (&& |pods| == replicas
                       && ReadyByPosition(SortPods(prefix, pods), partition.value, revision, healthy))
  {
    if updatedReplicas == replicas {
      return true;
    }
    var sorted := SortPods(prefix, pods);
    SortBySorts(pods, (p: ChildPod) => PodName(prefix, p.ordinal));
    if replicas != |sorted| {
      return false;
    }
    var target := NextTarget(partition);
    if target < 0 {
      return false;
    }
    if sorted[target].revision == revision {
      return true;
    }
    if sorted[target].ready && !healthy {
      return false;
    }
    r := AllChildPodsReady(sorted, partition, revision);
  }

  /** Up to ten Pods, the decision by position is the decision by ordinal. */
  lemma PositionIsOrdinal(prefix: string, pods: seq<ChildPod>, replicas: nat, partition: int, revision: string,
                          healthy: bool)
    requires PodsOk(pods, replicas) && |pods| == replicas <= 10 && 1 <= partition <= replicas
    ensures ReadyByPosition(SortPods(prefix, pods), partition, revision, healthy)
            <==> TargetUpdated(pods, partition, revision)
                 || (TargetLetsGo(pods, partition, healthy) && OthersSteady(pods, partition, revision))
  {
    var sorted := SortPods(prefix, pods);
    SortedByOrdinal(prefix, pods, replicas);
    ByOrdinal(pods, sorted, replicas, partition, revision, healthy);
  }

  lemma ByOrdinal(pods: seq<ChildPod>, sorted: seq<ChildPod>, replicas: nat, partition: int, revision: string,
                  healthy: bool)
    requires PodsOk(pods, replicas) && |pods| == |sorted| == replicas && 1 <= partition <= replicas
    requires forall i :: 0 <= i < replicas ==> sorted[i].ordinal == i && sorted[i] in pods
    ensures ReadyByPosition(sorted, partition, revision, healthy)
            <==> TargetUpdated(pods, partition, revision)
                 || (TargetLetsGo(pods, partition, healthy) && OthersSteady(pods, partition, revision))
  {
    forall k | 0 <= k < |pods| ensures pods[k] == sorted[pods[k].ordinal] {
      var p := sorted[pods[k].ordinal];
      var j :| 0 <= j < |pods| && pods[j] == p;
      assert pods[j].ordinal == pods[k].ordinal;
    }
    var k :| 0 <= k < |pods| && pods[k] == sorted[partition - 1];
    if OthersSteady(pods, partition, revision) {
      forall i | 0 <= i < replicas && i != partition - 1 ensures Steady(sorted[i], i >= partition, revision) {
        var k :| 0 <= k < |pods| && pods[k] == sorted[i];
      }
    }
  }

  /** Lowering by position never exposes an outdated Pod while another Pod is not steady. */
  ghost predicate LowersSafely(prefix: string, replicas: nat) {
    forall pods, partition, revision, healthy ::
      PodsOk(pods, replicas) && |pods| == replicas && 1 <= partition <= replicas
      && ReadyByPosition(SortPods(prefix, pods), partition, revision, healthy) && Exposes(pods, partition, revision) ==>
        OthersSteady(pods, partition, revision)
  }

  /** n Pods, none available, all at the update revision "b" except those in bad. */
  function AllBut(n: nat, bad: set<nat>): seq<ChildPod> {
    seq(n, i requires 0 <= i < n => ChildPod(i, if i in bad then "a" else "b", false, false, false, false))
  }

  /** Where a Pod is in the sorted list depends on its ordinal alone. */
  lemma SameOrder(prefix: string, xs: seq<ChildPod>, ys: seq<ChildPod>)
    requires |xs| == |ys| && forall i :: 0 <= i < |xs| ==> xs[i].ordinal == ys[i].ordinal
    ensures |SortPods(prefix, xs)| == |SortPods(prefix, ys)|
    ensures forall i :: 0 <= i < |SortPods(prefix, xs)| ==>
              SortPods(prefix, xs)[i].ordinal == SortPods(prefix, ys)[i].ordinal
  {
    SortByCongruent(xs, ys, (p: ChildPod) => PodName(prefix, p.ordinal), (p: ChildPod) => p.ordinal);
  }

  lemma SamePods(prefix: string, pods: seq<ChildPod>)
    ensures multiset(SortPods(prefix, pods)) == multiset(pods) && |SortPods(prefix, pods)| == |pods|
  {
    SortBySorts(pods, (p: ChildPod) => PodName(prefix, p.ordinal));
  }

  /** The Pods in bad are not where the decision looks: the controller lowers the partition to t. */
  lemma LowersTo(prefix: string, replicas: nat, t: nat, bad: set<nat>)
    requires t < replicas
    requires var sorted := SortPods(prefix, AllBut(replicas, {}));
             |sorted| == replicas && sorted[t].ordinal !in bad
    ensures ReadyByPosition(SortPods(prefix, AllBut(replicas, bad)), t + 1, "b", true)
  {
    hide SortPods, PodName, Steady;
    var pods := AllBut(replicas, bad);
    SamePods(prefix, pods);
    SameOrder(prefix, pods, AllBut(replicas, {}));
    assert SortPods(prefix, pods)[t] in multiset(pods);
  }

  lemma UnsafeAboveTen(prefix: string, replicas: nat)
    requires replicas > 10
    ensures !LowersSafely(prefix, replicas)
  {
    hide SortPods, PodName, Steady, ReadyByPosition;
    var t := Displaced(prefix, replicas);
    var pods := AllBut(replicas, {t});
    LowersTo(prefix, replicas, t, {t});
    assert pods[t].ordinal == t;
    assert Exposes(pods, t + 1, "b");
    var other := if t == 0 then 1 else 0;
    assert !Steady(pods[other], other >= t + 1, "b") by {
      NotSteady(pods[other], other >= t + 1, "b");
    }
    assert !OthersSteady(pods, t + 1, "b");
  }

  /** Exactly up to ten replicas does sorting by name make every exposure harmless. */
  lemma SafeExactlyToTen(prefix: string, replicas: nat)
    ensures LowersSafely(prefix, replicas) <==> replicas <= 10
  {
    if replicas <= 10 {
      forall pods, partition, revision, healthy |
        PodsOk(pods, replicas) && |pods| == replicas && 1 <= partition <= replicas
        && ReadyByPosition(SortPods(prefix, pods), partition, revision, healthy) && Exposes(pods, partition, revision)
        ensures OthersSteady(pods, partition, revision)
      {
        PositionIsOrdinal(prefix, pods, replicas, partition, revision, healthy);
      }
    } else {
      UnsafeAboveTen(prefix, replicas);
    }
  }

  /** With more than ten Pods, one of the first three positions of the sorted list holds another Pod. */
  lemma Displaced(prefix: string, replicas: nat) returns (t: nat)
    requires replicas > 10
    ensures var sorted := SortPods(prefix, AllBut(replicas, {}));
            |sorted| == replicas && t <= 2 && sorted[t].ordinal != t
  {
    var key := (p: ChildPod) => PodName(prefix, p.ordinal);
    var pods := AllBut(replicas, {});
    var sorted := SortPods(prefix, pods);
    SortBySorts(pods, key);
    if sorted[2].ordinal != 2 {
      return 2;
    }
    assert pods[10] in multiset(sorted);
    var q :| 0 <= q < |sorted| && sorted[q] == pods[10];
    if q > 2 {
      assert !Less(key(sorted[q]), key(sorted[2]));
      TenComesThird(prefix, 2);
    }
    return q;
  }

  /** Lowering by position never leaves two outdated Pods at or above the partition. */
  ghost predicate KeepsOneOutdated(prefix: string, replicas: nat) {
    forall pods, partition, revision, healthy ::
      PodsOk(pods, replicas) && |pods| == replicas && 1 <= partition <= replicas
      && ReadyByPosition(SortPods(prefix, pods), partition, revision, healthy)
      && |Outdated(pods, partition, revision)| <= 1 ==>
        |Outdated(pods, partition - 1, revision)| <= 1
  }

  /** Exactly up to ten replicas does the controller keep at most one outdated Pod at or above the partition. */
  lemma OneOutdatedExactlyToTen(prefix: string, replicas: nat)
    ensures KeepsOneOutdated(prefix, replicas) <==> replicas <= 10
  {
    hide SortPods, PodName, ReadyByPosition, PodsOk, Outdated;
    if replicas <= 10 {
      forall pods, partition, revision, healthy |
        PodsOk(pods, replicas) && |pods| == replicas && 1 <= partition <= replicas
        && ReadyByPosition(SortPods(prefix, pods), partition, revision, healthy)
        && |Outdated(pods, partition, revision)| <= 1
        ensures |Outdated(pods, partition - 1, revision)| <= 1
      {
        PositionIsOrdinal(prefix, pods, replicas, partition, revision, healthy);
        OneMoreReached(pods, replicas, partition, revision);
      }
    } else {
      TwoOutdated(prefix, replicas);
    }
  }

  /** Lowering by ordinal: an outdated Pod is reached only if the others are updated. */
  lemma OneMoreReached(pods: seq<ChildPod>, replicas: nat, partition: int, revision: string)
    requires PodsOk(pods, replicas) && 1 <= partition && |Outdated(pods, partition, revision)| <= 1
    requires TargetUpdated(pods, partition, revision) || OthersSteady(pods, partition, revision)
             || Updated(pods, revision)
    ensures |Outdated(pods, partition - 1, revision)| <= 1
    ensures Exposes(pods, partition, revision) ==> OthersSteady(pods, partition, revision)
  {
    var after, before := Outdated(pods, partition - 1, revision), Outdated(pods, partition, revision);
    if k :| 0 <= k < |pods| && pods[k].ordinal == partition - 1 && pods[k].revision != revision {
      assert !TargetUpdated(pods, partition, revision);
      assert after <= {pods[k].ordinal};
      SubsetCard(after, {pods[k].ordinal});
    } else {
      assert after == before;
    }
  }

  /**
   More than ten Pods, all updated but two: the first displaced position t and a later Pod u.  The decision to lower
   the partition from t + 1 to t looks at another Pod, and then two outdated Pods are reached.
   */
  lemma TwoOutdated(prefix: string, replicas: nat)
    requires replicas > 10
    ensures !KeepsOneOutdated(prefix, replicas)
  {
    hide SortPods, PodName, ReadyByPosition, Outdated, AllBut, PodsOk;
    var t := Displaced(prefix, replicas);
    var u := if SortPods(prefix, AllBut(replicas, {}))[t].ordinal == t + 1 then t + 2 else t + 1;
    var pods := AllBut(replicas, {t, u});
    LowersTo(prefix, replicas, t, {t, u});
    OutdatedAllBut(replicas, t, u);
    AllButOk(replicas, {t, u});
  }

  /**
   The smallest such cluster: of eleven Pods, Pod 10 is third in the list.  With the partition at 3 and Pods 2 and 3
   outdated, the controller looks at Pod 10 and lowers the partition, and both outdated Pods are reached.
   */
  lemma ElevenPods(prefix: string, pods: seq<ChildPod>, revision: string)
    requires |pods| == 11 && forall i :: 0 <= i < |pods| ==> pods[i].ordinal == i
    requires forall i :: 0 <= i < |pods| ==> (pods[i].revision != revision <==> i == 2 || i == 3)
    ensures |SortPods(prefix, pods)| == |pods| && SortPods(prefix, pods)[2].ordinal == 10
    ensures ReadyByPosition(SortPods(prefix, pods), 3, revision, true)
    ensures Outdated(pods, 3, revision) == {3} && Outdated(pods, 2, revision) == {2, 3}
  {
    hide SortPods, PodName;
    var q := PositionOf(prefix, pods, 10);
    ThirdOfEleven(prefix, pods, q);
    var third := SortPods(prefix, pods)[2];
    assert third in multiset(pods) by { SamePods(prefix, pods); }
    assert pods[2].ordinal == 2 && pods[3].ordinal == 3;
  }

  lemma PositionOf(prefix: string, pods: seq<ChildPod>, o: nat) returns (q: nat)
    requires o < |pods|
    ensures |SortPods(prefix, pods)| == |pods| && q < |pods| && SortPods(prefix, pods)[q] == pods[o]
  {
    SamePods(prefix, pods);
    assert pods[o] in multiset(SortPods(prefix, pods));
    q :| 0 <= q < |pods| && SortPods(prefix, pods)[q] == pods[o];
  }

  /** The sorted list is in name order and has no Pod twice. */
  lemma SortedFacts(prefix: string, pods: seq<ChildPod>, i: nat, j: nat)
    requires (forall k :: 0 <= k < |pods| ==> pods[k].ordinal == k) && i < j < |pods|
    ensures var sorted := SortPods(prefix, pods);
            && |sorted| == |pods| && sorted[i].ordinal != sorted[j].ordinal && sorted[i].ordinal < |pods|
            && !Less(PodName(prefix, sorted[j].ordinal), PodName(prefix, sorted[i].ordinal))
  {
    var key := (p: ChildPod) => PodName(prefix, p.ordinal);
    var id := (p: ChildPod) => p.ordinal;
    var sorted := SortPods(prefix, pods);
    SortBySorts(pods, key);
    assert Distinct(pods, id);
    SortByDistinct(pods, key, id);
    assert id(sorted[i]) != id(sorted[j]) && !Less(key(sorted[j]), key(sorted[i]));
    assert sorted[i] in multiset(pods);
  }

  lemma BeforeTen(prefix: string, pods: seq<ChildPod>, q: nat, o: nat) returns (x: nat)
    requires o < 2 && |pods| == 11 && forall i :: 0 <= i < |pods| ==> pods[i].ordinal == i
    requires |SortPods(prefix, pods)| == |pods| && q < |pods| && SortPods(prefix, pods)[q].ordinal == 10
    ensures x < q && SortPods(prefix, pods)[x].ordinal == o
  {
    hide SortPods, PodName, Less;
    x := PositionOf(prefix, pods, o);
    TenComesThird(prefix, o);
    if x > q {
      SortedFacts(prefix, pods, q, x);
    }
  }

  lemma ThirdOfEleven(prefix: string, pods: seq<ChildPod>, q: nat)
    requires |pods| == 11 && forall i :: 0 <= i < |pods| ==> pods[i].ordinal == i
    requires |SortPods(prefix, pods)| == |pods| && q < |pods| && SortPods(prefix, pods)[q].ordinal == 10
    ensures q == 2
  {
    hide SortPods, PodName, Less;
    var sorted := SortPods(prefix, pods);
    var x := BeforeTen(prefix, pods, q, 0);
    var y := BeforeTen(prefix, pods, q, 1);
    if q > 2 {
      forall i | 0 <= i < 3 ensures sorted[i].ordinal < 2 {
        SortedFacts(prefix, pods, i, q);
        TenComesThird(prefix, sorted[i].ordinal);
      }
      SortedFacts(prefix, pods, 0, 1);
      SortedFacts(prefix, pods, 0, 2);
      SortedFacts(prefix, pods, 1, 2);
    }
  }

  // ----- completion -----

  /**
   While all Pods are steady, the reached ones updated, and the cluster is healthy, the controller goes on lowering
   the partition, until it is 0.
   */
  ghost predicate GoesOn(prefix: string, replicas: nat) {
    forall pods, partition, revision ::
      PodsOk(pods, replicas) && |pods| == replicas && 1 <= partition <= replicas
      && AllSteady(pods, partition, revision) ==>
        ReadyByPosition(SortPods(prefix, pods), partition, revision, true)
  }

  ghost predicate AllSteady(pods: seq<ChildPod>, partition: int, revision: string) {
    forall k :: 0 <= k < |pods| ==> Steady(pods[k], pods[k].ordinal >= partition, revision)
  }

  /** Exactly up to ten replicas does a rollout without incidents go on to the end. */
  lemma GoesOnExactlyToTen(prefix: string, replicas: nat)
    ensures GoesOn(prefix, replicas) <==> replicas <= 10
  {
    hide SortPods, PodName, ReadyByPosition, PodsOk, Steady;
    if replicas <= 10 {
      forall pods, partition, revision |
        PodsOk(pods, replicas) && |pods| == replicas && 1 <= partition <= replicas
        && AllSteady(pods, partition, revision)
        ensures ReadyByPosition(SortPods(prefix, pods), partition, revision, true)
      {
        PositionIsOrdinal(prefix, pods, replicas, partition, revision, true);
      }
    } else {
      StuckAboveTen(prefix, replicas);
    }
  }

  /** n steady Pods, updated from Pod p on. */
  function UpdatedFrom(n: nat, p: nat): seq<ChildPod> {
    seq(n, i requires 0 <= i < n => ChildPod(i, if i >= p then "b" else "a", true, true, false, true))
  }

  lemma UpdatedFromOk(n: nat, p: nat)
    ensures |UpdatedFrom(n, p)| == n && PodsOk(UpdatedFrom(n, p), n) && AllSteady(UpdatedFrom(n, p), p, "b")
    ensures forall i :: 0 <= i < n ==> UpdatedFrom(n, p)[i].ordinal == i
  {
  }

  /** Pod a, whose name comes first, is before Pod b in the list. */
  lemma Precedes(prefix: string, pods: seq<ChildPod>, a: nat, b: nat, qa: nat, qb: nat)
    requires forall k :: 0 <= k < |pods| ==> pods[k].ordinal == k
    requires |SortPods(prefix, pods)| == |pods| && qa < |pods| && qb < |pods|
    requires SortPods(prefix, pods)[qa].ordinal == a && SortPods(prefix, pods)[qb].ordinal == b
    requires a != b && Less(PodName(prefix, a), PodName(prefix, b))
    ensures qa < qb
  {
    hide SortPods, PodName, Less;
    if qb < qa {
      SortedFacts(prefix, pods, qb, qa);
    }
  }

  /** Pods 0, 1 and 10 come before Pod 2, and Pod 3 after it. */
  lemma AroundTwo(prefix: string, pods: seq<ChildPod>) returns (q: nat, r: nat)
    requires |pods| > 10 && forall k :: 0 <= k < |pods| ==> pods[k].ordinal == k
    ensures |SortPods(prefix, pods)| == |pods| && 3 <= q < r < |pods|
    ensures SortPods(prefix, pods)[q] == pods[2] && SortPods(prefix, pods)[r] == pods[3]
  {
    hide SortPods, PodName, Less;
    q := PositionOf(prefix, pods, 2);
    r := PositionOf(prefix, pods, 3);
    var x := PositionOf(prefix, pods, 0);
    var y := PositionOf(prefix, pods, 1);
    var z := PositionOf(prefix, pods, 10);
    NameOrder(prefix, 2, 3);
    NameOrder(prefix, 0, 2);
    NameOrder(prefix, 1, 2);
    TenComesThird(prefix, 2);
    Precedes(prefix, pods, 2, 3, q, r);
    Precedes(prefix, pods, 0, 2, x, q);
    Precedes(prefix, pods, 1, 2, y, q);
    Precedes(prefix, pods, 10, 2, z, q);
  }

  /** With the partition just above the position of Pod 2, the decision looks at Pod 2 and waits for Pod 3. */
  lemma StuckAboveTen(prefix: string, replicas: nat)
    requires replicas > 10
    ensures !GoesOn(prefix, replicas)
  {
    hide SortPods, PodName, PodsOk, AllSteady, UpdatedFrom;
    var any := UpdatedFrom(replicas, 0);
    UpdatedFromOk(replicas, 0);
    var q, r := AroundTwo(prefix, any);
    var pods := UpdatedFrom(replicas, q + 1);
    UpdatedFromOk(replicas, q + 1);
    SameOrder(prefix, any, pods);
    OldBelow(prefix, replicas, q + 1, q);
    OldBelow(prefix, replicas, q + 1, r);
    assert !Steady(SortPods(prefix, pods)[r], r >= q + 1, "b");
    assert !ReadyByPosition(SortPods(prefix, pods), q + 1, "b", true);
  }

  lemma OldBelow(prefix: string, n: nat, p: nat, x: nat)
    requires x < n == |SortPods(prefix, UpdatedFrom(n, p))| && SortPods(prefix, UpdatedFrom(n, p))[x].ordinal < p
    ensures SortPods(prefix, UpdatedFrom(n, p))[x].revision != "b"
  {
    hide SortPods;
    SamePods(prefix, UpdatedFrom(n, p));
    assert SortPods(prefix, UpdatedFrom(n, p))[x] in multiset(UpdatedFrom(n, p));
  }

  /** A rollout of eleven Pods stops at once: with the partition at 10 it waits for Pod 9, which is below it. */
  lemma ElevenStuck(prefix: string, pods: seq<ChildPod>, revision: string, healthy: bool)
    requires |pods| == 11 && forall i :: 0 <= i < |pods| ==> pods[i].ordinal == i
    requires forall i :: 0 <= i < 10 ==> pods[i].revision != revision
    ensures !ReadyByPosition(SortPods(prefix, pods), 10, revision, healthy)
  {
    hide SortPods, PodName;
    SamePods(prefix, pods);
    var q := PositionOf(prefix, pods, 10);
    ThirdOfEleven(prefix, pods, q);
    SortedFacts(prefix, pods, 2, 9);
    SortedFacts(prefix, pods, 2, 10);
    var sorted := SortPods(prefix, pods);
    assert sorted[9] in multiset(pods) && sorted[10] in multiset(pods);
    assert !Steady(sorted[10], true, revision);
  }

  lemma AllButOk(n: nat, bad: set<nat>)
    ensures |AllBut(n, bad)| == n && PodsOk(AllBut(n, bad), n)
  {
  }

  lemma OutdatedAllBut(n: nat, t: nat, u: nat)
    requires t < u < n
    ensures Outdated(AllBut(n, {t, u}), t + 1, "b") == {u} && Outdated(AllBut(n, {t, u}), t, "b") == {t, u}
    ensures |{t, u}| == 2
  {
    var pods := AllBut(n, {t, u});
    assert pods[t].ordinal == t && pods[t].revision != "b";
    assert pods[u].ordinal == u && pods[u].revision != "b";
  }

  // ----- the two parties together -----

  datatype PatchReply = Applied | Refused | LostReply   // LostReply: applied, but the controller sees an error
  datatype Outcome = Idle | Requeue | Lowered | Failure

  /** What a run is judged by. patches: how often the partition was lowered since it was last reset. */
  datatype Snapshot = Snapshot(
    pods: seq<ChildPod>,
    limit: nat,              // spec.replicas of the MySQLCluster
    replicas: int,           // of the StatefulSet: the same, or 0 while the cluster is offline
    partition: int,
    revision: string,
    patches: nat)

  /** The ordinals from the partition up to the number of replicas whose Pods are outdated. */
  ghost function Reached(s: Snapshot): set<nat> {
    set o | o in Outdated(s.pods, s.partition, s.revision) && o < s.replicas
  }

  /** The partition and the next target are in range, and at most one Pod that the partition has reached is outdated. */
  ghost predicate Sound(s: Snapshot) {
    && (s.replicas == 0 || s.replicas == s.limit)
    && 0 <= s.partition <= s.replicas
    && s.partition + s.patches == s.replicas
    && PodsOk(s.pods, s.limit)
    && (s.replicas <= 10 ==> |Reached(s)| <= 1)
  }

  /** While the cluster is online, all outdated Pods from the partition on count. */
  lemma AllReached(s: Snapshot)
    requires PodsOk(s.pods, s.limit) && s.replicas == s.limit
    ensures Reached(s) == Outdated(s.pods, s.partition, s.revision)
  {
  }

  /**
   A step keeps the partition, resets it to the number of replicas, or lowers it by one, the last only when that is
   harmless.
   */
  ghost predicate MoveOk(a: Snapshot, b: Snapshot) {
    && Sound(a) && Sound(b) && a.limit <= b.limit
    && (|| (b.partition == a.partition && b.patches == a.patches && b.replicas == a.replicas)
        || (b.partition == b.replicas && b.patches == 0)
        || (&& b == a.(partition := a.partition - 1, patches := a.patches + 1)
            && (a.replicas <= 10 && Exposes(a.pods, a.partition, a.revision) ==>
                  |a.pods| == a.replicas && OthersSteady(a.pods, a.partition, a.revision))))
  }

  /** Lowering the partition when the controller does leaves at most one outdated Pod. */
  lemma LoweringKeepsSound(a: Snapshot, healthy: bool)
    requires Sound(a) && a.partition > 0
    requires a.replicas <= 10 ==> MayLower(a.pods, a.replicas, a.partition, a.revision, healthy)
    ensures MoveOk(a, a.(partition := a.partition - 1, patches := a.patches + 1))
  {
    AllReached(a);
    AllReached(a.(partition := a.partition - 1));
    if a.replicas <= 10 {
      OneMoreReached(a.pods, a.replicas, a.partition, a.revision);
    }
  }

  /** There is one Pod of each ordinal. */
  lemma DistinctTargets(a: Snapshot)
    requires Sound(a)
    ensures forall j, k :: 0 <= j < |a.pods| && 0 <= k < |a.pods| && a.pods[j].ordinal == a.pods[k].ordinal ==> j == k
    ensures a.replicas >= 0
  {
  }

  lemma Stays(a: Snapshot)
    requires Sound(a)
    ensures MoveOk(a, a)
  {
  }

  /** A reset: nothing is at or above the partition. */
  lemma ResetIsSound(a: Snapshot)
    requires (a.replicas == 0 || a.replicas == a.limit) && PodsOk(a.pods, a.limit)
    requires a.partition == a.replicas && a.patches == 0
    ensures Sound(a)
  {
    assert Reached(a) == {};
  }

  lemma ResetMoves(a: Snapshot, b: Snapshot)
    requires Sound(a) && b.pods == a.pods && a.limit <= b.limit && (b.replicas == 0 || b.replicas == b.limit)
    requires b.partition == b.replicas && b.patches == 0
    ensures Sound(b) && MoveOk(a, b)
  {
    ResetIsSound(b);
  }

  /** Replacing, adding or removing a Pod, when what is at or above the partition comes back updated. */
  lemma PodsMoveSound(a: Snapshot, pods: seq<ChildPod>)
    requires Sound(a) && PodsOk(pods, a.limit)
    requires forall k :: 0 <= k < |pods| && pods[k].ordinal >= a.partition && pods[k].revision != a.revision ==>
               exists j :: 0 <= j < |a.pods| && a.pods[j].ordinal == pods[k].ordinal && a.pods[j].revision != a.revision
    ensures MoveOk(a, a.(pods := pods))
  {
    assert Outdated(pods, a.partition, a.revision) <= Outdated(a.pods, a.partition, a.revision);
    SubsetCard(Reached(a.(pods := pods)), Reached(a));
  }

  /** Each move starts where the one before ended, the first at a, and the last ends at b. */
  ghost predicate Linked(moves: seq<(Snapshot, Snapshot)>, a: Snapshot, b: Snapshot) {
    if moves == [] then a == b else Linked(moves[..|moves| - 1], a, moves[|moves| - 1].0) && moves[|moves| - 1].1 == b
  }

  class Rolling {
    const prefix: string
    const sts: StatefulSet
    var limit: nat               // spec.replicas of the MySQLCluster
    var pods: seq<ChildPod>
    var generation: nat
    var observed: nat            // status.observedGeneration
    var updateRevision: string   // status.updateRevision
    ghost var patches: nat

    ghost function Now(): Snapshot
      reads this, sts
    {
      Snapshot(pods, limit, sts.replicas, if sts.partition.Some? then sts.partition.value else 0,
               updateRevision, patches)
    }

    ghost predicate Valid()
      reads this, sts
    {
      && sts.Managed() && !sts.force && sts.partition.Some? && Sound(Now())
      // the revision in the status is that of the template, unless a reset has not been observed
      && (updateRevision == sts.template || (sts.partition.value == sts.replicas && observed != generation))
      && observed <= generation
    }

    /** A StatefulSet as it is first created: the webhook gives it a partition. */
    constructor (prefix: string, owner: Owner, replicas: nat, strategy: Strategy, template: string)
      requires owner.kind == "MySQLCluster" || owner.apiVersion == GROUP_VERSION
      ensures Valid() && fresh(sts) && sts.partition == Some(replicas) && patches == 0
    {
      this.prefix := prefix;
      sts := new StatefulSet([owner], false, replicas, None, strategy, template);
      limit, pods, generation, observed, updateRevision, patches := replicas, [], 1, 0, template, 0;
      new;
      var r := sts.Default(Create, None);
      ResetIsSound(Now());
    }

    /**
     The MySQLCluster changes, or anyone updates the StatefulSet but for its replicas and partition: the partition is
     left as it was or not mentioned.  A cluster that is offline has no replicas.
     */
    method UserUpdate(more: nat, offline: bool, strategy: Strategy, template: string, keepPartition: bool)
      requires Valid() && limit <= more
      modifies this`limit, this`generation, this`patches, sts
      ensures Valid() && limit == more && sts.replicas == (if offline then 0 else more)
      ensures sts.partition == Some(sts.replicas) && sts.template == template
      ensures MoveOk(old(Now()), Now())
    {
      hide Sound, MoveOk;
      ghost var a := Now();
      var changed := sts.Replace(if offline then 0 else more, strategy, template, keepPartition);
      limit, patches := more, 0;
      if changed {
        generation := generation + 1;
      }
      ResetMoves(a, Now());
    }

    /** The StatefulSet controller sees the newest object. */
    method ObserveSpec()
      requires Valid()
      modifies this`observed, this`updateRevision
      ensures Valid() && observed == generation && updateRevision == sts.template
      ensures MoveOk(old(Now()), Now())
    {
      observed, updateRevision := generation, sts.template;
      if sts.partition.value == sts.replicas {
        ResetIsSound(Now().(patches := 0));
      }
    }

    /** A Pod vanishes. */
    method PodGone(k: nat)
      requires Valid() && k < |pods|
      modifies this`pods
      ensures Valid() && MoveOk(old(Now()), Now())
    {
      ghost var a := Now();
      pods := pods[..k] + pods[k + 1..];
      PodsMoveSound(a, pods);
    }

    /** A Pod is created. One at or above the partition is made from the update revision. */
    method PodBorn(p: ChildPod)
      requires Valid() && p.ordinal < sts.replicas
      requires forall k :: 0 <= k < |pods| ==> pods[k].ordinal != p.ordinal
      requires p.ordinal >= sts.partition.value ==> p.revision == updateRevision
      modifies this`pods
      ensures Valid() && MoveOk(old(Now()), Now())
    {
      ghost var a := Now();
      pods := pods + [p];
      PodsMoveSound(a, pods);
    }

    /** A Pod's state changes in any way; its name and its revision do not. */
    method PodChanged(k: nat, p: ChildPod)
      requires Valid() && k < |pods| && p.ordinal == pods[k].ordinal && p.revision == pods[k].revision
      modifies this`pods
      ensures Valid() && MoveOk(old(Now()), Now())
    {
      ghost var a := Now();
      pods := pods[k := p];
      PodsMoveSound(a, pods);
    }

    /** The patch goes through the webhook. */
    method PatchNewPartition(reply: PatchReply) returns (ok: bool)
      requires Valid() && sts.partition.value > 0
      requires MoveOk(Now(), Now().(partition := sts.partition.value - 1, patches := patches + 1))
      requires updateRevision == sts.template
      modifies this`generation, this`patches, sts
      ensures Valid() && (ok <==> reply == Applied)
      ensures MoveOk(old(Now()), Now())
      ensures Now() == if reply == Refused then old(Now()) else
                old(Now()).(partition := old(Now()).partition - 1, patches := old(patches) + 1)
    {
      if reply == Refused {
        return false;
      }
      var was := sts.AsOld();
      sts.partition := Some(sts.partition.value - 1);
      var r := sts.Default(Update, Some(was));
      generation, patches := generation + 1, patches + 1;
      return reply == Applied;
    }

    /** The decision, with the status of the StatefulSet counted from the Pods. None: the Pods could not be listed. */
    method Decide(healthy: bool, listed: bool) returns (ready: Option<bool>)
      requires Valid() && sts.partition.value > 0
      ensures listed ==> ready.Some?
      ensures ready.Some? && sts.replicas <= 10 ==>
                (ready.value <==> MayLower(pods, sts.replicas, sts.partition.value, updateRevision, healthy))
      ensures ready == Some(true) ==>
                MoveOk(Now(), Now().(partition := sts.partition.value - 1, patches := patches + 1))
    {
      hide ReadyByPosition, OthersSteady, TargetUpdated, TargetLetsGo, MoveOk, Outdated;
      var n := CountUpdated(pods, updateRevision);
      AtMostReplicas(pods, sts.replicas);
      if !listed && n != sts.replicas {
        return None;
      }
      var r := IsRolloutReady(prefix, pods, sts.replicas, sts.partition, updateRevision, n, healthy);
      if |pods| == sts.replicas <= 10 {
        PositionIsOrdinal(prefix, pods, sts.replicas, sts.partition.value, updateRevision, healthy);
      }
      if r {
        LoweringKeepsSound(Now(), healthy);
      }
      return Some(r);
    }

    /**
     One reconciliation. clusterSeen: the MySQLCluster was reconciled at its current generation;
     allowed: the rate limiter lets a patch through; listed: the Pod list could be read.
     */
    method Reconcile(clusterSeen: bool, healthy: bool, listed: bool, allowed: bool, reply: PatchReply)
        returns (r: Outcome)
      requires Valid()
      modifies this`generation, this`patches, sts
      ensures Valid() && MoveOk(old(Now()), Now())
      // with at most ten Pods, exactly when the rollout may go on the partition goes down by exactly one
      ensures old(sts.replicas) <= 10 && listed ==>
                (Now() == old(Now()).(partition := old(Now()).partition - 1, patches := old(patches) + 1)
                 <==> && clusterSeen && old(generation == observed) && old(Now()).partition > 0
                      && allowed && reply != Refused
                      && MayLower(pods, sts.replicas, old(Now()).partition, updateRevision, healthy))
      ensures || Now() == old(Now())
              || Now() == old(Now()).(partition := old(Now()).partition - 1, patches := old(patches) + 1)
      ensures r == Lowered ==> Now() != old(Now())
      // when an outdated Pod is newly reached, every other Pod stays, is available and ready, and is updated if reached
      ensures var p := old(Now()).partition;
              && old(sts.replicas) <= 10 && Now() != old(Now())
              && (exists k :: 0 <= k < |pods| && pods[k].ordinal == p - 1 && pods[k].revision != updateRevision) ==>
                && |pods| == sts.replicas
                && forall k :: 0 <= k < |pods| ==>
                     if pods[k].ordinal == p - 1 then pods[k].ready ==> healthy
                     else && !pods[k].terminating && pods[k].available && pods[k].containersReady
                          && (pods[k].ordinal >= p ==> pods[k].revision == updateRevision)
      // and when the partition is kept although nothing else is in the way, some Pod is not so
      ensures var p := old(Now()).partition;
              && old(sts.replicas) <= 10 && Now() == old(Now()) && clusterSeen && old(generation == observed) && p > 0
              && listed && allowed && reply != Refused && |pods| == sts.replicas ==>
                && (forall k :: 0 <= k < |pods| && pods[k].ordinal == p - 1 ==> pods[k].revision != updateRevision)
                && exists k :: 0 <= k < |pods| &&
                     if pods[k].ordinal == p - 1 then pods[k].ready && !healthy
                     else || pods[k].terminating || !pods[k].available || !pods[k].containersReady
                          || (pods[k].ordinal >= p && pods[k].revision != updateRevision)
    {
      hide MayLower, MoveOk, Sound;
      Stays(Now());
      DistinctTargets(Now());
      MayLowerByFields(pods, sts.replicas, sts.partition.value, updateRevision, healthy);
      if !clusterSeen || generation != observed {
        return Requeue;
      }
      if sts.force || sts.partition.None? || sts.partition.value <= 0 {
        return Idle;
      }
      var ready := Decide(healthy, listed);
      if ready.None? {
        return Failure;
      }
      if !ready.value {
        return Requeue;
      }
      if !allowed {
        return Requeue;
      }
      var ok := PatchNewPartition(reply);
      return if ok then Lowered else Failure;
    }

    /** Any run: users, the StatefulSet controller, Pods and this controller take turns in any order. */
    method Run(turns: nat) returns (ghost moves: seq<(Snapshot, Snapshot)>)
      requires Valid()
      modifies this`limit, this`pods, this`generation, this`observed, this`updateRevision, this`patches, sts
      ensures Valid()
      ensures forall k :: 0 <= k < |moves| ==> MoveOk(moves[k].0, moves[k].1)
      ensures Linked(moves, old(Now()), Now()) && |moves| == turns
    {
      moves := [];
      for turn := 0 to turns
        invariant Valid() && Linked(moves, old(Now()), Now()) && |moves| == turn
        invariant forall k :: 0 <= k < |moves| ==> MoveOk(moves[k].0, moves[k].1)
      {
        ghost var a := Now();
        Turn();
        moves := moves + [(a, Now())];
      }
    }

    method Turn()
      requires Valid()
      modifies this`limit, this`pods, this`generation, this`observed, this`updateRevision, this`patches, sts
      ensures Valid() && MoveOk(old(Now()), Now())
    {
      ghost var a := Now();
      var k: int, p: ChildPod := *, *;
      if {
        case true =>
          var more: int, offline: bool, strategy: Strategy, template: string, keep: bool := *, *, *, *, *;
          UserUpdate(if more > limit then more else limit, offline, strategy, template, keep);
        case true => ObserveSpec();
        case 0 <= k < |pods| => PodGone(k);
        case 0 <= k < |pods| => PodChanged(k, p.(ordinal := pods[k].ordinal, revision := pods[k].revision));
        case p.ordinal < sts.replicas && (forall j :: 0 <= j < |pods| ==> pods[j].ordinal != p.ordinal) =>
          PodBorn(if p.ordinal >= sts.partition.value then p.(revision := updateRevision) else p);
        case true =>
          var seen: bool, healthy: bool, listed: bool, allowed: bool, reply: PatchReply := *, *, *, *, *;
          var r := Reconcile(seen, healthy, listed, allowed, reply);
      }
    }
  }
}
