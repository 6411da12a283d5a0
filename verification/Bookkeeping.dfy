/** What is recorded of a cluster, over rounds and over changes of its specification. */
module Bookkeeping {
  import opened Basics
  import opened Status
  import opened Gather
  import opened Process
  import D = Dbop

  /** The parts of the specification that bear on the record. */
  datatype Settings = Settings(replicas: int, source: Option<string>, restore: Option<string>, offline: bool)

  /** The update of the specification passes validation. */
  predicate Admits(was: Settings, now: Settings) {
    && now.replicas % 2 == 1 && now.replicas > 0
    && was.replicas <= now.replicas
    && (now.source.Some? ==> now.source == was.source)
    && now.restore == was.restore
  }

  /** The record after a round, and the state that the round found. */
  datatype Entry = Entry(state: ClusterState, replicas: int, primary: nat, errants: seq<nat>, cloned: bool)

  predicate InRange(replicas: int, primary: nat, errants: seq<nat>) {
    primary < replicas && forall k :: 0 <= k < |errants| ==> errants[k] < replicas && errants[k] != primary
  }

  /** Nothing shrinks, and a clone once recorded as complete is never waited for again. */
  predicate Advances(a: Entry, b: Entry) {
    && a.replicas <= b.replicas
    && (a.cloned ==> b.cloned && b.state != Cloning)
  }

  /** The primary does not show a completed clone. */
  predicate Unfinished(status: Option<D.Status>) {
    match status
    case None => true
    case Some(pst) => if pst.clone.Some? then pst.clone.value != "Completed" else pst.executed == {}
  }

  class Record {
    var spec: Settings
    var primary: nat        // status.currentPrimaryIndex
    var errants: seq<nat>   // status.errantReplicaList
    var cloned: bool        // status.cloned

    predicate Valid()
      reads this
    {
      spec.replicas % 2 == 1 && spec.replicas > 0 && InRange(spec.replicas, primary, errants)
    }

    constructor (spec: Settings)
      requires spec.replicas % 2 == 1 && spec.replicas > 0
      ensures Valid() && this.spec == spec && primary == 0 && errants == [] && !cloned
    {
      this.spec, primary, errants, cloned := spec, 0, [], false;
    }

    /** Any number of admitted updates of the specification. */
    method ChangeSpec()
      requires Valid()
      modifies this`spec
      ensures Valid() && old(spec).replicas <= spec.replicas && spec.restore == old(spec).restore
      ensures spec.source.Some? ==> spec.source == old(spec).source
    {
      var steps: int := *;
      while steps > 0
        invariant Valid() && old(spec).replicas <= spec.replicas && spec.restore == old(spec).restore
        invariant spec.source.Some? ==> spec.source == old(spec).source
      {
        var now: Settings := *;
        if Admits(spec, now) {
          spec := now;
        }
        steps := steps - 1;
      }
    }

    /** The gather, on whatever the instances answer.  found: how many Pods exist. */
    method Look(found: nat, pods: seq<Pod>, status: seq<Option<D.Status>>, restored: bool, idBase: int, maxDelay: int)
        returns (ss: StatusSet?)
      requires Valid() && |status| == |pods| == spec.replicas
      requires forall i :: 0 <= i < |status| && status[i].Some? ==> !status[i].value.isErrant
      ensures ss != null ==> fresh(ss) && WellFormed(ss.seen) && ss.seen.spec.replicas == spec.replicas
      ensures ss != null ==> ErrantsMatch(ss.seen.status, ss.errants, primary) && ss.seen.primary == primary
      ensures ss != null && ss.needSwitch ==> SwitchTarget(ss.seen, ss.candidate)
      ensures ss != null ==>
                (ss.state == Cloning <==> !spec.offline && spec.source.Some? && !cloned && Unfinished(status[primary]))
      ensures ss != null && (status[primary].None? || status[primary].value.executed == {}) ==> ss.errants == errants
      ensures ss != null && status[primary].Some? && status[primary].value.executed != {} ==>
                forall i: nat :: i in ss.errants <==>
                  && i < |status| && i != primary && status[i].Some?
                  && exists g :: g in status[i].value.executed - status[primary].value.executed
                                 && g.origin != status[primary].value.uuid
    {
      if !spec.offline && found != spec.replicas {
        return null;
      }
      var failed, kept, listed := Judge(status, primary, errants);
      if failed {
        return null;
      }
      var prevent := DetectDelay(status, primary, maxDelay);
      var executed := if status[primary].Some? then status[primary].value.executed else {};
      hide Classify, SwitchTarget;
      var seen := Picture(Spec(spec.replicas, spec.source.Some?, 0, spec.offline, spec.restore.Some?, idBase, maxDelay),
                          cloned, restored, primary, pods, kept, executed);
      ss := new StatusSet(seen, listed, prevent);
      ss.DecideState();
      CloningMeans(seen);
    }

    /**
     One round on whatever the instances answer, with the specification changing at any time.
     None: the round ended before the status was updated.
     */
    method Round(found: nat, pods: seq<Pod>, status: seq<Option<D.Status>>, restored: bool, idBase: int, maxDelay: int)
        returns (st: Option<ClusterState>)
      requires Valid() && |status| == |pods| == spec.replicas
      requires forall i :: 0 <= i < |status| && status[i].Some? ==> !status[i].value.isErrant
      modifies this
      ensures Valid() && old(spec).replicas <= spec.replicas
      ensures old(cloned) ==> cloned && st != Some(Cloning)
      ensures st == None ==> primary == old(primary) && errants == old(errants) && cloned == old(cloned)
      // completion is recorded in the first round that finds the clone complete, or the cluster offline: a cluster
      // that goes offline during its initial clone is recorded as cloned
      ensures st.Some? && spec.source.Some? && (old(spec).offline || !Unfinished(status[old(primary)])) ==> cloned
      ensures cloned && !old(cloned) ==>
                st.Some? && old(spec).source.Some? && (old(spec).offline || !Unfinished(status[old(primary)]))
      ensures st.Some? ==>
                (st == Some(Cloning) <==>
                 !old(spec).offline && old(spec).source.Some? && !old(cloned) && Unfinished(status[old(primary)]))
      // the list survives every round in which the primary is unreachable or empty
      ensures status[old(primary)].None? || status[old(primary)].value.executed == {} ==> errants == old(errants)
      // otherwise it becomes the list of those with a transaction that is neither the primary's own nor known to it
      ensures st.Some? && status[old(primary)].Some? && status[old(primary)].value.executed != {} ==>
                forall i: nat :: i in errants <==>
                  && i < |status| && i != old(primary) && status[i].Some?
                  && exists g :: g in status[i].value.executed - status[old(primary)].value.executed
                                 && g.origin != status[old(primary)].value.uuid
      // the primary changes only in a cluster that is healthy, degraded or failed
      ensures primary != old(primary) ==> st in {Some(Healthy), Some(Degraded), Some(Failed)}
      // and no listed instance becomes the primary
      ensures primary !in errants
    {
      hide WellFormed, ErrantsMatch, SwitchTarget;
      var ss := Look(found, pods, status, restored, idBase, maxDelay);
      if ss == null {
        return None;
      }
      ListedInRange(ss.seen, ss.errants);
      ChangeSpec();
      var updated: bool := *;
      if !updated {
        return None;
      }
      errants, cloned := ss.errants, cloned || (spec.source.Some? && ss.state != Cloning);
      st := Some(ss.state);
      var answered: bool := *;
      if answered {
        var next := Next(ss);
        ChangeSpec();
        if next.Some? {
          primary := next.value;
        }
      }
    }

    /** The primary that the round records, if any. */
    method Next(ss: StatusSet) returns (next: Option<nat>)
      requires WellFormed(ss.seen) && ErrantsMatch(ss.seen.status, ss.errants, ss.seen.primary)
      requires ss.needSwitch ==> SwitchTarget(ss.seen, ss.candidate)
      ensures next.Some? ==> next.value < |ss.seen.status| && next.value !in ss.errants
      ensures next.Some? ==> ss.state in {Healthy, Degraded, Failed}
    {
      var recorded: bool := *;
      if !recorded {
        return None;
      }
      if Switches(ss) {
        return Some(ss.candidate);
      }
      if ss.state == Failed {
        var again: seq<Option<D.Status>> := *;
        if |again| == |ss.seen.status| && forall k :: 0 <= k < |again| && again[k].Some? ==>
             k != ss.seen.primary && ss.seen.status[k].Some? && !ss.seen.status[k].value.isErrant {
          var r := D.FindTopRunner(again);
          if r.Top? {
            return Some(r.index);
          }
        }
      }
      return None;
    }

    /** Any number of rounds: the record stays in range of a cluster that never shrinks, and cloning never returns. */
    method Run(rounds: nat) returns (entries: seq<Entry>)
      requires Valid()
      modifies this
      ensures Valid()
      ensures forall k :: 0 <= k < |entries| ==> InRange(entries[k].replicas, entries[k].primary, entries[k].errants)
      ensures forall j, k :: 0 <= j < k < |entries| ==> Advances(entries[j], entries[k])
    {
      entries := [];
      for n := 0 to rounds
        invariant Valid()
        invariant forall k :: 0 <= k < |entries| ==>
                    InRange(entries[k].replicas, entries[k].primary, entries[k].errants)
        invariant forall j, k :: 0 <= j < k < |entries| ==> Advances(entries[j], entries[k])
        invariant forall k :: 0 <= k < |entries| ==> entries[k].replicas <= spec.replicas && (entries[k].cloned ==>
                    cloned)
      {
        ChangeSpec();
        var pods: seq<Pod>, answers: seq<Option<D.Status>> := *, *;
        var found: int, restored: bool, idBase: int, maxDelay: int := *, *, *, *;
        var unflagged := forall i :: 0 <= i < |answers| && answers[i].Some? ==> !answers[i].value.isErrant;
        if found >= 0 && |answers| == |pods| == spec.replicas && unflagged {
          var st := Round(found, pods, answers, restored, idBase, maxDelay);
          if st.Some? {
            entries := entries + [Entry(st.value, spec.replicas, primary, errants, cloned)];
          }
        }
      }
    }
  }

  lemma ListedInRange(p: Picture, errants: seq<nat>)
    requires WellFormed(p) && ErrantsMatch(p.status, errants, p.primary)
    ensures |p.status| == p.spec.replicas && InRange(p.spec.replicas, p.primary, errants)
  {
  }

  lemma CloningMeans(p: Picture)
    requires WellFormed(p)
    ensures Classify(p) == Cloning <==>
              !p.spec.offline && p.spec.external && !p.cloned && Unfinished(p.status[p.primary])
  {
    hide MeansHealthy, MeansDegraded, MeansFailed, MeansLost;
  }
}
