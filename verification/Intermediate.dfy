/** Configure in a cluster with a replication source, whose primary is an intermediate one. */
module Intermediate {
  import opened Replication
  import opened Status
  import opened Statements
  import opened Configure
  import D = Dbop

  /** The servers, in any state, and the statements that the manager has sent to them. */
  class Site {
    var s: State
    ghost var sent: seq<Event>

    constructor (s: State)
      ensures this.s == s && sent == []
    {
      this.s, sent := s, [];
    }

    /**
     Servers and clients take any steps, then the statement arrives or not, takes effect or not, and is answered or
     not.
     */
    method Send(e: Event) returns (ok: bool)
      modifies this
      ensures Sends(old(sent), [e], sent, ok)
      ensures ok ==> exists before :: Enabled(before, e) && s == Step(before, e)
    {
      var steps: int := *;
      while steps > 0
        invariant sent == old(sent)
      {
        var step: Event := *;
        if step.i < |s.insts| && Enabled(s, step) {
          s := Step(s, step);
        }
        steps := steps - 1;
      }
      var arrives: bool := *;
      if !arrives {
        return false;
      }
      sent := sent + [e];
      if e.i >= |s.insts| || !Enabled(s, e) {
        return false;
      }
      s := Step(s, e);
      ok := *;
    }

    method ConfigureReplica(i: nat, p: nat, semisync: bool) returns (ok: bool)
      modifies this
      ensures Sends(old(sent), ReplicaStatements(i, p, semisync), sent, ok)
    {
      hide Enabled, Step;
      ok := Send(StopIo(i));
      if !ok { return; }
      var version: string := *;
      if version != "8.4" && version != "8.0" {
        return false;
      }
      ok := Send(ChangeSource(i, p));
      if !ok { return; }
      ok := Send(SetSemiReplica(i, semisync));
      if !ok { return; }
      ok := Send(SemiSourceOff(i));
      if !ok { return; }
      ok := Send(StartReplica(i));
    }

    /** The primary is closed, then pointed at the host that the secret names. */
    method ConfigureIntermediatePrimary(seen: Picture) returns (ok: bool, redo: bool)
      requires seen.primary < |seen.status| && seen.status[seen.primary].Some?
      modifies this
      ensures Sends(old(sent), IntermediatePlan(seen), sent, ok)
      ensures ok ==> (redo <==> IntermediatePlan(seen) != [])
    {
      hide Enabled, Step;
      var c, pst := seen.primary, seen.status[seen.primary].value;
      ghost var fs := if NeedsExternal(seen, pst) then ReplicaStatements(c, ExternalSource(seen), false) else [];
      ok, redo := true, false;
      if !pst.superReadOnly {
        redo := true;
        ok := Send(Event.SetSuperReadOnly(c));
        if !ok {
          SendsPart(old(sent), [Event.SetSuperReadOnly(c)], sent, fs);
          return;
        }
      }
      ghost var closed := sent;
      var secret: bool := *;
      if !secret {
        return false, false;
      }
      if !IoRunning(pst) || pst.replica.value.sourceHost != D.ExternalHost(seen.spec.sourceHost) {
        redo := true;
        ok := ConfigureReplica(c, ExternalSource(seen), false);
        SendsMore(old(sent), if pst.superReadOnly then [] else [Event.SetSuperReadOnly(c)], closed, fs, sent, ok);
      }
    }

    /** A replica, in the mode without semi-sync if there is a replication source. */
    method ConfigureReplicaOf(seen: Picture, i: nat) returns (ok: bool, redo: bool)
      requires i < |seen.status| && i != seen.primary && seen.status[i].Some?
      requires seen.primary < |seen.status| && seen.status[seen.primary].Some?
      modifies this
      ensures Sends(old(sent), ReplicaPlan(seen, i), sent, ok)
      ensures ok ==> (redo <==> ReplicaPlan(seen, i) != [])
      ensures ok ==> || seen.status[i].value.isErrant
                     || seen.status[seen.primary].value.purged - seen.status[i].value.executed == {}
    {
      hide Enabled, Step;
      var st := seen.status[i].value;
      if st.isErrant {
        if !IoRunning(st) {
          return true, false;
        }
        ok := Send(StopIo(i));
        return ok, true;
      }
      PlanSplits(seen, i);
      ghost var rest := AttachPlan(seen, i);
      redo := false;
      if !st.superReadOnly {
        redo := true;
        var killed: bool := *;
        if !killed {
          return false, redo;
        }
        ok := Send(Event.SetSuperReadOnly(i));
        if !ok {
          SendsPart(old(sent), [Event.SetSuperReadOnly(i)], sent, rest);
          return;
        }
      }
      ghost var closed := sent;
      var r;
      ok, r := Attach(seen, i);
      redo := redo || r;
      SendsMore(old(sent), if st.superReadOnly then [] else [Event.SetSuperReadOnly(i)], closed, rest, sent, ok);
    }

    method Attach(seen: Picture, i: nat) returns (ok: bool, redo: bool)
      requires i < |seen.status| && seen.status[i].Some?
      requires seen.primary < |seen.status| && seen.status[seen.primary].Some?
      modifies this
      ensures Sends(old(sent), AttachPlan(seen, i), sent, ok)
      ensures ok ==> (redo <==> AttachPlan(seen, i) != [])
      // a replica that lacks what the primary has purged is not repointed
      ensures seen.status[seen.primary].value.purged - seen.status[i].value.executed != {} ==>
                !ok && (sent == old(sent) || sent == old(sent) + [CloneFromPrimary(i)])
    {
      hide Enabled, Step;
      var st := seen.status[i].value;
      ghost var fs := if NeedsSource(seen, st) then ReplicaStatements(i, seen.primary, !seen.spec.external) else [];
      redo := false;
      if NeedsClone(seen, st) {
        redo := true;
        var addressed: bool := *;
        if !addressed {
          return false, redo;
        }
        ok := Send(CloneFromPrimary(i));
        if !ok {
          SendsPart(old(sent), [CloneFromPrimary(i)], sent, fs);
          return;
        }
      }
      ghost var cloned := sent;
      var answered: bool := *;
      if !answered || seen.status[seen.primary].value.purged - st.executed != {} {
        return false, redo;
      }
      ok := true;
      if NeedsSource(seen, st) {
        redo := true;
        ok := ConfigureReplica(i, seen.primary, !seen.spec.external);
        SendsMore(old(sent), if NeedsClone(seen, st) then [CloneFromPrimary(i)] else [], cloned, fs, sent, ok);
      }
    }

    /**
     The server work of a configure: the statements that the picture asks for, in order, and all of them on success.
     */
    method ConfigureServers(seen: Picture) returns (ok: bool, redo: bool)
      requires seen.primary < |seen.status| && seen.status[seen.primary].Some? && seen.spec.external
      modifies this
      ensures Sends(old(sent), Plan(seen), sent, ok)
      ensures ok ==> (redo <==> Plan(seen) != [])
    {
      hide Sends, IntermediatePlan, ReplicaPlans, ReplicaPlan;
      NoWritePlan(seen);
      ok, redo := ConfigureIntermediatePrimary(seen);
      if !ok {
        SendsPart(old(sent), PrimaryPlan(seen), sent, ReplicaPlans(seen, |seen.status|));
        return;
      }
      ghost var first := sent;
      var r;
      ok, r := ConfigureReplicas(seen);
      SendsMore(old(sent), PrimaryPlan(seen), first, ReplicaPlans(seen, |seen.status|), sent, ok);
      redo := redo || r;
    }

    method ConfigureReplicas(seen: Picture) returns (ok: bool, redo: bool)
      requires seen.primary < |seen.status| && seen.status[seen.primary].Some?
      modifies this
      ensures Sends(old(sent), ReplicaPlans(seen, |seen.status|), sent, ok)
      ensures ok ==> (redo <==> ReplicaPlans(seen, |seen.status|) != [])
    {
      hide Sends, ReplicaPlans, ReplicaPlan;
      NoPlans(seen, sent);
      redo := false;
      for i := 0 to |seen.status|
        invariant Sends(old(sent), ReplicaPlans(seen, i), sent, true)
        invariant redo <==> ReplicaPlans(seen, i) != []
      {
        NextPlans(seen, i);
        if i == seen.primary || seen.status[i].None? {
          NoPlan(seen, i);
          continue;
        }
        ghost var before := sent;
        var r;
        ok, r := ConfigureReplicaOf(seen, i);
        redo := redo || r;
        SendsMore(old(sent), ReplicaPlans(seen, i), before, ReplicaPlan(seen, i), sent, ok);
        if !ok {
          PlansPrefix(seen, i + 1, |seen.status|);
          SendsLonger(old(sent), ReplicaPlans(seen, i + 1), sent, ReplicaPlans(seen, |seen.status|));
          return;
        }
      }
      ok := true;
    }
  }

  /** An intermediate primary is never opened for writes. */
  lemma NoWritePlan(seen: Picture)
    requires seen.primary < |seen.status| && seen.status[seen.primary].Some? && seen.spec.external
    ensures PrimaryPlan(seen) == IntermediatePlan(seen)
    ensures Plan(seen) == PrimaryPlan(seen) + ReplicaPlans(seen, |seen.status|)
  {
  }

  /** No plan for a cluster with a replication source opens an instance for writes. */
  lemma NeverOpened(seen: Picture)
    requires seen.primary < |seen.status| && seen.status[seen.primary].Some? && seen.spec.external
    ensures forall k :: 0 <= k < |Plan(seen)| ==> !Plan(seen)[k].SetReadWrite?
  {
    NoWritePlan(seen);
    ReplicasNotOpened(seen, |seen.status|);
  }

  lemma ReplicaNotOpened(seen: Picture, i: nat)
    requires i < |seen.status|
    ensures forall k :: 0 <= k < |ReplicaPlan(seen, i)| ==> !ReplicaPlan(seen, i)[k].SetReadWrite?
  {
    hide NeedsSource, NeedsClone;
  }

  lemma {:induction false} ReplicasNotOpened(seen: Picture, n: nat)
    requires n <= |seen.status|
    ensures forall k :: 0 <= k < |ReplicaPlans(seen, n)| ==> !ReplicaPlans(seen, n)[k].SetReadWrite?
  {
    hide ReplicaPlan;
    if n > 0 {
      ReplicasNotOpened(seen, n - 1);
      ReplicaNotOpened(seen, n - 1);
    }
  }
}
