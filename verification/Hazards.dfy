/** Why the assumptions of the safety theorem are needed: what goes wrong without each of them. */
module Hazards {
  import opened Basics
  import opened Replication
  import opened ReplicationSafety
  import opened Runs
  import opened Status
  import opened World
  import opened Statements
  import opened Configure
  import opened FixedPoint

  /**
   A primary seen read-only with semi-sync in order: the configure sends nothing to set semi-sync up, only the
   statements that open it for writes.  If the primary has restarted since it was read, they still succeed, and it
   takes writes without semi-sync.  If it has not, semi-sync is on.
   */
  lemma RestartBeforeOpening(s: State, seen: Picture, connected: bool, hosts: seq<int>, behind: Option<int>,
                             clone: Option<string>)
    requires Inv(s) && |s.insts| > 1 && seen.spec.replicas == |s.insts| && seen.primary == s.primary < |seen.status|
    requires seen.status[s.primary] == Some(Observe(s, s.primary, connected, hosts, behind, clone))
    requires PrimaryPlan(seen) == [] && WritePlan(seen) != []
    ensures CanSend(s, WritePlan(seen)) && SemiReady(SendAll(s, WritePlan(seen)))
    ensures Enabled(s, Restart(s.primary))
    ensures var restarted := Step(s, Restart(s.primary));
            CanSend(restarted, WritePlan(seen)) && !Safe(SendAll(restarted, WritePlan(seen)))
  {
    SeenInOrder(s, seen, connected, hosts, behind, clone);
    hide CanSend, SendAll, Inv, Step, Local, Safe, PrimaryPlan, WritePlan, Observe, Enabled;
    var restarted := AfterRestart(s, s.primary);
    SendWritable(s, s.primary);
    SendWritable(restarted, s.primary);
    OpenWithoutSemiSync(SendAll(restarted, WritePlan(seen)));
  }

  lemma SeenInOrder(s: State, seen: Picture, connected: bool, hosts: seq<int>, behind: Option<int>,
                    clone: Option<string>)
    requires |s.insts| > 1 && seen.spec.replicas == |s.insts| && seen.primary == s.primary < |seen.status|
    requires s.primary < |s.insts|
    requires seen.status[s.primary] == Some(Observe(s, s.primary, connected, hosts, behind, clone))
    requires PrimaryPlan(seen) == [] && WritePlan(seen) != []
    ensures SemiReady(s) && WritePlan(seen) == WritableStatements(s.primary)
  {
  }

  lemma OpenWithoutSemiSync(s: State)
    requires |s.insts| > 1 && s.primary < |s.insts| && !s.insts[s.primary].superReadOnly
    requires !s.insts[s.primary].semiSource
    ensures !Safe(s)
  {
  }

  lemma AfterRestart(s: State, i: nat) returns (r: State)
    requires i < |s.insts|
    ensures Enabled(s, Restart(i)) && r == Step(s, Restart(i)) && r.primary == s.primary && !r.insts[i].semiSource
  {
    r := Step(s, Restart(i));
  }

  /**
   Deleting the relay log of i when it is repointed keeps every acknowledged transaction on more than Half(s) instances,
   and every acknowledgement that a session still waits with backed, exactly when those transactions that i has only in
   its relay log are on one more instance, and i has executed what it acknowledged to waiting sessions.
   */
  lemma RelayLogLoss(s: State, i: nat, p: nat)
    requires Enabled(s, ChangeSourcePurging(i, p)) && QuorumHeld(s) && forall o: nat :: o < |s.insts| ==> AcksOk(s, o)
    ensures var s' := Step(s, ChangeSourcePurging(i, p));
            QuorumHeld(s') && (forall o: nat :: o < |s'.insts| ==> AcksOk(s', o)) <==> SpareLog(s, i)
  {
    hide Holders, Step, AcksOk;
    PurgedHolders(s, i, p, Gtid(0, 0));
    var s' := Step(s, ChangeSourcePurging(i, p));
    forall g | g in s.acked
      ensures |Holders(s', g)| ==
                if g in s.insts[i].retrieved && g !in s.insts[i].executed then |Holders(s, g)| - 1 else |Holders(s, g)|
    {
      PurgedHolders(s, i, p, g);
    }
    forall o: nat | o < |s.insts|
      ensures AcksOk(s', o) <==>
                forall g :: g in s.insts[o].pending && (g, i) in s.insts[o].acks ==> g in s.insts[i].executed
    {
      PurgedAcks(s, i, p, o);
    }
  }

  lemma PurgedAcks(s: State, i: nat, p: nat, o: nat)
    requires Enabled(s, ChangeSourcePurging(i, p)) && o < |s.insts| && AcksOk(s, o)
    ensures AcksOk(Step(s, ChangeSourcePurging(i, p)), o) <==>
              forall g :: g in s.insts[o].pending && (g, i) in s.insts[o].acks ==> g in s.insts[i].executed
  {
  }

  /**
   A clone that leaves i empty keeps every acknowledged transaction on more than Half(s) instances exactly when those
   on i are on one more, and so in particular when nothing acknowledged is on i.
   */
  lemma CloneLoss(s: State, i: nat)
    requires i < |s.insts| && QuorumHeld(s)
    ensures Enabled(s, CloneBroken(i)) && (QuorumHeld(Step(s, CloneBroken(i))) <==> Spare(s, i))
    ensures Frozen(s, i, {}) ==> Spare(s, i)
  {
    hide Quiet, Step, Holders;
    BrokenHolders(s, i, Gtid(0, 0));
    var s' := Step(s, CloneBroken(i));
    forall g | g in s.acked
      ensures |Holders(s', g)| == if g in s.insts[i].Received() then |Holders(s, g)| - 1 else |Holders(s, g)|
    {
      BrokenHolders(s, i, g);
    }
  }

  // ----- sessions that wait for acknowledgements -----

  const G: Gtid := Gtid(2, 0)

  /** Instance 2, the former primary, still waits with G; instance 0, the primary, has it; instance 1 does not. */
  function StillWaiting(): State {
    State([Instance({G}, {}, {G}, {}, true, false, 1, true, Some(2), false, {}),
           Instance({}, {}, {}, {}, true, false, 1, true, Some(0), false, {}),
           Instance({}, {G}, {}, {}, false, true, 1, false, Some(0), false, {(G, 0)})],
          0, {}, {G})
  }

  /**
   If a failover counted an instance whose sessions wait for acknowledgements, the quorum argument would fail: both
   replicas show the same, empty set and have stopped receiving, yet after the first of them becomes the primary a
   client of the second is told that G is committed.
   */
  lemma WaitingSessionsMatter()
    ensures var s := StillWaiting();
            && Inv(s)
            && !s.insts[1].io && !s.insts[2].io && s.insts[1].Received() == s.insts[2].Received() == {}
            && !Quiet(s, 2)
            && Enabled(s, SetPrimary(1)) && Enabled(Step(s, SetPrimary(1)), Acknowledge(2, G))
            && !Safe(Step(Step(s, SetPrimary(1)), Acknowledge(2, G)))
  {
    var s := StillWaiting();
    assert s.insts[2].acks == {(G, 0)};
    assert 0 in Ackers(s, 2, G);
    assert Followers(s, 2) == {};
    assert Ackers(s, 2, G) == {0};
    assert 0 in Potential(s, 2, G);
    var s1 := Step(s, SetPrimary(1));
    assert Ackers(s1, 2, G) == {0};
    forall i: nat | i < |s.insts| ensures InstanceOk(s, i) && AcksOk(s, i) {
    }
    assert Guarded(s, 0);
  }
}
