/** Switchover: close the primary for writes, let the candidate catch up, record it. */
module Switchover {
  import opened Basics
  import opened Replication
  import opened ReplicationSafety
  import opened Runs
  import opened Status
  import opened World
  import opened Statements
  import opened Gather
  import opened Failover

  /** The candidate is read-only and follows the primary, if anyone. */
  ghost predicate Attends(s: State, t: nat) {
    && t < |s.insts| && t != s.primary && s.primary < |s.insts|
    && s.insts[t].superReadOnly && s.insts[t].source == Some(s.primary)
  }

  lemma TargetAttends(m: Moment, ss: StatusSet)
    requires Inv(m.s) && Current(m, ss) && SwitchTarget(ss.seen, ss.candidate)
    ensures Attends(m.s, ss.candidate)
    ensures ss.candidate !in ss.errants
  {
    hide IsQuiet, Settled, SemiReady, Inv;
    InvPrimary(m.s);
    assert ReadOne(m.s, ss.candidate, ss.seen.status[ss.candidate].value);
  }

  lemma AttendsKept(a: State, b: State, t: nat)
    requires Keeps(a, b) && Attends(a, t)
    ensures Attends(b, t)
  {
    hide Frozen, Candidate, Settled, IsQuiet;
    assert InstanceKept(a.insts[t], b.insts[t]);
  }

  /** Instance p takes no writes, receives nothing and has nothing left to execute. */
  ghost predicate Closed(s: State, p: nat) {
    && p < |s.insts| && s.insts[p].superReadOnly && !s.insts[p].io
    && s.insts[p].pending == {} && s.insts[p].retrieved == {}
  }

  /** What a closed instance has executed is final. */
  lemma ClosedStays(a: State, b: State, p: nat)
    requires InstancesKept(a, b) && Closed(a, p)
    ensures Closed(b, p) && b.insts[p].executed == a.insts[p].executed
  {
    assert InstanceKept(a.insts[p], b.insts[p]);
    assert b.insts[p].Received() == a.insts[p].Received();
  }

  /** A primary that was seen open for writes is closed once it is super-read-only. */
  lemma ClosedByReadOnly(m: Moment, s: State, ss: StatusSet)
    requires Current(m, ss) && Inv(s) && Keeps(m.s, s)
    requires ss.seen.status[ss.seen.primary].Some? && !ss.seen.status[ss.seen.primary].value.readOnly
    requires m.s.primary < |s.insts| && s.insts[m.s.primary].superReadOnly
    ensures Closed(s, m.s.primary)
  {
    hide IsQuiet, Settled, SemiReady, Candidate, Frozen;
    assert ReadOne(m.s, m.s.primary, ss.seen.status[m.s.primary].value);
    ReflectsKept(m.s, s, m.s.primary, ss.seen.status[m.s.primary].value);
    assert InstanceOk(s, m.s.primary);
  }

  /** Once the primary is read-only, whoever executes what it has executed may take over. */
  lemma TakeOver(s: State, t: nat)
    requires Inv(s) && Attends(s, t) && s.insts[s.primary].superReadOnly
    ensures Candidate(s, t, s.insts[s.primary].executed)
  {
    hide Base, Fenced;
  }

  /** SetReadOnly on the primary, with its timeout: connections are killed when it takes too long or fails. */
  method CloseForWrites(w: World, p: nat) returns (ok: bool)
    requires w.Valid() && p < |w.s.insts|
    modifies w
    ensures old(w.faults) <= w.faults && (!ok ==> old(w.faults) < w.faults)
    ensures w.Valid() && Undisturbed(old(w.Now()), w.Now())
    ensures ok ==> w.s.insts[p].superReadOnly
    ensures w.kills == old(w.kills) || w.kills == old(w.kills) + [p]
    ensures !ok ==> w.kills == old(w.kills) + [p]
  {
    hide Inv, Legal, Replay, LabelsOk, ConnectionsOk, ErrantsOk, Keeps, PodsKept, SemiReady;
    ghost var a := w.Now();
    var timeout: bool := *;
    if !timeout {
      ok := SetReadOnly(w, p);
      if !ok {
        ghost var b := w.Now();
        SizeKept(a.s, b.s);
        var killed := KillConnections(w, p);
        UndisturbedTransitive(a, b, w.Now());
      }
    } else {
      var killed := KillConnections(w, p);
      if !killed {
        // the statement was sent and may still take effect; that step belongs to the environment
        return false;
      }
      ghost var b := w.Now();
      SizeKept(a.s, b.s);
      ok := SetReadOnly(w, p);
      UndisturbedTransitive(a, b, w.Now());
    }
  }

  method Switchover(w: World, ss: StatusSet) returns (ok: bool, ghost cleared: Moment)
    requires w.Valid() && Current(w.Now(), ss) && SwitchTarget(ss.seen, ss.candidate)
    requires ss.seen.status[ss.seen.primary].Some? && !ss.seen.status[ss.seen.primary].value.readOnly
    requires forall k :: 0 <= k < |w.errantList| ==> w.errantList[k] in ss.errants
    modifies w
    ensures old(w.faults) <= w.faults && (!ok ==> old(w.faults) < w.faults)
    ensures w.Valid() && Continues(old(w.Now()), w.Now())
    ensures ok ==> w.s.primary == ss.candidate
    ensures w.s.primary == old(w.s).primary || w.s.primary == ss.candidate != old(w.s).primary
    // whenever the primary changes, the old one is closed and the new one has executed all that it ever executed
    ensures w.s.primary != old(w.s).primary ==>
              && Closed(w.s, old(w.s).primary) && old(w.s).primary < |old(w.s).insts|
              && old(w.s).insts[old(w.s).primary].executed <= w.s.insts[old(w.s).primary].executed
              && w.s.insts[old(w.s).primary].executed <= w.s.insts[w.s.primary].executed
              && w.s.insts[old(w.s).primary].superReadOnly && !w.s.insts[old(w.s).primary].io
    // and after it was closed and before another one was recorded, it had no client left
    ensures w.s.primary != old(w.s).primary ==>
              && Undisturbed(old(w.Now()), cleared) && Continues(cleared, w.Now())
              && cleared.s.primary == old(w.s).primary < |cleared.conns| && Closed(cleared.s, cleared.s.primary)
              && cleared.conns[cleared.s.primary] == {}
    // on success the Pod of the old primary need not be demoted again
    ensures ok ==> old(w.s).primary < |ss.seen.pods| && old(w.s).primary < |w.pods|
    ensures ok && ss.seen.pods[old(w.s).primary].demote ==> !w.pods[old(w.s).primary].demote
  {
    hide Inv, Legal, Replay, LabelsOk, ConnectionsOk, Keeps, PodsKept, Candidate, Current, SemiReady, Continues,
      Attends, Reflects, Closed;
    ghost var a := w.Now();
    cleared := a;
    TargetAttends(a, ss);
    AttendsShape(a.s, ss.candidate);
    PictureShape(a, ss);
    var p := w.s.primary;
    ok := CloseForWrites(w, p);
    ghost var b := w.Now();
    UndisturbedContinues(a, b);
    if !ok {
      return;
    }
    SizeKept(a.s, b.s);
    ok := KillConnections(w, p);
    ghost var c := w.Now();
    UndisturbedTransitive(a, b, c);
    UndisturbedContinues(a, c);
    if !ok {
      return;
    }
    SizeKept(a.s, c.s);
    ClosedByReadOnly(a, b.s, ss);
    KeepsInstances(b.s, c.s);
    ClosedStays(b.s, c.s, p);
    cleared := c;
    ok := HandOver(w, ss.candidate, a, c);
    ghost var d := w.Now();
    ContinuesShape(a, d);
    if ok && ss.seen.pods[p].demote {
      ok := RemoveDemote(w, p);
      PodsKeptContinues(a, d, w.Now());
      PodsKeptContinues(c, d, w.Now());
      ShownClosed(w.s, p);
    } else if w.s.primary != p {
      ShownClosed(w.s, p);
    }
  }

  /** The demote annotation goes away once the primary has changed.  The patch may fail, and with it the round. */
  method RemoveDemote(w: World, p: nat) returns (ok: bool)
    requires w.Valid() && p < |w.pods|
    modifies w`pods, w`history, w`faults
    ensures old(w.faults) <= w.faults && (!ok ==> old(w.faults) < w.faults)
    ensures w.Valid() && w.Now() == old(w.Now()).(pods := w.pods)
    ensures w.pods == old(w.pods) || w.pods == old(w.pods)[p := old(w.pods)[p].(demote := false)]
    ensures ok ==> !w.pods[p].demote
  {
    hide Inv, Legal, Replay, ErrantsOk;
    ok := w.Answered();
    if ok {
      w.pods := w.pods[p := w.pods[p].(demote := false)];
      w.history := w.history + [PodView(w.pods, w.conns)];
    }
  }

  lemma ContinuesShape(a: Moment, b: Moment)
    requires Continues(a, b)
    ensures |b.pods| == |a.pods| == |b.conns|
  {
  }

  lemma ShownClosed(s: State, p: nat)
    requires Closed(s, p)
    ensures p < |s.insts| && s.insts[p].superReadOnly && !s.insts[p].io
  {
  }

  lemma PodsKeptContinues(a: Moment, b: Moment, c: Moment)
    requires Continues(a, b) && c == b.(pods := c.pods) && |c.pods| == |b.pods|
    requires forall i: nat :: i < |b.pods| ==> c.pods[i].role == b.pods[i].role
    ensures Continues(a, c)
  {
    forall i: nat | i < |a.pods| ensures PodKept(a, c, i) {
      assert PodKept(a, b, i);
    }
  }

  lemma AttendsShape(s: State, t: nat)
    requires Attends(s, t)
    ensures t < |s.insts| && t != s.primary && s.primary < |s.insts|
  {
  }

  /** The rest of the switchover, with the primary closed. */
  method HandOver(w: World, t: nat, ghost a: Moment, ghost c: Moment) returns (ok: bool)
    requires w.Valid() && c == w.Now() && Undisturbed(a, c) && Attends(a.s, t)
    requires Closed(c.s, a.s.primary)
    requires t !in w.errantList
    modifies w
    ensures old(w.faults) <= w.faults && (!ok ==> old(w.faults) < w.faults)
    ensures w.Valid() && Continues(a, w.Now()) && Continues(c, w.Now())
    ensures ok ==> w.s.primary == t
    ensures w.s.primary == a.s.primary || w.s.primary == t != a.s.primary
    ensures w.s.primary != a.s.primary ==>
              && Closed(w.s, a.s.primary) && a.s.primary < |a.s.insts|
              && a.s.insts[a.s.primary].executed <= w.s.insts[a.s.primary].executed
              && w.s.insts[a.s.primary].executed <= w.s.insts[w.s.primary].executed
  {
    hide Inv, Legal, Replay, LabelsOk, ConnectionsOk, ErrantsOk, Keeps, PodsKept, Candidate, SemiReady, Continues,
      Attends, Reflects, Closed;
    var p := w.s.primary;
    SizeKept(a.s, c.s);
    AttendsShape(a.s, t);
    var pst, m := GetStatus(w, p);
    ghost var d := w.Now();
    UndisturbedTransitive(a, c, d);
    UndisturbedContinues(a, d);
    UndisturbedContinues(c, d);
    if pst.None? {
      return false;
    }
    var goal := pst.value.executed;
    ClosedAt(a, c, m, d, t);
    ok := WaitForGTID(w, t, goal);
    ghost var e := w.Now();
    UndisturbedTransitive(a, d, e);
    UndisturbedTransitive(c, d, e);
    UndisturbedContinues(a, e);
    UndisturbedContinues(c, e);
    if !ok {
      return;
    }
    CandidateAndClosed(c.s, m.s, d.s, e.s, t, p);
    ok := RecordPrimary(w, t, goal);
    ClosedStays(e.s, w.s, p);
    KeepsInstances(a.s, e.s);
    assert InstanceKept(a.s.insts[p], e.s.insts[p]);
    ContinuesTransitive(a, e, w.Now());
    ContinuesTransitive(c, e, w.Now());
  }

  /** At the moment m when the closed primary is read, its executed set is all that the candidate needs. */
  lemma ClosedAt(a: Moment, c: Moment, m: Moment, d: Moment, t: nat)
    requires Undisturbed(a, c) && Undisturbed(c, m) && Undisturbed(m, d) && Inv(m.s) && Attends(a.s, t)
    requires Closed(c.s, a.s.primary)
    ensures a.s.primary < |m.s.insts| == |d.s.insts| && t < |d.s.insts|
    ensures Candidate(d.s, t, m.s.insts[a.s.primary].executed)
    ensures d.s.primary == a.s.primary && Closed(m.s, a.s.primary)
  {
    hide Inv, Candidate, Frozen, IsQuiet, Settled, PodsKept, SemiReady, Keeps, Attends;
    var p := a.s.primary;
    SizeKept(a.s, c.s); SizeKept(c.s, m.s); SizeKept(m.s, d.s);
    AttendsShape(a.s, t);
    KeepsTransitive(a.s, c.s, m.s);
    AttendsKept(a.s, m.s, t);
    KeepsInstances(c.s, m.s);
    ClosedStays(c.s, m.s, p);
    TakeOver(m.s, t);
    CandidateKeptOn(m.s, d.s, t, m.s.insts[p].executed);
  }

  lemma CandidateAndClosed(c: State, m: State, d: State, e: State, t: nat, p: nat)
    requires Closed(c, p) && Keeps(c, m) && Keeps(m, d) && Keeps(d, e)
    requires p < |m.insts| && Candidate(d, t, m.insts[p].executed)
    ensures Candidate(e, t, m.insts[p].executed) && Closed(e, p) && e.insts[p].executed == m.insts[p].executed
  {
    hide Candidate, Frozen, IsQuiet, Settled, Closed, Keeps;
    KeepsInstances(c, m);
    ClosedStays(c, m, p);
    KeepsTransitive(m, d, e);
    KeepsInstances(m, e);
    ClosedStays(m, e, p);
    CandidateKeptOn(d, e, t, m.insts[p].executed);
  }
}
