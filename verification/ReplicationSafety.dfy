/** Every step keeps the invariant. */
module ReplicationSafety {
  import opened Basics
  import opened Replication

  /** Transactions that j has acknowledged to a waiting session are in v. */
  ghost predicate Settled(s: State, j: nat, v: set<Gtid>) {
    forall o: nat, g :: o < |s.insts| && g in s.insts[o].pending && (g, j) in s.insts[o].acks ==> g in v
  }

  /**
   The situations in which the manager may issue a statement.  Environment steps are always permitted.
   */
  ghost predicate Permitted(s: State, e: Event)
    requires e.i < |s.insts|
  {
    var x := s.insts[e.i];
    match e
    case SetReadWrite(i) =>
      i == s.primary && !x.io && x.retrieved == {} && (|s.insts| > 1 ==> x.semiSource && x.waitCount == Half(s))
    case ResetReplica(i) => i == s.primary && Settled(s, i, x.executed)
    case ChangeSource(i, p) => i != s.primary && p == s.primary
    case ChangeSourcePurging(i, p) => i != s.primary && p == s.primary && SpareLog(s, i)
    case SemiSourceOff(i) => x.superReadOnly
    case SetWaitCount(i, count) => x.superReadOnly || count == Half(s)
    case StartReplica(i) => i != s.primary && x.superReadOnly && x.source == Some(s.primary)
    case CloneFromPrimary(i) => i != s.primary && x.superReadOnly && x.source == None
    case CloneBroken(i) => i != s.primary && x.superReadOnly && x.source == None && Spare(s, i)
    case SetPrimary(i) => Guarded(s, i)
    case _ => true
  }

  // ----- Base -----

  lemma StepInstance(s: State, e: Event, i: nat)
    requires Enabled(s, e) && Permitted(s, e) && i < |s.insts| && s.primary < |s.insts|
    requires s.acked <= s.issued
    requires InstanceOk(s, i) && InstanceOk(s, e.i) && InstanceOk(s, s.primary)
    requires e.Fetch? ==> InstanceOk(s, s.insts[e.i].source.value)
    ensures InstanceOk(Step(s, e), i)
  {
    hide Ackers, Settled, Guarded;
    if i == e.i {
      StepTarget(s, e);
    } else {
      StepElsewhere(s, e, i);
    }
  }

  /** A step changes no other instance, except that Fetch records an acknowledgement at the source. */
  lemma StepElsewhere(s: State, e: Event, i: nat)
    requires Enabled(s, e) && i < |s.insts| && i != e.i
    ensures Step(s, e).insts[i] == s.insts[i].(acks := Step(s, e).insts[i].acks)
    ensures s.issued <= Step(s, e).issued
    ensures !e.Fetch? ==> Step(s, e).insts[i].acks == s.insts[i].acks
    ensures e.Fetch? ==> Step(s, e).insts[i].acks <= s.insts[i].acks + {(e.g, e.i)}
  {
    hide Ackers;
  }

  lemma StepTarget(s: State, e: Event)
    requires Enabled(s, e) && Permitted(s, e) && s.primary < |s.insts|
    requires s.acked <= s.issued
    requires InstanceOk(s, e.i) && InstanceOk(s, s.primary)
    requires e.Fetch? ==> InstanceOk(s, s.insts[e.i].source.value)
    ensures InstanceOk(Step(s, e), e.i)
  {
    hide Ackers, Settled, Guarded, Step, Local;
    if IsEnvironment(e) {
      StepTargetPassive(s, e);
    } else {
      StepTargetSent(s, e);
    }
  }

  lemma StepTargetPassive(s: State, e: Event)
    requires Enabled(s, e) && IsEnvironment(e)
    requires s.acked <= s.issued && InstanceOk(s, e.i)
    requires e.Fetch? ==> InstanceOk(s, s.insts[e.i].source.value)
    ensures InstanceOk(Step(s, e), e.i)
  {
    hide Ackers, Settled, Guarded;
  }

  lemma StepTargetSent(s: State, e: Event)
    requires Enabled(s, e) && Permitted(s, e) && !IsEnvironment(e) && s.primary < |s.insts|
    requires InstanceOk(s, e.i) && InstanceOk(s, s.primary)
    ensures InstanceOk(Step(s, e), e.i)
  {
    hide Ackers, Settled, Guarded;
  }

  lemma StepAcks(s: State, e: Event, o: nat)
    requires Enabled(s, e) && Permitted(s, e) && o < |s.insts| && s.primary < |s.insts|
    requires InstanceOk(s, e.i) && InstanceOk(s, o) && AcksOk(s, o)
    ensures AcksOk(Step(s, e), o)
  {
    hide Ackers, Guarded;
    var s' := Step(s, e);
    forall g, r: nat | (g, r) in s'.insts[o].acks
      ensures g in s'.issued && r < |s.insts| && r != o && s'.insts[r].source.Some?
      ensures g in s'.insts[o].pending ==> g in s'.insts[r].Received()
    {
      StepAck(s, e, o, g, r);
    }
  }

  lemma StepAck(s: State, e: Event, o: nat, g: Gtid, r: nat)
    requires Enabled(s, e) && Permitted(s, e) && o < |s.insts| && s.primary < |s.insts|
    requires InstanceOk(s, e.i) && InstanceOk(s, o) && AcksOk(s, o)
    requires (g, r) in Step(s, e).insts[o].acks
    ensures g in Step(s, e).issued && r < |s.insts| && r != o && Step(s, e).insts[r].source.Some?
    ensures g in Step(s, e).insts[o].pending ==> g in Step(s, e).insts[r].Received()
  {
    hide Ackers, Guarded, Step, Local, InstanceOk;
    if e.Fetch? {
      FetchAck(s, e, o, g, r);
    } else {
      OldAck(s, e, o, g, r);
    }
  }

  lemma FetchAck(s: State, e: Event, o: nat, g: Gtid, r: nat)
    requires e.Fetch? && Enabled(s, e) && o < |s.insts| && InstanceOk(s, o) && AcksOk(s, o)
    requires (g, r) in Step(s, e).insts[o].acks
    ensures g in Step(s, e).issued && r < |s.insts| && r != o && Step(s, e).insts[r].source.Some?
    ensures g in Step(s, e).insts[o].pending ==> g in Step(s, e).insts[r].Received()
  {
    if (g, r) in s.insts[o].acks {
      assert g in s.issued && r < |s.insts| && r != o && s.insts[r].source.Some?;
    }
  }

  lemma OldAck(s: State, e: Event, o: nat, g: Gtid, r: nat)
    requires !e.Fetch? && Enabled(s, e) && Permitted(s, e) && o < |s.insts| && s.primary < |s.insts|
    requires InstanceOk(s, e.i) && InstanceOk(s, o) && AcksOk(s, o)
    requires (g, r) in Step(s, e).insts[o].acks
    ensures g in Step(s, e).issued && r < |s.insts| && r != o && Step(s, e).insts[r].source.Some?
    ensures g in Step(s, e).insts[o].pending ==> g in Step(s, e).insts[r].Received()
  {
    hide Ackers, Guarded;
    assert (g, r) in s.insts[o].acks;
    assert g in s.issued && r < |s.insts| && r != o && s.insts[r].source.Some?;
  }

  lemma StepHolders(s: State, e: Event, g: Gtid)
    requires Enabled(s, e) && Permitted(s, e) && s.primary < |s.insts|
    requires g in s.insts[s.primary].executed && !e.CloneBroken? && !e.ChangeSourcePurging?
    ensures Holders(s, g) <= Holders(Step(s, e), g)
  {
  }

  /** The acknowledging instances and the origin together are a quorum. */
  lemma AcknowledgedIsHeld(s: State, i: nat, g: Gtid)
    requires Enabled(s, Acknowledge(i, g))
    requires InstanceOk(s, i) && AcksOk(s, i)
    ensures |Holders(Step(s, Acknowledge(i, g)), g)| > Half(s)
  {
    var s' := Step(s, Acknowledge(i, g));
    var quorum := Ackers(s, i, g) + {i};
    forall r: nat | r in quorum ensures r in Holders(s', g) {
      AckerHolds(s, i, g, r);
    }
    SubsetCard(quorum, Holders(s', g));
    assert i !in Ackers(s, i, g);
  }

  lemma AckerHolds(s: State, i: nat, g: Gtid, r: nat)
    requires Enabled(s, Acknowledge(i, g)) && AcksOk(s, i) && (r in Ackers(s, i, g) || r == i)
    ensures r in Holders(Step(s, Acknowledge(i, g)), g)
  {
  }

  lemma StepQuorum(s: State, e: Event)
    requires Inv(s) && Enabled(s, e) && Permitted(s, e)
    ensures QuorumHeld(Step(s, e))
  {
    hide Guards;
    var s' := Step(s, e);
    forall g | g in s'.acked ensures |Holders(s', g)| > Half(s') {
      if e.CloneBroken? {
        BrokenHolders(s, e.i, g);
      } else if e.ChangeSourcePurging? {
        PurgedHolders(s, e.i, e.p, g);
      } else if g in s.acked {
        assert g in s.insts[s.primary].executed by { ExecutedAll(s); }
        StepHolders(s, e, g);
        SubsetCard(Holders(s, g), Holders(s', g));
      } else {
        AcknowledgedIsHeld(s, e.i, g);
      }
    }
  }

  /** A broken clone takes away one holder at most. */
  lemma BrokenHolders(s: State, i: nat, g: Gtid)
    requires i < |s.insts|
    ensures Enabled(s, CloneBroken(i))
    ensures var s' := Step(s, CloneBroken(i));
            && s'.acked == s.acked && Half(s') == Half(s)
            && |Holders(s', g)| == if g in s.insts[i].Received() then |Holders(s, g)| - 1 else |Holders(s, g)|
  {
    hide Holders;
    HoldersAfter(s, Step(s, CloneBroken(i)).insts[i], i, g);
  }

  /** So does a relay log that goes away. */
  lemma PurgedHolders(s: State, i: nat, p: nat, g: Gtid)
    requires Enabled(s, ChangeSourcePurging(i, p))
    ensures var s' := Step(s, ChangeSourcePurging(i, p));
            && s'.acked == s.acked && Half(s') == Half(s)
            && |Holders(s', g)| ==
                 if g in s.insts[i].retrieved && g !in s.insts[i].executed then |Holders(s, g)| - 1 else |Holders(s, g)|
  {
    hide Holders;
    HoldersAfter(s, Step(s, ChangeSourcePurging(i, p)).insts[i], i, g);
  }

  lemma HoldersAfter(s: State, y: Instance, i: nat, g: Gtid)
    requires i < |s.insts| && (g in y.Received() ==> g in s.insts[i].Received())
    ensures |Holders(s.(insts := s.insts[i := y]), g)| ==
              |Holders(s, g)| - (if g in s.insts[i].Received() && g !in y.Received() then 1 else 0)
  {
    var s' := s.(insts := s.insts[i := y]);
    if g in s.insts[i].Received() && g !in y.Received() {
      assert Holders(s', g) == Holders(s, g) - {i};
    } else {
      assert Holders(s', g) == Holders(s, g);
    }
  }

  lemma ExecutedAll(s: State)
    requires Inv(s)
    ensures s.acked <= s.insts[s.primary].executed
  {
  }

  lemma StepBase(s: State, e: Event)
    requires Inv(s) && Enabled(s, e) && Permitted(s, e)
    ensures Base(Step(s, e))
  {
    hide Guards, InstanceOk, AcksOk, QuorumHeld;
    var s' := Step(s, e);
    forall i: nat | i < |s'.insts| ensures InstanceOk(s', i) && AcksOk(s', i) {
      StepInstance(s, e, i);
      StepAcks(s, e, i);
    }
    StepQuorum(s, e);
    StepIssued(s, e);
  }

  lemma StepIssued(s: State, e: Event)
    requires Base(s) && Enabled(s, e)
    requires e.SetPrimary? ==> e.i < |s.insts|
    ensures Step(s, e).acked <= Step(s, e).issued
    ensures Step(s, e).primary < |s.insts|
  {
    assert InstanceOk(s, e.i);
  }

  // ----- fencing -----

  /** Steps that start no IO thread: all but StartReplica, and ChangeSource never moves a started one. */
  lemma FollowersShrink(s: State, e: Event, o: nat)
    requires Enabled(s, e) && o < |s.insts|
    requires e.StartReplica? ==> s.insts[e.i].source != Some(o)
    ensures Followers(Step(s, e), o) <= Followers(s, o)
  {
  }

  lemma PotentialShrinks(s: State, e: Event, o: nat, g: Gtid)
    requires Enabled(s, e) && o < |s.insts|
    requires e.StartReplica? ==> s.insts[e.i].source != Some(o)
    requires AcksOk(s, o)
    requires g in Step(s, e).insts[o].pending
    ensures Potential(Step(s, e), o, g) <= (if g in s.insts[o].pending then Potential(s, o, g) else Followers(s, o))
  {
    FollowersShrink(s, e, o);
  }

  lemma StepFenced(s: State, e: Event, o: nat, t: set<Gtid>)
    requires Enabled(s, e) && o < |s.insts|
    requires e.StartReplica? ==> s.insts[e.i].source != Some(o)
    requires AcksOk(s, o) && Fenced(s, o, t)
    ensures Fenced(Step(s, e), o, t)
  {
    hide AcksOk;
    var s' := Step(s, e);
    FollowersShrink(s, e, o);
    SubsetCard(Followers(s', o), Followers(s, o));
    forall g | g in s'.insts[o].pending && g !in t ensures |Potential(s', o, g)| < Half(s') {
      PotentialShrinks(s, e, o, g);
      SubsetCard(Potential(s', o, g), if g in s.insts[o].pending then Potential(s, o, g) else Followers(s, o));
    }
  }

  /** Outside t, nothing can be acknowledged except at j. */
  lemma AcknowledgedInside(s: State, i: nat, g: Gtid, j: nat, t: set<Gtid>)
    requires Base(s) && Guards(s, j, t) && i != j
    requires Enabled(s, Acknowledge(i, g))
    ensures g in t
  {
    hide AcksOk, QuorumHeld;
    assert InstanceOk(s, i);
    assert Fenced(s, i, t);
    SubsetCard(Ackers(s, i, g), Potential(s, i, g));
  }

  /** Nothing can be acknowledged at a quiet instance. */
  lemma QuietAcknowledgesNothing(s: State, i: nat, g: Gtid)
    requires i < |s.insts| && InstanceOk(s, i) && Quiet(s, i)
    ensures !Enabled(s, Acknowledge(i, g))
  {
    if Enabled(s, Acknowledge(i, g)) {
      SubsetCard(Ackers(s, i, g), Potential(s, i, g));
    }
  }

  /** The steps that may happen beside a failover: those of the environment, and stopped IO threads. */
  predicate Passive(e: Event) { IsEnvironment(e) || e.StopIo? }

  /** One instance only: what passive steps keep. */
  lemma PassiveInstance(s: State, e: Event, i: nat)
    requires Enabled(s, e) && Passive(e) && i < |s.insts|
    ensures Step(s, e).primary == s.primary
    ensures Step(s, e).insts[i].source == s.insts[i].source
    ensures s.insts[i].executed <= Step(s, e).insts[i].executed
    ensures s.insts[i].retrieved <= Step(s, e).insts[i].retrieved
    ensures s.insts[i].superReadOnly ==> Step(s, e).insts[i].superReadOnly
    ensures !s.insts[i].io ==> !Step(s, e).insts[i].io && Step(s, e).insts[i].retrieved == s.insts[i].retrieved
    ensures e != Restart(i) ==> Step(s, e).insts[i].semiSource == s.insts[i].semiSource
    ensures e != Restart(i) ==> Step(s, e).insts[i].waitCount == s.insts[i].waitCount
    ensures var x, y := s.insts[i], Step(s, e).insts[i];
            x.superReadOnly && !x.io && x.pending == {} ==> y.pending == {} && y.Received() == x.Received()
  {
    hide Ackers;
  }

  lemma PassiveFollows(s: State, e: Event, j: nat)
    requires Enabled(s, e) && Passive(e) && j < |s.insts| && FollowsReadOnly(s, j)
    ensures FollowsReadOnly(Step(s, e), j)
  {
    hide Step, Local, Enabled;
    PassiveInstance(s, e, j);
    if s.insts[j].io {
      PassiveInstance(s, e, s.insts[j].source.value);
    }
  }

  lemma PassiveFencing(s: State, e: Event, j: nat, t: set<Gtid>)
    requires Base(s) && Enabled(s, e) && Passive(e) && Guards(s, j, t)
    ensures forall o: nat :: o < |s.insts| && o != j && !Step(s, e).insts[o].superReadOnly ==> Fenced(Step(s, e), o, t)
  {
    hide Step, Local, Enabled, Fenced, InstanceOk, AcksOk, QuorumHeld;
    forall o: nat | o < |s.insts| && o != j && !Step(s, e).insts[o].superReadOnly ensures Fenced(Step(s, e), o, t) {
      PassiveInstance(s, e, o);
      StepFenced(s, e, o, t);
    }
  }

  lemma FencedGrows(s: State, o: nat, t: set<Gtid>, t': set<Gtid>)
    requires o < |s.insts| && Fenced(s, o, t) && t <= t'
    ensures Fenced(s, o, t')
  {
  }

  lemma PassiveQuiet(s: State, e: Event, o: nat)
    requires Base(s) && Enabled(s, e) && Passive(e) && o < |s.insts| && Quiet(s, o)
    ensures Quiet(Step(s, e), o)
  {
    hide Step, Local, Enabled, Fenced, InstanceOk, AcksOk, QuorumHeld;
    PassiveInstance(s, e, o);
    if !s.insts[o].superReadOnly {
      StepFenced(s, e, o, {});
    }
  }

  /** A quiet candidate stays a candidate for the fixed set t it is to execute. */
  lemma PassiveGuards(s: State, e: Event, j: nat, t: set<Gtid>)
    requires Base(s) && Enabled(s, e) && Passive(e) && Guards(s, j, t) && Quiet(s, j)
    ensures Guards(Step(s, e), j, t)
  {
    hide Fenced, InstanceOk, AcksOk, QuorumHeld, Ackers, FollowsReadOnly, Quiet;
    PassiveFollows(s, e, j);
    PassiveFencing(s, e, j, t);
    if e.Acknowledge? {
      if e.i == j {
        QuietAcknowledgesNothing(s, j, e.g);
      } else {
        AcknowledgedInside(s, e.i, e.g, j, t);
      }
    }
  }

  lemma PassiveSettled(s: State, e: Event, j: nat, v: set<Gtid>)
    requires Base(s) && Enabled(s, e) && Passive(e) && j < |s.insts| && FollowsReadOnly(s, j) && Settled(s, j, v)
    ensures Settled(Step(s, e), j, v)
  {
    hide Ackers, QuorumHeld;
    var s' := Step(s, e);
    forall o: nat, g | o < |s'.insts| && g in s'.insts[o].pending && (g, j) in s'.insts[o].acks ensures g in v {
      assert InstanceOk(s, o);
      assert AcksOk(s, o);
    }
  }

  // ----- an instance that has stopped receiving -----

  /**
   Instance i receives nothing any more: beyond what was in v it can only gain transactions of its own that
   no client is told about.
   */
  ghost predicate Frozen(s: State, i: nat, v: set<Gtid>) {
    && i < |s.insts|
    && !s.insts[i].io
    && Quiet(s, i)
    && (forall g :: g in s.insts[i].Received() && g !in v ==> g.origin == i && g !in s.acked)
  }

  lemma PassiveFrozen(s: State, e: Event, i: nat, v: set<Gtid>)
    requires Base(s) && Enabled(s, e) && Passive(e) && Frozen(s, i, v)
    ensures Frozen(Step(s, e), i, v)
  {
    hide Ackers, QuorumHeld, AcksOk, Quiet, Fenced;
    var s' := Step(s, e);
    PassiveQuiet(s, e, i);
    PassiveInstance(s, e, i);
    assert InstanceOk(s, i);
    if e.Acknowledge? {
      assert InstanceOk(s, e.i);
      if e.i == i {
        QuietAcknowledgesNothing(s, i, e.g);
      }
    }
  }

  // ----- the invariant -----

  lemma StepFollowsReadOnly(s: State, e: Event)
    requires Inv(s) && Enabled(s, e) && Permitted(s, e) && !e.SetPrimary?
    ensures FollowsReadOnly(Step(s, e), s.primary)
  {
    hide Ackers, QuorumHeld, AcksOk, Fenced, Settled;
    assert InstanceOk(s, s.primary);
  }

  lemma StepFencing(s: State, e: Event, o: nat)
    requires Inv(s) && Enabled(s, e) && Permitted(s, e) && !e.SetPrimary?
    requires o < |s.insts| && o != s.primary && !Step(s, e).insts[o].superReadOnly
    ensures Fenced(Step(s, e), o, s.insts[s.primary].executed)
  {
    hide Ackers, QuorumHeld, AcksOk, Fenced, Settled, InstanceOk;
    assert !s.insts[o].superReadOnly;
    StepFenced(s, e, o, s.insts[s.primary].executed);
  }

  lemma StepGuarded(s: State, e: Event)
    requires Inv(s) && Enabled(s, e) && Permitted(s, e)
    ensures Guarded(Step(s, e), Step(s, e).primary)
  {
    hide Ackers, QuorumHeld, AcksOk, Fenced, Settled, InstanceOk, FollowsReadOnly;
    var s' := Step(s, e);
    var c := s.primary;
    if e.SetPrimary? {
      SamePicture(s, s', e.i);
    } else {
      var t := s.insts[c].executed;
      assert t <= s'.insts[c].executed;
      StepFollowsReadOnly(s, e);
      forall o: nat | o < |s'.insts| && o != c && !s'.insts[o].superReadOnly
        ensures Fenced(s', o, s'.insts[c].executed)
      {
        StepFencing(s, e, o);
        FencedGrows(s', o, t, s'.insts[c].executed);
      }
      if e.Acknowledge? && e.i != c {
        AcknowledgedInside(s, e.i, e.g, c, t);
      }
    }
  }

  /** Recording a primary changes none of the servers. */
  lemma SamePicture(s: State, s': State, j: nat)
    requires s' == s.(primary := s'.primary) && Guarded(s, j)
    ensures Guarded(s', j)
  {
    forall o: nat | o < |s.insts| && o != j && !s.insts[o].superReadOnly
      ensures Fenced(s', o, s.insts[j].executed)
    {
      assert Fenced(s, o, s.insts[j].executed);
      assert Followers(s', o) == Followers(s, o);
      forall g | g in s.insts[o].pending ensures Potential(s', o, g) == Potential(s, o, g) {
        assert Ackers(s', o, g) == Ackers(s, o, g);
      }
    }
  }

  /** The invariant is inductive: every permitted step keeps it. */
  lemma StepInv(s: State, e: Event)
    requires Inv(s) && Enabled(s, e) && Permitted(s, e)
    ensures Inv(Step(s, e))
  {
    hide Base, Guarded, Step, Enabled, Permitted;
    StepBase(s, e);
    StepGuarded(s, e);
  }
}
