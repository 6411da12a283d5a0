/**
 The operator's methods, statement by statement.  Each statement may fail before or after it took effect, and the
 environment acts before each of them, so every prefix of every method is a reachable state.
 */
module Statements {
  import opened Basics
  import opened Replication
  import opened ReplicationSafety
  import opened Runs
  import opened Status
  import opened World
  import D = Dbop

  // ----- what a configure round keeps -----

  /** The servers outside ks still follow whom they followed, and nobody became writable. */
  ghost predicate ServersKept(a: State, b: State, ks: set<nat>) {
    && |b.insts| == |a.insts| && b.primary == a.primary && a.primary < |a.insts|
    && (forall i: nat :: i < |a.insts| && a.insts[i].superReadOnly ==> b.insts[i].superReadOnly)
    && (forall i: nat :: i < |a.insts| && i !in ks ==> b.insts[i].source == a.insts[i].source)
    && a.insts[a.primary].executed <= b.insts[b.primary].executed
    && (forall v :: Settled(a, a.primary, v) ==> Settled(b, b.primary, v))
    && (SemiReady(a) ==> SemiReady(b))
    && (CountReady(a) ==> CountReady(b))
  }

  ghost predicate Reconfigured(a: Moment, b: Moment, ks: set<nat>) {
    && ServersKept(a.s, b.s, ks) && PodsKept(a, b)
    && b.start == a.start && a.log <= b.log && b.errantList == a.errantList && a.pinned && b.pinned
  }

  lemma ReconfiguredTransitive(a: Moment, b: Moment, c: Moment, ks: set<nat>, ls: set<nat>)
    requires Reconfigured(a, b, ks) && Reconfigured(b, c, ls)
    ensures Reconfigured(a, c, ks + ls)
  {
    hide Settled, SemiReady;
    forall i: nat | i < |a.pods| ensures PodKept(a, c, i) {
      assert PodKept(a, b, i) && PodKept(b, c, i);
    }
  }

  lemma UndisturbedReconfigures(a: Moment, b: Moment)
    requires Undisturbed(a, b) && a.pinned && a.s.primary < |a.s.insts|
    ensures Reconfigured(a, b, {})
  {
    hide Settled, SemiReady, Frozen, Candidate, IsQuiet;
    forall i: nat | i < |a.s.insts|
      ensures (a.s.insts[i].superReadOnly ==> b.s.insts[i].superReadOnly) && b.s.insts[i].source == a.s.insts[i].source
    {
      assert InstanceKept(a.s.insts[i], b.s.insts[i]);
    }
    assert InstanceKept(a.s.insts[a.s.primary], b.s.insts[a.s.primary]);
  }

  /** The statements of a configure round other than those that open the primary for writes. */
  predicate Reconfigures(s: State, e: Event) {
    match e
    case StopIo(i) => true
    case SetWaitCount(i, n) => i == s.primary && n == Half(s)
    case SemiSourceOn(i) => i == s.primary
    case ChangeSource(i, p) => true
    case ChangeSourcePurging(i, p) => i != s.primary
    case SetSemiReplica(i, on) => true
    case SemiSourceOff(i) => i != s.primary
    case StartReplica(i) => true
    case CloneFromPrimary(i) => i != s.primary
    case CloneBroken(i) => i != s.primary
    case _ => false
  }

  lemma StatementKeeps(s: State, e: Event)
    requires Enabled(s, e) && Reconfigures(s, e) && s.primary < |s.insts|
    ensures ServersKept(s, Step(s, e), {e.i})
  {
    hide Ackers;
  }

  // ----- statements -----

  /** Between a and b the manager sent a part of es, from the first on, and all of it if ok. */
  ghost predicate Sends(a: seq<Event>, es: seq<Event>, b: seq<Event>, ok: bool) {
    a <= b <= a + es && (ok ==> b == a + es)
  }

  lemma SendsMore(a: seq<Event>, es: seq<Event>, b: seq<Event>, fs: seq<Event>, c: seq<Event>, ok: bool)
    requires Sends(a, es, b, true) && Sends(b, fs, c, ok)
    ensures Sends(a, es + fs, c, ok)
  {
    assert a + (es + fs) == a + es + fs;
  }

  lemma SendsPart(a: seq<Event>, es: seq<Event>, b: seq<Event>, fs: seq<Event>)
    requires Sends(a, es, b, false)
    ensures Sends(a, es + fs, b, false)
  {
    assert a + (es + fs) == a + es + fs;
  }

  /** One statement of a configure round. */
  method Statement(w: World, e: Event) returns (ok: bool)
    requires w.Valid() && w.pinned && e.i < |w.s.insts| && Reconfigures(w.s, e)
    requires Enabled(w.s, e) && Permitted(w.s, e)
    modifies w
    ensures old(w.faults) <= w.faults && (!ok ==> old(w.faults) < w.faults)
    ensures w.Valid() && Reconfigured(old(w.Now()), w.Now(), {e.i})
    ensures ok ==> w.s == Step(old(w.s), e)
    ensures w.s == Step(old(w.s), e) || w.s == old(w.s)
    ensures Sends(old(w.sent), [e], w.sent, ok)
  {
    hide Inv, Legal, Replay, Enabled, Permitted, Step, LabelsOk, ConnectionsOk, ErrantsOk, ServersKept, Keeps;
    InvPrimary(w.s);
    ghost var before := w.Now();
    var sent := w.Answered();
    if sent {
      StatementKeeps(w.s, e);
      w.Issue(e);
      w.sent := w.sent + [e];
      var answered := w.Answered();
      ok := answered;
    } else {
      ok := false;
      UndisturbedReflexive(before);
      UndisturbedReconfigures(before, before);
      KeptMore(before.s, before.s, {}, {e.i});
    }
  }

  lemma KeptMore(a: State, b: State, ks: set<nat>, ls: set<nat>)
    requires ServersKept(a, b, ks) && ks <= ls
    ensures ServersKept(a, b, ls)
  {
  }

  lemma InvPrimary(s: State)
    requires Inv(s)
    ensures s.primary < |s.insts|
  {
  }

  method StopReplicaIOThread(w: World, i: nat) returns (ok: bool)
    requires w.Valid() && i < |w.s.insts|
    modifies w
    ensures old(w.faults) <= w.faults && (!ok ==> old(w.faults) < w.faults)
    ensures w.Valid() && Undisturbed(old(w.Now()), w.Now())
    ensures ok ==> !w.s.insts[i].io
    ensures Sends(old(w.sent), [StopIo(i)], w.sent, ok)
  {
    hide Inv, Legal, Replay, Enabled, Permitted, LabelsOk, ConnectionsOk, ErrantsOk, Keeps, PodsKept;
    w.Interfere();
    var sent := w.Answered();
    if !sent {
      return false;
    }
    ghost var before := w.Now();
    SizeKept(old(w.s), w.s);
    StopIoEnabled(w.s, i);
    w.IssuePassive(StopIo(i));
    w.sent := w.sent + [StopIo(i)];
    UndisturbedTransitive(old(w.Now()), before, w.Now());
    ok := w.Answered();
  }

  lemma SizeKept(a: State, b: State)
    requires Keeps(a, b)
    ensures |a.insts| == |b.insts| && a.primary == b.primary
  {
  }

  lemma StopIoEnabled(s: State, i: nat)
    requires i < |s.insts|
    ensures Enabled(s, StopIo(i)) && Permitted(s, StopIo(i))
  {
  }

  /** SET GLOBAL super_read_only=1, which waits for running commits. */
  method SetReadOnly(w: World, i: nat) returns (ok: bool)
    requires w.Valid() && i < |w.s.insts|
    modifies w
    ensures old(w.faults) <= w.faults && (!ok ==> old(w.faults) < w.faults)
    ensures w.Valid() && Undisturbed(old(w.Now()), w.Now())
    ensures ok ==> w.s.insts[i].superReadOnly
    ensures Sends(old(w.sent), [Event.SetSuperReadOnly(i)], w.sent, ok) && w.kills == old(w.kills)
  {
    hide Inv, Legal, Replay, Permitted, LabelsOk, ConnectionsOk, ErrantsOk, Keeps, PodsKept;
    w.Interfere();
    SizeKept(old(w.s), w.s);
    var sent := w.Answered();
    if !sent {
      return false;
    }
    w.sent := w.sent + [Event.SetSuperReadOnly(i)];
    if w.s.insts[i].pending != {} {
      w.faults := w.faults + 1;
      return false;   // given up while it still waits
    }
    ghost var before := w.Now();
    w.IssuePassive(Event.SetSuperReadOnly(i));
    UndisturbedTransitive(old(w.Now()), before, w.Now());
    ok := w.Answered();
  }

  /** WAIT_FOR_EXECUTED_GTID_SET: success means that the set has been executed. */
  method WaitForGTID(w: World, i: nat, gtids: set<Gtid>) returns (ok: bool)
    requires w.Valid() && i < |w.s.insts|
    modifies w
    ensures old(w.faults) <= w.faults && (!ok ==> old(w.faults) < w.faults)
    ensures w.Valid() && Undisturbed(old(w.Now()), w.Now())
    ensures ok ==> gtids <= w.s.insts[i].executed
    ensures w.sent == old(w.sent)
  {
    hide Inv, Legal, Replay, LabelsOk, ConnectionsOk, ErrantsOk, Keeps, PodsKept;
    w.Interfere();
    SizeKept(old(w.s), w.s);
    var answered := w.Answered();
    ok := answered && gtids <= w.s.insts[i].executed;
    if !ok {
      w.faults := w.faults + 1;
    }
  }

  method KillConnections(w: World, i: nat) returns (ok: bool)
    requires w.Valid() && i < |w.s.insts|
    modifies w
    ensures old(w.faults) <= w.faults && (!ok ==> old(w.faults) < w.faults)
    ensures w.Valid() && Undisturbed(old(w.Now()), w.Now())
    ensures ok ==> w.conns[i] == {}
    ensures w.sent == old(w.sent) && w.kills == old(w.kills) + [i]
  {
    hide Inv, Legal, Replay, LabelsOk, ErrantsOk, Keeps;
    w.kills := w.kills + [i];
    w.Interfere();
    SizeKept(old(w.s), w.s);
    ok := w.Answered();
    var spared: set<Role> := *;   // the kills end at the first that fails
    ghost var before := w.Now();
    w.conns := w.conns[i := if ok then {} else w.conns[i] * spared];
    w.history := w.history + [PodView(w.pods, w.conns)];
    KeepsReflexive(w.s);
    assert PodsKept(before, w.Now());
    UndisturbedTransitive(old(w.Now()), before, w.Now());
  }

  /** The set an instance shows: executed and retrieved. */
  function Shown(st: D.Status): set<Gtid> { D.Gtids(Some(st)) }

  /** Reads the variables, the waiting sessions and the replica status of an instance, one after the other. */
  method GetStatus(w: World, i: nat) returns (r: Option<D.Status>, ghost m: Moment)
    requires w.Valid() && i < |w.s.insts|
    modifies w
    ensures old(w.faults) <= w.faults && (r.None? ==> old(w.faults) < w.faults)
    ensures w.Valid() && Undisturbed(old(w.Now()), w.Now())
    ensures r.Some? ==> Reflects(w.s, i, r.value) && !r.value.isErrant
    ensures r.Some? ==> ReadBetween(old(w.Now()), w.Now(), i, r.value)
    ensures w.sent == old(w.sent)
    // gtid_executed is that of one moment
    ensures Undisturbed(old(w.Now()), m) && Undisturbed(m, w.Now()) && Inv(m.s)
    ensures r.Some? ==> i < |m.s.insts| && r.value.executed == m.s.insts[i].executed
    // and so are the other variables
    ensures r.Some? ==>
              && r.value.purged == m.s.insts[i].purged && r.value.uuid == i
              && r.value.superReadOnly == m.s.insts[i].superReadOnly && r.value.readOnly == r.value.superReadOnly
              && r.value.waitCount == m.s.insts[i].waitCount && r.value.semiSource == m.s.insts[i].semiSource
              && r.value.semiReplica == m.s.insts[i].semiReplica
    // an instance without waiting sessions, other than the primary, will acknowledge nothing
    ensures r.Some? && i != w.s.primary && r.value.waitSessions == 0 ==> IsQuiet(w.s, i)
    // an instance that receives nothing any more has shown all that it ever received
    ensures r.Some? && r.value.replica.Some? && IsQuiet(old(w.s), i) && !old(w.s).insts[i].io ==>
              Frozen(w.s, i, Shown(r.value)) && old(w.s).insts[i].Received() <= Shown(r.value)
    // what the primary acknowledged as a replica is part of what it shows
    ensures r.Some? && i == w.s.primary ==> Settled(w.s, i, Shown(r.value))
    ensures r.Some? && i == w.s.primary && w.pinned && r.value.semiSource && r.value.waitCount == Half(w.s) ==>
              SemiReady(w.s)
  {
    hide Inv, Legal, Replay, LabelsOk, ConnectionsOk, ErrantsOk, Keeps, PodsKept, Reflects, Settled, Frozen, IsQuiet,
      Quiet, ReadBetween;
    w.Interfere();
    SizeKept(old(w.s), w.s);
    var connected: bool := *;
    var hosts: seq<int> := *;
    var behind: Option<int> := *;
    var clone: Option<string> := *;
    var answered := w.Answered();
    ghost var first := w.Now();
    m := first;
    UndisturbedReflexive(first);
    if !answered {
      r := None;
      return;
    }
    var vars := Observe(w.s, i, connected, hosts, behind, clone);
    ReadNow(w.s, i, connected, hosts, behind, clone);
    w.Interfere();
    SizeKept(first.s, w.s);
    ghost var second := w.Now();
    var sessions := Observe(w.s, i, connected, hosts, behind, clone).waitSessions;
    w.Interfere();
    SizeKept(second.s, w.s);
    var last := Observe(w.s, i, connected, hosts, behind, clone);
    var st := vars.(waitSessions := sessions, replica := last.replica);
    ReadNow(w.s, i, connected, hosts, behind, clone);
    UndisturbedTransitive(first, second, w.Now());
    UndisturbedTransitive(old(w.Now()), first, w.Now());
    ReadLater(first.s, w.s, i, vars, last.(waitSessions := sessions));
    ReadPieces(first, second, w.Now(), i, connected, hosts, behind, clone);
    ReadFrozen(old(w.s), w.s, i, st, connected, hosts, behind, clone);
    ReadInParts(old(w.Now()), first, second, w.Now(), i, connected, hosts, behind, clone);
    r := Some(st);
  }

  lemma ReadInParts(a: Moment, first: Moment, second: Moment, last: Moment, i: nat,
                    connected: bool, hosts: seq<int>, behind: Option<int>, clone: Option<string>)
    requires Undisturbed(a, first) && Undisturbed(first, second) && Undisturbed(second, last)
    requires i < |first.s.insts| == |second.s.insts| == |last.s.insts|
    ensures var vars := Observe(first.s, i, connected, hosts, behind, clone);
            var sessions := Observe(second.s, i, connected, hosts, behind, clone).waitSessions;
            var replica := Observe(last.s, i, connected, hosts, behind, clone).replica;
            ReadBetween(a, last, i, vars.(waitSessions := sessions, replica := replica))
  {
    var vars := Observe(first.s, i, connected, hosts, behind, clone);
    var sessions := Observe(second.s, i, connected, hosts, behind, clone).waitSessions;
    var replica := Observe(last.s, i, connected, hosts, behind, clone).replica;
    assert |a.pods| == |a.conns| && |first.pods| == |first.conns| && |second.pods| == |second.conns|
           && |last.pods| == |last.conns|;
    UndisturbedReflexive(a);
    hide Undisturbed, VarsRead, SessionsRead, ReplicaRead, Observe;
    UndisturbedTransitive(a, first, second);
    UndisturbedTransitive(first, second, last);
    UndisturbedTransitive(a, second, last);
    NowRead(a, first, i, connected, hosts, behind, clone);
    NowRead(a, second, i, connected, hosts, behind, clone);
    NowRead(a, last, i, connected, hosts, behind, clone);
    VarsStay(a, a, first, last, i, vars, vars.(waitSessions := sessions, replica := replica));
    SessionsStay(a, a, second, last, i, sessions);
  }

  lemma ReadFrozen(a: State, s: State, i: nat, st: D.Status,
                   connected: bool, hosts: seq<int>, behind: Option<int>, clone: Option<string>)
    requires Keeps(a, s) && i < |a.insts| && Inv(s)
    requires st.replica == Observe(s, i, connected, hosts, behind, clone).replica
    ensures i == s.primary ==> Settled(s, i, Shown(st))
    ensures st.replica.Some? && IsQuiet(a, i) && !a.insts[i].io ==>
              Frozen(s, i, Shown(st)) && a.insts[i].Received() <= Shown(st)
  {
    hide Inv, Frozen, Settled, IsQuiet;
    SettledNow(s);
    assert InstanceKept(a.insts[i], s.insts[i]);
    if st.replica.Some? {
      assert Shown(st) == s.insts[i].Received();
      if IsQuiet(a, i) && !a.insts[i].io {
        FrozenNow(s, i);
      }
    }
  }

  lemma ReadPieces(first: Moment, second: Moment, last: Moment, i: nat,
                   connected: bool, hosts: seq<int>, behind: Option<int>, clone: Option<string>)
    requires Undisturbed(first, second) && Undisturbed(second, last) && Inv(second.s) && i < |first.s.insts|
    requires |second.s.insts| == |first.s.insts| == |last.s.insts|
    requires second.s.primary == first.s.primary == last.s.primary
    ensures i != last.s.primary && Observe(second.s, i, connected, hosts, behind, clone).waitSessions == 0 ==>
              IsQuiet(last.s, i)
    ensures var vars := Observe(first.s, i, connected, hosts, behind, clone);
            i == last.s.primary && last.pinned && vars.semiSource && vars.waitCount == Half(last.s) ==>
              SemiReady(last.s)
  {
    hide Inv, Frozen, Settled, IsQuiet, PodsKept, Candidate;
    if i != last.s.primary && |second.s.insts[i].pending| == 0 {
      NobodyWaits(second.s, i);
    }
  }

  // ----- configuring -----

  /** Conditions under which a statement may be sent, whatever the environment does before it arrives. */
  predicate ReadyFor(s: State, e: Event) {
    e.i < |s.insts| &&
    var x := s.insts[e.i];
    match e
    case StopIo(i) => true
    case SetWaitCount(i, n) => i == s.primary && n == Half(s)
    case SemiSourceOn(i) => i == s.primary
    case ChangeSource(i, p) => i != s.primary && p == s.primary && p < |s.insts| && !x.io
    case SetSemiReplica(i, on) => true
    case SemiSourceOff(i) => i != s.primary && x.superReadOnly
    case StartReplica(i) => i != s.primary && x.superReadOnly && x.source == Some(s.primary)
    case CloneFromPrimary(i) => i != s.primary && s.primary < |s.insts| && x.superReadOnly && x.source == None
    case _ => false
  }

  lemma ReadyStays(a: State, b: State, e: Event)
    requires Keeps(a, b) && ReadyFor(a, e)
    ensures e.i < |b.insts| && Enabled(b, e) && Permitted(b, e) && Reconfigures(b, e)
  {
    assert InstanceKept(a.insts[e.i], b.insts[e.i]);
  }

  /** What a statement that succeeded tells about its target, compared with when it was sent. */
  ghost predicate Effect(x: Instance, e: Event, y: Instance) {
    && (x.superReadOnly ==> y.superReadOnly)
    && y.source == (if e.ChangeSource? then Some(e.p) else x.source)
    && ((e.StopIo? || !x.io) && !e.StartReplica? ==> !y.io)
    && (e.SemiSourceOn? ==> y.semiSource)
    && (e.SetWaitCount? ==> y.waitCount == e.count)
    && (e.SetSemiReplica? ==> y.semiReplica == e.on)
  }

  lemma EffectOf(a: State, b: State, e: Event)
    requires Keeps(a, b) && ReadyFor(a, e) && Enabled(b, e)
    ensures Effect(a.insts[e.i], e, Step(b, e).insts[e.i])
  {
    assert InstanceKept(a.insts[e.i], b.insts[e.i]);
  }

  method Send(w: World, e: Event) returns (ok: bool)
    requires w.Valid() && w.pinned && ReadyFor(w.s, e)
    modifies w
    ensures old(w.faults) <= w.faults && (!ok ==> old(w.faults) < w.faults)
    ensures w.Valid() && Reconfigured(old(w.Now()), w.Now(), {e.i})
    ensures w.pinned && |w.s.insts| == |old(w.s).insts| && w.s.primary == old(w.s).primary
    ensures ok ==> Effect(old(w.s).insts[e.i], e, w.s.insts[e.i])
    ensures Sends(old(w.sent), [e], w.sent, ok)
  {
    hide Inv, Legal, Replay, Enabled, Permitted, Reconfigures, Step, LabelsOk, ConnectionsOk, ErrantsOk, ServersKept,
      Keeps,
      PodsKept, ReadyFor, Effect;
    ghost var before := w.Now();
    InvPrimary(w.s);
    w.Interfere();
    ghost var middle := w.Now();
    UndisturbedReconfigures(before, middle);
    ReadyStays(before.s, w.s, e);
    EffectOf(before.s, w.s, e);
    ok := Statement(w, e);
    ReconfiguredTransitive(before, middle, w.Now(), {}, {e.i});
    assert {} + {e.i} == {e.i};
    ReconfiguredFrame(before, w.Now(), {e.i});
  }

  lemma ReconfiguredFrame(a: Moment, b: Moment, ks: set<nat>)
    requires Reconfigured(a, b, ks)
    ensures b.pinned && |b.s.insts| == |a.s.insts| && b.s.primary == a.s.primary
  {
  }

  /** Two statements, or two methods, in a row. */
  lemma Chain(a: Moment, b: Moment, c: Moment, ks: set<nat>)
    requires Reconfigured(a, b, ks) && Reconfigured(b, c, ks)
    ensures Reconfigured(a, c, ks)
  {
    ReconfiguredTransitive(a, b, c, ks, ks);
    assert ks + ks == ks;
  }

  /** A clone may fail half-way and leave the instance empty. */
  method CloneInstance(w: World, i: nat) returns (ok: bool)
    requires w.Valid() && w.pinned && ReadyFor(w.s, CloneFromPrimary(i))
    modifies w
    ensures old(w.faults) <= w.faults && (!ok ==> old(w.faults) < w.faults)
    ensures w.Valid() && Reconfigured(old(w.Now()), w.Now(), {i})
    ensures w.pinned && |w.s.insts| == |old(w.s).insts| && w.s.primary == old(w.s).primary
    ensures ok ==> Effect(old(w.s).insts[i], CloneFromPrimary(i), w.s.insts[i])
    ensures Sends(old(w.sent), [CloneFromPrimary(i)], w.sent, ok)
  {
    hide Inv, Legal, Replay, Enabled, Permitted, Reconfigures, Step, LabelsOk, ConnectionsOk, ErrantsOk, ServersKept,
      Keeps, PodsKept, ReadyFor, Effect, Spare;
    var breaks: bool := *;
    if !breaks {
      ok := Send(w, CloneFromPrimary(i));
      return;
    }
    ghost var before := w.Now();
    InvPrimary(w.s);
    w.Interfere();
    ghost var middle := w.Now();
    UndisturbedReconfigures(before, middle);
    KeptMore(before.s, middle.s, {}, {i});
    ReadyStays(before.s, w.s, CloneFromPrimary(i));
    ok := false;
    w.faults := w.faults + 1;
    w.sent := w.sent + [CloneFromPrimary(i)];
    if Spare(w.s, i) {
      BrokenPermitted(w.s, i);
      StatementKeeps(w.s, CloneBroken(i));
      w.Issue(CloneBroken(i));
      StepReconfigures(middle, w.Now(), {i});
      ReconfiguredTransitive(before, middle, w.Now(), {i}, {i});
      assert {i} + {i} == {i};
    }
    ReconfiguredFrame(before, w.Now(), {i});
  }

  /** CHANGE REPLICATION SOURCE may delete the relay log. */
  method Repoint(w: World, i: nat, p: nat) returns (ok: bool)
    requires w.Valid() && w.pinned && ReadyFor(w.s, ChangeSource(i, p))
    modifies w
    ensures old(w.faults) <= w.faults && (!ok ==> old(w.faults) < w.faults)
    ensures w.Valid() && Reconfigured(old(w.Now()), w.Now(), {i})
    ensures w.pinned && |w.s.insts| == |old(w.s).insts| && w.s.primary == old(w.s).primary
    ensures ok ==> Effect(old(w.s).insts[i], ChangeSource(i, p), w.s.insts[i])
    ensures Sends(old(w.sent), [ChangeSource(i, p)], w.sent, ok)
  {
    hide Inv, Legal, Replay, Enabled, Permitted, Reconfigures, Step, LabelsOk, ConnectionsOk, ErrantsOk, ServersKept,
      Keeps, PodsKept, ReadyFor, Effect, SpareLog;
    var purges: bool := *;
    if !purges {
      ok := Send(w, ChangeSource(i, p));
      return;
    }
    ghost var before := w.Now();
    InvPrimary(w.s);
    w.Interfere();
    ghost var middle := w.Now();
    UndisturbedReconfigures(before, middle);
    KeptMore(before.s, middle.s, {}, {i});
    ReadyStays(before.s, w.s, ChangeSource(i, p));
    ok := false;
    w.sent := w.sent + [ChangeSource(i, p)];
    if !SpareLog(w.s, i) {
      w.faults := w.faults + 1;
    } else {
      PurgingPermitted(before.s, w.s, i, p);
      StatementKeeps(w.s, ChangeSourcePurging(i, p));
      w.Issue(ChangeSourcePurging(i, p));
      StepReconfigures(middle, w.Now(), {i});
      ReconfiguredTransitive(before, middle, w.Now(), {i}, {i});
      assert {i} + {i} == {i};
      ok := w.Answered();
    }
    ReconfiguredFrame(before, w.Now(), {i});
  }

  lemma PurgingPermitted(a: State, s: State, i: nat, p: nat)
    requires i < |s.insts| && Enabled(s, ChangeSource(i, p)) && Permitted(s, ChangeSource(i, p)) && SpareLog(s, i)
    requires Keeps(a, s) && i < |a.insts|
    ensures Enabled(s, ChangeSourcePurging(i, p)) && Permitted(s, ChangeSourcePurging(i, p))
    ensures Reconfigures(s, ChangeSourcePurging(i, p))
    ensures Effect(a.insts[i], ChangeSource(i, p), Step(s, ChangeSourcePurging(i, p)).insts[i])
  {
    hide SpareLog, Frozen, Candidate, IsQuiet, Settled;
    assert InstanceKept(a.insts[i], s.insts[i]);
  }

  lemma BrokenPermitted(s: State, i: nat)
    requires i < |s.insts| && Enabled(s, CloneFromPrimary(i)) && Permitted(s, CloneFromPrimary(i)) && Spare(s, i)
    ensures Enabled(s, CloneBroken(i)) && Permitted(s, CloneBroken(i)) && Reconfigures(s, CloneBroken(i))
  {
  }

  lemma StepReconfigures(a: Moment, b: Moment, ks: set<nat>)
    requires ServersKept(a.s, b.s, ks) && b == a.(s := b.s, log := b.log) && a.log <= b.log && a.pinned
    requires |a.pods| == |a.conns|
    ensures Reconfigured(a, b, ks)
  {
  }

  /** The statements of ConfigureReplica. */
  function ReplicaStatements(i: nat, p: nat, semisync: bool): seq<Event> {
    [StopIo(i), ChangeSource(i, p), SetSemiReplica(i, semisync), SemiSourceOff(i), StartReplica(i)]
  }

  method ConfigureReplica(w: World, i: nat, semisync: bool) returns (ok: bool)
    requires w.Valid() && w.pinned && i < |w.s.insts| && i != w.s.primary && w.s.insts[i].superReadOnly
    modifies w
    ensures old(w.faults) <= w.faults && (!ok ==> old(w.faults) < w.faults)
    ensures w.Valid() && Reconfigured(old(w.Now()), w.Now(), {i})
    ensures w.pinned && |w.s.insts| == |old(w.s).insts| && w.s.primary == old(w.s).primary
    ensures ok ==> w.s.insts[i].superReadOnly && w.s.insts[i].source == Some(w.s.primary)
    ensures Sends(old(w.sent), ReplicaStatements(i, old(w.s).primary, semisync), w.sent, ok)
    ensures ok ==> w.sent == old(w.sent) + [StopIo(i), ChangeSource(i, old(w.s).primary), SetSemiReplica(i, semisync),
                                            SemiSourceOff(i), StartReplica(i)]
  {
    hide Inv, Legal, Replay, LabelsOk, ConnectionsOk, ErrantsOk, Reconfigured, ViewOk, SemiReady, CountReady;
    ghost var a := w.Now();
    InvPrimary(w.s);
    var p := w.s.primary;
    ok := Send(w, StopIo(i));
    if !ok { return; }
    var version: string := *;
    if version != "8.4" && version != "8.0" {
      w.faults := w.faults + 1;
      return false;
    }
    ghost var b := w.Now();
    ok := Repoint(w, i, p);
    Chain(a, b, w.Now(), {i});
    if !ok { return; }
    b := w.Now();
    ok := FollowPrimary(w, i, semisync);
    Chain(a, b, w.Now(), {i});
  }

  /** The second half of ConfigureReplica, once the source has been changed. */
  method FollowPrimary(w: World, i: nat, semisync: bool) returns (ok: bool)
    requires w.Valid() && w.pinned && i < |w.s.insts| && i != w.s.primary
    requires w.s.insts[i].superReadOnly && w.s.insts[i].source == Some(w.s.primary)
    modifies w
    ensures old(w.faults) <= w.faults && (!ok ==> old(w.faults) < w.faults)
    ensures w.Valid() && Reconfigured(old(w.Now()), w.Now(), {i})
    ensures w.pinned && |w.s.insts| == |old(w.s).insts| && w.s.primary == old(w.s).primary
    ensures ok ==> w.s.insts[i].superReadOnly && w.s.insts[i].source == Some(w.s.primary)
    ensures Sends(old(w.sent), [SetSemiReplica(i, semisync), SemiSourceOff(i), StartReplica(i)], w.sent, ok)
  {
    hide *;
    ghost var a := w.Now();
    ghost var es := [SetSemiReplica(i, semisync), SemiSourceOff(i), StartReplica(i)];
    assert es == [es[0]] + [es[1]] + [es[2]] == [es[0]] + ([es[1]] + [es[2]]);
    ReadyToFollow(w.s, i, semisync);
    ghost var x := w.s.insts[i];
    ok := Send(w, SetSemiReplica(i, semisync));
    if !ok {
      SendsPart(old(w.sent), [es[0]], w.sent, [es[1]] + [es[2]]);
      return;
    }
    ghost var b, sent := w.Now(), w.sent;
    StillFollows(x, es[0], w.s.insts[i]);
    x := w.s.insts[i];
    ReadyToFollow(w.s, i, semisync);
    ok := Send(w, SemiSourceOff(i));
    Chain(a, b, w.Now(), {i});
    SendsMore(old(w.sent), [es[0]], sent, [es[1]], w.sent, ok);
    if !ok {
      SendsPart(old(w.sent), [es[0]] + [es[1]], w.sent, [es[2]]);
      return;
    }
    StillFollows(x, es[1], w.s.insts[i]);
    x := w.s.insts[i];
    ReadyToFollow(w.s, i, semisync);
    b, sent := w.Now(), w.sent;
    ok := Send(w, StartReplica(i));
    Chain(a, b, w.Now(), {i});
    if ok {
      StillFollows(x, es[2], w.s.insts[i]);
    }
    SendsMore(old(w.sent), [es[0]] + [es[1]], sent, [es[2]], w.sent, ok);
  }

  lemma ReadyToFollow(s: State, i: nat, semisync: bool)
    requires i < |s.insts| && i != s.primary && s.insts[i].superReadOnly && s.insts[i].source == Some(s.primary)
    ensures ReadyFor(s, SetSemiReplica(i, semisync)) && ReadyFor(s, SemiSourceOff(i)) && ReadyFor(s, StartReplica(i))
  {
  }

  lemma StillFollows(x: Instance, e: Event, y: Instance)
    requires Effect(x, e, y) && x.superReadOnly && !e.ChangeSource?
    ensures y.superReadOnly && y.source == x.source
  {
  }

  function PrimaryStatements(p: nat, count: nat): seq<Event> { [SetWaitCount(p, count), SemiSourceOn(p)] }

  method ConfigurePrimary(w: World) returns (ok: bool)
    requires w.Valid() && w.pinned
    modifies w
    ensures old(w.faults) <= w.faults && (!ok ==> old(w.faults) < w.faults)
    ensures w.Valid() && Reconfigured(old(w.Now()), w.Now(), {old(w.s).primary})
    ensures ok ==> SemiReady(w.s)
    ensures Sends(old(w.sent), PrimaryStatements(old(w.s).primary, Half(old(w.s))), w.sent, ok)
    ensures ok ==> w.sent == old(w.sent) + [SetWaitCount(old(w.s).primary, |old(w.s).insts| / 2),
                                            SemiSourceOn(old(w.s).primary)]
  {
    hide Inv, Legal, Replay, LabelsOk, ConnectionsOk, ErrantsOk, PodsKept, ServersKept;
    ghost var a := w.Now();
    InvPrimary(w.s);
    var p := w.s.primary;
    // SET GLOBAL rpl_semi_sync_master_timeout, which the model does not hold
    var sent := w.Answered();
    if !sent {
      UndisturbedReflexive(a);
      UndisturbedReconfigures(a, a);
      KeptMore(a.s, a.s, {}, {p});
      return false;
    }
    ok := Send(w, SetWaitCount(p, Half(w.s)));
    if !ok { return; }
    ghost var b := w.Now();
    ok := Send(w, SemiSourceOn(p));
    CountKept(b, w.Now(), {p});
    Chain(a, b, w.Now(), {p});
  }

  lemma CountKept(a: Moment, b: Moment, ks: set<nat>)
    requires Reconfigured(a, b, ks) && CountReady(a.s)
    ensures CountReady(b.s)
  {
  }

  function WritableStatements(p: nat): seq<Event> { [StopIo(p), ResetReplica(p), Event.SetReadWrite(p)] }

  /** STOP REPLICA, RESET REPLICA and SET GLOBAL read_only=0 on the primary. */
  method ClearReadOnly(w: World, ghost v: set<Gtid>) returns (ok: bool)
    requires w.Valid() && w.pinned && w.s.primary < |w.s.insts| && SemiReady(w.s)
    requires Settled(w.s, w.s.primary, v) && v <= w.s.insts[w.s.primary].executed
    modifies w
    ensures old(w.faults) <= w.faults && (!ok ==> old(w.faults) < w.faults)
    ensures w.Valid() && Onward(old(w.Now()), w.Now())
    ensures Sends(old(w.sent), WritableStatements(old(w.s).primary), w.sent, ok)
    ensures ok ==> w.sent == old(w.sent) + [StopIo(old(w.s).primary), ResetReplica(old(w.s).primary),
                                            Event.SetReadWrite(old(w.s).primary)]
    ensures ok ==> !w.s.insts[w.s.primary].superReadOnly
  {
    hide Inv, Legal, Replay, LabelsOk, ConnectionsOk, ErrantsOk, Settled, Step, Enabled, Permitted, Keeps, Onward,
      PodsKept, SemiReady, CountReady, ViewOk;
    ghost var a := w.Now();
    var p := w.s.primary;
    ok := StopReplicaIOThread(w, p);
    ghost var b := w.Now();
    UndisturbedOnward(a, b);
    if !ok { return; }
    w.Interfere();
    UndisturbedTransitive(a, b, w.Now());
    UndisturbedOnward(a, w.Now());
    var sent := w.Answered();
    if !sent { return false; }
    ghost var c := w.Now();
    ResetAllowed(a.s, b.s, c.s, v);
    ResetKeeps(c.s);
    w.Issue(ResetReplica(p));
    w.sent := w.sent + [ResetReplica(p)];
    OnwardStep(a, c, w.Now());
    ok := w.Answered();
    if !ok { return; }
    ok := OpenForWrites(w, a);
  }

  /** The last statement: it takes effect on a stopped and emptied replica channel only. */
  method OpenForWrites(w: World, ghost a: Moment) returns (ok: bool)
    requires w.Valid() && w.pinned && w.s.primary < |w.s.insts| && SemiReady(w.s)
    requires !w.s.insts[w.s.primary].io && w.s.insts[w.s.primary].retrieved == {}
    requires Onward(a, w.Now())
    modifies w
    ensures old(w.faults) <= w.faults && (!ok ==> old(w.faults) < w.faults)
    ensures w.Valid() && Onward(a, w.Now())
    ensures Sends(old(w.sent), [Event.SetReadWrite(old(w.s).primary)], w.sent, ok)
    ensures ok ==> !w.s.insts[w.s.primary].superReadOnly
  {
    hide Inv, Legal, Replay, LabelsOk, ConnectionsOk, ErrantsOk, Settled, Step, Enabled, Permitted, Keeps, Onward,
      PodsKept;
    ghost var c := w.Now();
    w.Interfere();
    ghost var d := w.Now();
    UndisturbedOnward(c, d);
    OnwardStep(a, c, d);
    var sent := w.Answered();
    if !sent { return false; }
    WritableAllowed(c.s, w.s);
    ghost var e := Event.SetReadWrite(w.s.primary);
    w.Issue(Event.SetReadWrite(w.s.primary));
    w.sent := w.sent + [e];
    OnwardStep(a, d, w.Now());
    ok := w.Answered();
  }

  /** The round goes on: same cluster, same primary, same stored list, and no label added. */
  ghost predicate Onward(a: Moment, b: Moment) {
    && PodsKept(a, b) && |b.s.insts| == |a.s.insts| && b.s.primary == a.s.primary
    && b.start == a.start && a.log <= b.log && b.errantList == a.errantList
  }

  lemma UndisturbedOnward(a: Moment, b: Moment)
    requires Undisturbed(a, b)
    ensures Onward(a, b)
  {
  }

  /** Steps of the servers leave the Pods alone. */
  lemma OnwardStep(a: Moment, b: Moment, c: Moment)
    requires Onward(a, b)
    requires || Onward(b, c)
             || (&& c == b.(s := c.s, log := c.log) && b.log <= c.log
                 && |c.s.insts| == |b.s.insts| && c.s.primary == b.s.primary)
    ensures Onward(a, c)
  {
    forall i: nat | i < |a.pods| ensures PodKept(a, c, i) {
      assert PodKept(a, b, i);
      assert Onward(b, c) ==> PodKept(b, c, i);
    }
  }

  lemma ResetAllowed(a: State, b: State, c: State, v: set<Gtid>)
    requires Keeps(a, b) && Keeps(b, c) && a.primary < |a.insts| && !b.insts[a.primary].io
    requires Settled(a, a.primary, v) && v <= a.insts[a.primary].executed
    ensures c.primary == a.primary < |c.insts|
    ensures Enabled(c, ResetReplica(c.primary)) && Permitted(c, ResetReplica(c.primary))
  {
    var p := a.primary;
    assert InstanceKept(a.insts[p], b.insts[p]) && InstanceKept(b.insts[p], c.insts[p]);
    assert Settled(c, p, v);
  }

  lemma ResetKeeps(s: State)
    requires s.primary < |s.insts| && Enabled(s, ResetReplica(s.primary))
    ensures var s' := Step(s, ResetReplica(s.primary));
            && s'.primary == s.primary && !s'.insts[s.primary].io && s'.insts[s.primary].retrieved == {}
            && (SemiReady(s) ==> SemiReady(s'))
  {
  }

  lemma WritableAllowed(a: State, b: State)
    requires Keeps(a, b) && a.primary < |a.insts| && !a.insts[a.primary].io && a.insts[a.primary].retrieved == {}
    requires SemiReady(b)
    ensures b.primary == a.primary < |b.insts|
    ensures Enabled(b, Event.SetReadWrite(b.primary)) && Permitted(b, Event.SetReadWrite(b.primary))
    ensures !Step(b, Event.SetReadWrite(b.primary)).insts[b.primary].superReadOnly
    ensures Step(b, Event.SetReadWrite(b.primary)).primary == b.primary
  {
    assert InstanceKept(a.insts[a.primary], b.insts[a.primary]);
  }
}
