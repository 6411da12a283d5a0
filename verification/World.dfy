/**
 The cluster as the manager meets it: database servers, Pods and the stored status.  Every statement may fail,
 with or without having taken effect, and the environment may take any number of steps before it.
 */
module World {
  import opened Basics
  import opened Replication
  import opened ReplicationSafety
  import opened Runs
  import opened Status
  import D = Dbop

  // ----- role labels -----

  /** At most one Pod is labelled primary. */
  ghost predicate LabelsOk(pods: seq<Pod>) {
    forall i, j :: 0 <= i < j < |pods| ==> pods[i].role != RolePrimary || pods[j].role != RolePrimary
  }

  /** Client connections to a labelled Pod were all opened under the role it has now. */
  ghost predicate ConnectionsOk(pods: seq<Pod>, conns: seq<set<Role>>)
    requires |pods| == |conns|
  {
    forall i :: 0 <= i < |pods| && pods[i].role in {RolePrimary, RoleReplica} ==> conns[i] <= {pods[i].role}
  }

  datatype PodView = PodView(pods: seq<Pod>, conns: seq<set<Role>>)

  ghost predicate ViewOk(v: PodView) {
    |v.pods| == |v.conns| && LabelsOk(v.pods) && ConnectionsOk(v.pods, v.conns)
  }

  ghost predicate ErrantsOk(errants: seq<nat>, s: State) {
    forall k :: 0 <= k < |errants| ==> errants[k] < |s.insts| && errants[k] != s.primary
  }

  // ----- reading an instance -----

  function HostOf(s: State, p: nat): D.Host {
    if p < |s.insts| then D.PodHost(p) else D.ExternalHost(p - |s.insts|)
  }

  /**
   What the manager sees of instance i; the IO state, the attached replicas and the clone state are up to the network.
   */
  function Observe(s: State, i: nat, connected: bool, hosts: seq<int>, behind: Option<int>,
                   clone: Option<string>): D.Status
    requires i < |s.insts|
  {
    var x := s.insts[i];
    D.Status(false, i, x.executed, x.purged, x.superReadOnly, x.superReadOnly, x.waitCount, x.semiSource, x.semiReplica,
             |x.pending|, hosts,
             if x.source.None? then None
             else Some(D.ReplicaStatus(HostOf(s, x.source.value), x.retrieved, x.executed,
                                       if !x.io then D.IoNo else if connected then D.IoYes else D.IoConnecting,
                                       behind)),
             clone)
  }

  /** What stays true of instance i once st has been read from it, as long as only the environment acts. */
  ghost predicate Reflects(s: State, i: nat, st: D.Status) {
    && i < |s.insts|
    && var x := s.insts[i];
       && st.uuid == i
       && st.executed <= x.executed
       && st.readOnly == st.superReadOnly
       && (if st.superReadOnly then x.superReadOnly else !x.io && x.retrieved == {})
       && (match st.replica
           case None => x.source == None
           case Some(r) =>
             && x.source.Some? && r.sourceHost == D.PodHost(x.source.value)
             && r.executed <= x.executed && r.retrieved <= x.retrieved)
  }

  lemma ReflectsKept(a: State, b: State, i: nat, st: D.Status)
    requires Keeps(a, b) && Reflects(a, i, st)
    ensures Reflects(b, i, st)
  {
    assert InstanceKept(a.insts[i], b.insts[i]);
  }

  /** Between two reads of the same instance the source it follows does not change. */
  lemma ReadLater(a: State, b: State, i: nat, st: D.Status, later: D.Status)
    requires Keeps(a, b) && Reflects(a, i, st) && Reflects(b, i, later)
    ensures Reflects(b, i, st.(waitSessions := later.waitSessions, replica := later.replica))
  {
    ReflectsKept(a, b, i, st);
  }

  lemma ReadNow(s: State, i: nat, connected: bool, hosts: seq<int>, behind: Option<int>, clone: Option<string>)
    requires Inv(s) && i < |s.insts|
    ensures Reflects(s, i, Observe(s, i, connected, hosts, behind, clone))
  {
    assert InstanceOk(s, i);
  }

  /** An instance other than the primary at which no session waits can acknowledge nothing any more. */
  lemma NobodyWaits(s: State, i: nat)
    requires Inv(s) && i < |s.insts| && i != s.primary && |s.insts[i].pending| == 0
    ensures IsQuiet(s, i)
  {
    if !s.insts[i].superReadOnly {
      assert Fenced(s, i, s.insts[s.primary].executed);
    }
  }

  lemma FrozenNow(s: State, i: nat)
    requires IsQuiet(s, i) && !s.insts[i].io
    ensures Frozen(s, i, s.insts[i].Received())
  {
  }

  /** What the primary acknowledged as a replica is part of what it has received. */
  lemma SettledNow(s: State)
    requires Inv(s)
    ensures Settled(s, s.primary, s.insts[s.primary].Received())
    ensures s.insts[s.primary].source == None ==> Settled(s, s.primary, {})
  {
    forall o: nat, g | o < |s.insts| && g in s.insts[o].pending && (g, s.primary) in s.insts[o].acks
      ensures g in s.insts[s.primary].Received() && s.insts[s.primary].source.Some?
    {
      assert AcksOk(s, o);
    }
  }

  // ----- what the manager may rely on -----

  datatype Moment = Moment(
    s: State, start: State, log: seq<Event>, errantList: seq<nat>, pinned: bool,
    pods: seq<Pod>, conns: seq<set<Role>>, recreated: set<nat>)

  ghost predicate DataKept(a: Moment, b: Moment) {
    && Keeps(a.s, b.s) && b.start == a.start && a.log <= b.log
    && b.errantList == a.errantList && b.pinned == a.pinned
    && (a.pinned && SemiReady(a.s) ==> SemiReady(b.s))
    && (a.pinned && CountReady(a.s) ==> CountReady(b.s))
  }

  /** A label goes away only together with the Pod that bears it, and an unlabelled Pod gets no new clients. */
  ghost predicate PodKept(a: Moment, b: Moment, i: nat)
    requires i < |a.pods| == |a.conns| && i < |b.pods| == |b.conns|
  {
    && (b.pods[i].role == a.pods[i].role || (b.pods[i].role == Unset && i in b.recreated))
    && (a.pods[i].role == Unset ==> b.conns[i] <= a.conns[i])
  }

  ghost predicate PodsKept(a: Moment, b: Moment) {
    && |b.pods| == |a.pods| == |a.conns| == |b.conns| && a.recreated <= b.recreated
    && forall i: nat :: i < |a.pods| ==> PodKept(a, b, i)
  }

  /** What the manager still knows after the environment has had its turn. */
  ghost predicate Undisturbed(a: Moment, b: Moment) {
    DataKept(a, b) && PodsKept(a, b)
  }

  lemma UndisturbedReflexive(a: Moment)
    requires |a.pods| == |a.conns|
    ensures Undisturbed(a, a)
  {
    KeepsReflexive(a.s);
  }

  lemma UndisturbedTransitive(a: Moment, b: Moment, c: Moment)
    requires Undisturbed(a, b) && Undisturbed(b, c)
    ensures Undisturbed(a, c)
  {
    hide Keeps, SemiReady;
    KeepsTransitive(a.s, b.s, c.s);
    forall i: nat | i < |a.pods| ensures PodKept(a, c, i) {
      assert PodKept(a, b, i) && PodKept(b, c, i);
    }
  }

  // ----- when an instance was read -----

  /** The variables in st are those of instance i at the moment m. */
  ghost predicate VarsAt(m: Moment, i: nat, st: D.Status) {
    && i < |m.s.insts|
    && var x := m.s.insts[i];
       && st.uuid == i && st.executed == x.executed && st.purged == x.purged
       && st.superReadOnly == x.superReadOnly && st.readOnly == x.superReadOnly
       && st.waitCount == x.waitCount && st.semiSource == x.semiSource && st.semiReplica == x.semiReplica
  }

  ghost predicate SessionsAt(m: Moment, i: nat, n: nat) {
    i < |m.s.insts| && n == |m.s.insts[i].pending|
  }

  ghost predicate ReplicaAt(m: Moment, i: nat, r: Option<D.ReplicaStatus>) {
    && i < |m.s.insts|
    && var x := m.s.insts[i];
       && (r.None? <==> x.source.None?)
       && (r.Some? ==>
             && r.value.sourceHost == (if x.source.value < |m.s.insts| then D.PodHost(x.source.value)
                                       else D.ExternalHost(x.source.value - |m.s.insts|))
             && r.value.retrieved == x.retrieved && r.value.executed == x.executed
             && (r.value.io == D.IoNo <==> !x.io))
  }

  ghost predicate VarsRead(a: Moment, b: Moment, i: nat, st: D.Status) {
    exists m :: Undisturbed(a, m) && Undisturbed(m, b) && VarsAt(m, i, st)
  }

  ghost predicate SessionsRead(a: Moment, b: Moment, i: nat, n: nat) {
    exists m :: Undisturbed(a, m) && Undisturbed(m, b) && SessionsAt(m, i, n)
  }

  ghost predicate ReplicaRead(a: Moment, b: Moment, i: nat, r: Option<D.ReplicaStatus>) {
    exists m :: Undisturbed(a, m) && Undisturbed(m, b) && ReplicaAt(m, i, r)
  }

  /** Each part of st is what instance i had at some moment between a and b. */
  ghost predicate ReadBetween(a: Moment, b: Moment, i: nat, st: D.Status) {
    VarsRead(a, b, i, st) && SessionsRead(a, b, i, st.waitSessions) && ReplicaRead(a, b, i, st.replica)
  }

  lemma VarsStay(a: Moment, b: Moment, c: Moment, d: Moment, i: nat, st: D.Status, later: D.Status)
    requires Undisturbed(a, b) && Undisturbed(c, d) && VarsRead(b, c, i, st)
    requires later == st.(isErrant := later.isErrant, waitSessions := later.waitSessions, replica := later.replica)
    ensures VarsRead(a, d, i, later)
  {
    hide Undisturbed;
    var m :| Undisturbed(b, m) && Undisturbed(m, c) && VarsAt(m, i, st);
    UndisturbedTransitive(a, b, m);
    UndisturbedTransitive(m, c, d);
    assert VarsAt(m, i, later);
  }

  lemma SessionsStay(a: Moment, b: Moment, c: Moment, d: Moment, i: nat, n: nat)
    requires Undisturbed(a, b) && Undisturbed(c, d) && SessionsRead(b, c, i, n)
    ensures SessionsRead(a, d, i, n)
  {
    hide Undisturbed;
    var m :| Undisturbed(b, m) && Undisturbed(m, c) && SessionsAt(m, i, n);
    UndisturbedTransitive(a, b, m);
    UndisturbedTransitive(m, c, d);
  }

  lemma ReplicaStays(a: Moment, b: Moment, c: Moment, d: Moment, i: nat, r: Option<D.ReplicaStatus>)
    requires Undisturbed(a, b) && Undisturbed(c, d) && ReplicaRead(b, c, i, r)
    ensures ReplicaRead(a, d, i, r)
  {
    hide Undisturbed;
    var m :| Undisturbed(b, m) && Undisturbed(m, c) && ReplicaAt(m, i, r);
    UndisturbedTransitive(a, b, m);
    UndisturbedTransitive(m, c, d);
  }

  lemma ReadStays(a: Moment, b: Moment, c: Moment, d: Moment, i: nat, st: D.Status)
    requires Undisturbed(a, b) && Undisturbed(c, d) && ReadBetween(b, c, i, st)
    ensures ReadBetween(a, d, i, st)
  {
    hide Undisturbed, VarsRead, SessionsRead, ReplicaRead;
    VarsStay(a, b, c, d, i, st, st);
    SessionsStay(a, b, c, d, i, st.waitSessions);
    ReplicaStays(a, b, c, d, i, st.replica);
  }

  lemma NowRead(a: Moment, b: Moment, i: nat, connected: bool, hosts: seq<int>, behind: Option<int>,
                clone: Option<string>)
    requires Undisturbed(a, b) && i < |b.s.insts| && |b.pods| == |b.conns|
    ensures var st := Observe(b.s, i, connected, hosts, behind, clone);
            VarsRead(a, b, i, st) && SessionsRead(a, b, i, st.waitSessions) && ReplicaRead(a, b, i, st.replica)
  {
    UndisturbedReflexive(b);
    hide Undisturbed;
    var st := Observe(b.s, i, connected, hosts, behind, clone);
    assert VarsAt(b, i, st) && SessionsAt(b, i, st.waitSessions) && ReplicaAt(b, i, st.replica);
  }

  class World {
    var s: State
    var pods: seq<Pod>
    var conns: seq<set<Role>>       // the roles under which live client connections were opened
    var errantList: seq<nat>        // status.errantReplicaList
    var pinned: bool                // the primary's mysqld is not restarted for now
    var history: seq<PodView>       // labels and connections at every time
    ghost var recreated: set<nat>   // Pods that were replaced at some time
    ghost var start: State
    var log: seq<Event>             // every step of the servers so far
    ghost var sent: seq<Event>      // the statements among them that the manager sent
    ghost var kills: seq<nat>       // the instances whose connections the manager set out to kill
    ghost var faults: nat           // how many statements, queries and patches have failed

    ghost predicate Valid()
      reads this
    {
      && Inv(start) && Legal(start, log) && s == Replay(start, log) && Inv(s)
      && |pods| == |conns| == |s.insts|
      && LabelsOk(pods) && ConnectionsOk(pods, conns)
      && (forall v :: v in history ==> ViewOk(v)) && PodView(pods, conns) in history
      && ErrantsOk(errantList, s)
    }

    constructor (replicas: nat)
      requires replicas > 0
      ensures Valid() && s == Initial(replicas) && start == s && log == []
    {
      s := Initial(replicas);
      pods := seq(replicas, _ => Pod(false, false, false, Unset));
      conns := seq(replicas, _ => {});
      history := [PodView(seq(replicas, _ => Pod(false, false, false, Unset)), seq(replicas, _ => {}))];
      errantList := [];
      pinned := false;
      recreated := {};
      start := Initial(replicas);
      log := [];
      sent, kills, faults := [], [], 0;
      InitialInv(replicas);
    }

    /** One step of the run. */
    method Issue(e: Event)
      requires Valid() && e.i < |s.insts| && Enabled(s, e) && Permitted(s, e)
      requires e.SetPrimary? ==> forall k :: 0 <= k < |errantList| ==> errantList[k] != e.i
      modifies this`s, this`log
      ensures Valid() && s == Step(old(s), e) && log == old(log) + [e]
    {
      hide Inv, Legal, Replay, Enabled, Permitted, LabelsOk, ConnectionsOk;
      StepInv(s, e);
      Extend(start, log, e);
      StepPrimary(s, e);
      s := Step(s, e);
      log := log + [e];
    }

    ghost function Now(): Moment
      reads this
    {
      Moment(s, start, log, errantList, pinned, pods, conns, recreated)
    }

    /** Whether a statement, a query or a patch gets through. */
    method Answered() returns (ok: bool)
      requires Valid()
      modifies this`faults
      ensures Valid() && Now() == old(Now())
      ensures faults == old(faults) + if ok then 0 else 1
    {
      hide Inv, Legal, Replay, LabelsOk, ConnectionsOk, ErrantsOk, ViewOk;
      ok := *;
      if !ok {
        faults := faults + 1;
      }
    }

    /** Any number of steps of the environment. */
    method Interfere()
      requires Valid()
      modifies this`s, this`log, this`pods, this`conns, this`history, this`recreated
      ensures Valid() && Undisturbed(old(Now()), Now())
    {
      hide Inv, Legal, Replay, Enabled, Permitted, Step, LabelsOk, ConnectionsOk, ErrantsOk, DataKept, PodsKept;
      var steps: int := *;
      UndisturbedReflexive(Now());
      while steps > 0
        invariant Valid() && Undisturbed(old(Now()), Now())
      {
        var database: bool := *;
        ghost var before := Now();
        if database {
          ServerStep();
        } else {
          PodStep();
        }
        UndisturbedTransitive(old(Now()), before, Now());
        steps := steps - 1;
      }
    }

    method ServerStep()
      requires Valid()
      modifies this`s, this`log
      ensures Valid() && Undisturbed(old(Now()), Now())
    {
      hide Inv, Legal, Replay, Permitted, Step, LabelsOk, ConnectionsOk, ErrantsOk, DataKept, PodsKept, Enabled;
      var e: Event := *;
      if e.i < |s.insts| && Enabled(s, e) && IsEnvironment(e) && !(pinned && e == Restart(s.primary)) {
        IssuePassive(e);
      } else {
        UndisturbedReflexive(Now());
      }
    }

    /** A statement that disturbs nothing the manager relies on. */
    method IssuePassive(e: Event)
      requires Valid() && e.i < |s.insts| && Enabled(s, e) && Passive(e) && !(pinned && e == Restart(s.primary))
      modifies this`s, this`log
      ensures Valid() && Undisturbed(old(Now()), Now()) && s == Step(old(s), e)
    {
      hide Inv, Legal, Replay, LabelsOk, ConnectionsOk, ErrantsOk, Keeps, Step, Enabled, SemiReady;
      PassiveKeeps(s, e);
      InvInRange(s);
      if pinned {
        PassiveSemiReady(s, e);
      }
      Issue(e);
    }

    /** Pods are replaced and lose their label; clients connect to labelled Pods and disconnect. */
    method PodStep()
      requires Valid()
      modifies this`pods, this`conns, this`history, this`recreated
      ensures Valid() && Undisturbed(old(Now()), Now())
    {
      hide Inv, Legal, Replay, ErrantsOk, Keeps;
      KeepsReflexive(s);
      var i: int := *;
      if 0 <= i < |pods| {
        var kind: int := *;
        if kind == 0 {
          pods := pods[i := Pod(false, false, false, Unset)];
          conns := conns[i := {}];
          recreated := recreated + {i};
        } else if kind == 1 {
          var ready: bool := *;
          var deleting: bool := *;
          var demote: bool := *;
          pods := pods[i := Pod(ready, deleting, demote, pods[i].role)];
        } else if pods[i].role in {RolePrimary, RoleReplica} {
          var connects: bool := *;
          conns := conns[i := if connects then conns[i] + {pods[i].role} else conns[i] - {pods[i].role}];
        }
        history := history + [PodView(pods, conns)];
      }
    }
  }

  lemma InvInRange(s: State)
    requires Inv(s)
    ensures s.primary < |s.insts|
  {
  }

  lemma StepPrimary(s: State, e: Event)
    requires Enabled(s, e)
    ensures Step(s, e).primary == (if e.SetPrimary? then e.i else s.primary)
  {
  }
}
