/**
 The replicated cluster as a state machine: what one MySQL instance holds, the atomic steps that
 clients, replication threads and the clustering manager take on it, and the invariant that all of
 those steps keep.
 */
module Replication {
  import opened Basics

  /** A transaction identifier.  `origin` is the instance whose server UUID it carries. */
  datatype Gtid = Gtid(origin: nat, n: nat)

  datatype Instance = Instance(
    executed: set<Gtid>,      // gtid_executed
    pending: set<Gtid>,       // in the binary log, the session is still waiting for semi-sync acknowledgements
    retrieved: set<Gtid>,     // received into the relay log
    purged: set<Gtid>,        // gtid_purged
    superReadOnly: bool,      // super_read_only; read_only moves with it
    semiSource: bool,         // rpl_semi_sync_master_enabled
    waitCount: nat,           // rpl_semi_sync_master_wait_for_slave_count
    semiReplica: bool,        // rpl_semi_sync_slave_enabled
    source: Option<nat>,      // whom this one is told to follow; a number that is no instance is a server outside
    io: bool,                 // the replication IO thread is started
    acks: set<(Gtid, nat)>)   // which instance has acknowledged which local transaction
  {
    /** Everything that survives on this instance as a received transaction. */
    function Received(): set<Gtid> { executed + retrieved }
  }

  datatype State = State(
    insts: seq<Instance>,
    primary: nat,             // status.currentPrimaryIndex
    acked: set<Gtid>,         // transactions whose client was told that they are committed
    issued: set<Gtid>)        // identifiers handed out so far

  datatype Event =
    // environment: clients, replication threads, servers
    | Commit(i: nat, g: Gtid)
    | Acknowledge(i: nat, g: Gtid)
    | Abandon(i: nat, g: Gtid)
    | Fetch(i: nat, g: Gtid)
    | Apply(i: nat, g: Gtid)
    | Restart(i: nat)
    | PurgeLogs(i: nat, gs: set<Gtid>)
    // statements of the manager
    | SetSuperReadOnly(i: nat)
    | SetReadWrite(i: nat)
    | StopIo(i: nat)
    | ResetReplica(i: nat)
    | ChangeSource(i: nat, p: nat)
    | ChangeSourcePurging(i: nat, p: nat)   // the same statement, with the relay log deleted
    | SetSemiReplica(i: nat, on: bool)
    | SemiSourceOff(i: nat)
    | SetWaitCount(i: nat, count: nat)
    | SemiSourceOn(i: nat)
    | StartReplica(i: nat)
    | CloneFromPrimary(i: nat)
    | CloneBroken(i: nat)     // the same statement, failed half-way
    | SetPrimary(i: nat)

  /** The semi-sync wait count, and the number of instances a cluster can lose. */
  function Half(s: State): nat { |s.insts| / 2 }

  /** The instances that have acknowledged g to instance o. */
  function Ackers(s: State, o: nat, g: Gtid): set<nat>
    requires o < |s.insts|
  {
    set r: nat | r < |s.insts| && (g, r) in s.insts[o].acks
  }

  /** The instances whose IO thread is started and points at o. */
  function Followers(s: State, o: nat): set<nat> {
    set r: nat | r < |s.insts| && s.insts[r].io && s.insts[r].source == Some(o)
  }

  /** The instances that hold g. */
  function Holders(s: State, g: Gtid): set<nat> {
    set i: nat | i < |s.insts| && g in s.insts[i].Received()
  }

  /** The instances that have acknowledged g to o, or still could. */
  function Potential(s: State, o: nat, g: Gtid): set<nat>
    requires o < |s.insts|
  {
    Ackers(s, o, g) + Followers(s, o)
  }

  /** What is acknowledged and held by i is held by enough others, too. */
  predicate Spare(s: State, i: nat)
    requires i < |s.insts|
  {
    forall g :: g in s.acked && g in s.insts[i].Received() ==> |Holders(s, g)| > Half(s) + 1
  }

  /** The relay log of i alone: what is acknowledged is held by enough others, and no session waits on its account. */
  predicate SpareLog(s: State, i: nat)
    requires i < |s.insts|
  {
    && (forall g :: g in s.acked && g in s.insts[i].retrieved && g !in s.insts[i].executed ==>
          |Holders(s, g)| > Half(s) + 1)
    && (forall o: nat :: o < |s.insts| ==>
          forall g :: g in s.insts[o].pending && (g, i) in s.insts[o].acks ==> g in s.insts[i].executed)
  }

  // ----- steps -----

  predicate IsEnvironment(e: Event) {
    e.Commit? || e.Acknowledge? || e.Abandon? || e.Fetch? || e.Apply? || e.Restart? || e.PurgeLogs?
    || e.SetSuperReadOnly?  // a SET super_read_only that the manager gave up waiting for may land later
  }

  /** When the servers can take the step. */
  predicate Enabled(s: State, e: Event) {
    e.i < |s.insts| &&
    var x := s.insts[e.i];
    match e
    case Commit(i, g) => !x.superReadOnly && g !in s.issued && g.origin == i
    case Acknowledge(i, g) => g in x.pending && (x.semiSource ==> |Ackers(s, i, g)| >= x.waitCount)
    case Abandon(i, g) => g in x.pending
    case Fetch(i, g) =>
      x.io && x.source.Some? && x.source.value < |s.insts| && x.source.value != i &&
      var y := s.insts[x.source.value];
      (g in y.executed || g in y.pending) && g !in y.purged && g !in x.Received()
    case Apply(i, g) => g in x.retrieved
    case PurgeLogs(i, gs) => gs <= x.executed
    case SetSuperReadOnly(i) => x.pending == {}  // the statement waits for running commits
    case ResetReplica(i) => !x.io
    case ChangeSource(i, p) => !x.io
    case ChangeSourcePurging(i, p) => !x.io
    case StartReplica(i) => x.source.Some?
    case CloneFromPrimary(i) => s.primary < |s.insts|
    case _ => true
  }

  /** What a step on instance x alone makes of it. */
  function Local(s: State, x: Instance, e: Event): Instance
    requires e.i < |s.insts| && Enabled(s, e)
  {
    match e
    case Commit(i, g) => x.(pending := x.pending + {g})
    case Acknowledge(i, g) => x.(pending := x.pending - {g}, executed := x.executed + {g})
    case Abandon(i, g) => x.(pending := x.pending - {g}, executed := x.executed + {g})
    case Fetch(i, g) => x.(retrieved := x.retrieved + {g})
    case Apply(i, g) => x.(executed := x.executed + {g})
    case Restart(i) =>
      x.(pending := {}, executed := x.executed + x.pending, superReadOnly := true, io := false,
         semiSource := false, waitCount := 1, semiReplica := false)
    case PurgeLogs(i, gs) => x.(purged := x.purged + gs)
    case SetSuperReadOnly(i) => x.(superReadOnly := true)
    case SetReadWrite(i) => x.(superReadOnly := false)
    case StopIo(i) => x.(io := false)
    case ResetReplica(i) => x.(retrieved := {})
    case ChangeSource(i, p) => x.(source := Some(p))
    case ChangeSourcePurging(i, p) => x.(source := Some(p), retrieved := {})
    case SetSemiReplica(i, on) => x.(semiReplica := on)
    case SemiSourceOff(i) => x.(semiSource := false)
    case SetWaitCount(i, count) => x.(waitCount := count)
    case SemiSourceOn(i) => x.(semiSource := true)
    case StartReplica(i) => x.(io := true)
    case CloneFromPrimary(i) =>
      x.(executed := s.insts[s.primary].executed, purged := s.insts[s.primary].executed,
         pending := {}, retrieved := {}, superReadOnly := true, io := false,
         semiSource := false, waitCount := 1, semiReplica := false)
    case CloneBroken(i) =>
      x.(executed := {}, purged := {}, pending := {}, retrieved := {}, superReadOnly := true, io := false,
         semiSource := false, waitCount := 1, semiReplica := false)
    case SetPrimary(i) => x
  }

  function Step(s: State, e: Event): (r: State)
    requires Enabled(s, e)
    ensures |r.insts| == |s.insts|
  {
    var insts := s.insts[e.i := Local(s, s.insts[e.i], e)];
    match e
    case Commit(i, g) => s.(insts := insts, issued := s.issued + {g})
    case Acknowledge(i, g) => s.(insts := insts, acked := s.acked + {g})
    case Fetch(i, g) =>
      var o := s.insts[i].source.value;
      if s.insts[i].semiReplica && g in s.insts[o].pending
      then s.(insts := insts[o := insts[o].(acks := insts[o].acks + {(g, i)})])
      else s.(insts := insts)
    case SetPrimary(i) => s.(primary := i)
    case _ => s.(insts := insts)
  }

  // ----- the invariant -----

  /** What holds of instance i alone. */
  ghost predicate InstanceOk(s: State, i: nat)
    requires i < |s.insts|
  {
    var x := s.insts[i];
    && x.executed <= s.issued && x.pending <= s.issued && x.retrieved <= s.issued
    && (forall g :: g in x.pending ==> g.origin == i && g !in s.acked)
    && (x.superReadOnly ==> x.pending == {})
    && (!x.superReadOnly ==> !x.io && x.retrieved == {})
    && (!x.superReadOnly && |s.insts| > 1 ==> x.semiSource && x.waitCount == Half(s))
    && (match x.source
        case None => !x.io && x.retrieved == {}
        case Some(p) => p < |s.insts| && p != i)
  }

  /** Acknowledgements come from other instances, which hold the transaction while it is pending. */
  ghost predicate AcksOk(s: State, o: nat)
    requires o < |s.insts|
  {
    forall g, r: nat :: (g, r) in s.insts[o].acks ==>
      && g in s.issued && r < |s.insts| && r != o && s.insts[r].source.Some?
      && (g in s.insts[o].pending ==> g in s.insts[r].Received())
  }

  /** An acknowledged transaction is held by more instances than the cluster can lose. */
  ghost predicate QuorumHeld(s: State) {
    forall g :: g in s.acked ==> |Holders(s, g)| > Half(s)
  }

  ghost predicate Base(s: State) {
    && s.primary < |s.insts|
    && s.acked <= s.issued
    && (forall i: nat :: i < |s.insts| ==> InstanceOk(s, i))
    && (forall i: nat :: i < |s.insts| ==> AcksOk(s, i))
    && QuorumHeld(s)
  }

  /** No transaction outside t that waits at o, now or later, can collect Half(s) acknowledgements. */
  ghost predicate Fenced(s: State, o: nat, t: set<Gtid>)
    requires o < |s.insts|
  {
    && |Followers(s, o)| < Half(s)
    && (forall g :: g in s.insts[o].pending ==> g in t || |Potential(s, o, g)| < Half(s))
  }

  /** Nothing can be acknowledged at o. */
  ghost predicate Quiet(s: State, o: nat)
    requires o < |s.insts|
  {
    s.insts[o].superReadOnly || Fenced(s, o, {})
  }

  /** If instance j follows anyone, it is a read-only instance. */
  ghost predicate FollowsReadOnly(s: State, j: nat)
    requires j < |s.insts|
  {
    s.insts[j].io ==>
      s.insts[j].source.Some? && s.insts[j].source.value < |s.insts| && s.insts[s.insts[j].source.value].superReadOnly
  }

  /**
   With t executed, j may be the primary: nothing acknowledged, or that can still be acknowledged elsewhere, is
   outside t.
   */
  ghost predicate Guards(s: State, j: nat, t: set<Gtid>) {
    && j < |s.insts|
    && s.acked <= t
    && FollowsReadOnly(s, j)
    && (forall o: nat :: o < |s.insts| && o != j && !s.insts[o].superReadOnly ==> Fenced(s, o, t))
  }

  ghost predicate Guarded(s: State, j: nat) {
    j < |s.insts| && Guards(s, j, s.insts[j].executed)
  }

  ghost predicate Inv(s: State) {
    Base(s) && Guarded(s, s.primary)
  }
}
