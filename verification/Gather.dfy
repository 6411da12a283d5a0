/** GatherStatus: reading the cluster, detecting errant and hung-up replicas, and classifying. */
module Gather {
  import opened Basics
  import opened Replication
  import opened ReplicationSafety
  import opened Runs
  import opened Status
  import opened World
  import opened Statements
  import D = Dbop

  /** What is known of the servers from the statuses read so far. */
  ghost predicate ReadFrom(s: State, status: seq<Option<D.Status>>) {
    && |status| == |s.insts|
    && forall i: nat :: i < |status| && status[i].Some? ==> ReadOne(s, i, status[i].value)
  }

  ghost predicate ReadOne(s: State, i: nat, st: D.Status) {
    Reflects(s, i, st) && (i != s.primary && st.waitSessions == 0 ==> IsQuiet(s, i))
  }

  /** What is known of the primary. */
  ghost predicate ReadPrimary(s: State, pst: D.Status) {
    && Settled(s, s.primary, Shown(pst))
    && (pst.semiSource && pst.waitCount == Half(s) ==> SemiReady(s))
  }

  lemma ReadOneKept(a: State, b: State, i: nat, st: D.Status)
    requires Keeps(a, b) && ReadOne(a, i, st)
    ensures ReadOne(b, i, st)
  {
    hide Reflects, IsQuiet, Frozen, Candidate, Settled;
    ReflectsKept(a, b, i, st);
  }

  lemma ReadFromKept(a: State, b: State, status: seq<Option<D.Status>>)
    requires Keeps(a, b) && ReadFrom(a, status)
    ensures ReadFrom(b, status)
  {
    hide ReadOne, Keeps;
    SizeKept(a, b);
    forall i: nat | i < |status| && status[i].Some? ensures ReadOne(b, i, status[i].value) {
      ReadOneKept(a, b, i, status[i].value);
    }
  }

  lemma ReadPrimaryKept(a: Moment, b: Moment, pst: D.Status)
    requires DataKept(a, b) && a.pinned && ReadPrimary(a.s, pst)
    ensures ReadPrimary(b.s, pst)
  {
    hide Settled, SemiReady, Frozen, Candidate, IsQuiet;
  }

  // ----- errant replicas -----

  /** st holds a transaction that the primary lacks and that did not come from it. */
  ghost predicate IsErrant(st: D.Status, executed: set<Gtid>, primaryUuid: nat) {
    exists g :: g in st.executed - executed && g.origin != primaryUuid
  }

  ghost predicate ErrantsMatch(status: seq<Option<D.Status>>, errants: seq<nat>, primary: nat) {
    && (forall k :: 0 <= k < |errants| ==> errants[k] < |status| && errants[k] != primary)
    && (forall i: nat :: i < |status| && status[i].Some? ==> (status[i].value.isErrant <==> i in errants))
  }

  /** containErrantTransactions on the difference of two GTID sets. */
  method ContainsErrant(diff: set<Gtid>, primaryUuid: nat) returns (b: bool)
    ensures b <==> exists g :: g in diff && g.origin != primaryUuid
  {
    var rest := diff;
    while rest != {}
      invariant rest <= diff
      invariant forall g :: g in diff - rest ==> g.origin == primaryUuid
    {
      var g :| g in rest;
      if g.origin != primaryUuid {
        return true;
      }
      rest := rest - {g};
    }
    return false;
  }

  ghost predicate SameButErrant(a: seq<Option<D.Status>>, b: seq<Option<D.Status>>) {
    && |a| == |b|
    && forall i :: 0 <= i < |a| ==>
         (a[i].None? <==> b[i].None?) && (a[i].Some? ==> b[i].value == a[i].value.(isErrant := b[i].value.isErrant))
  }

  /** Compares every reachable replica with the primary.  A failed comparison fails the round. */
  method DetectErrants(status: seq<Option<D.Status>>, primary: nat)
      returns (failed: bool, flagged: seq<Option<D.Status>>, errants: seq<nat>)
    requires primary < |status| && status[primary].Some?
    requires forall i :: 0 <= i < |status| && status[i].Some? ==> !status[i].value.isErrant
    ensures SameButErrant(status, flagged) && flagged[primary] == status[primary]
    ensures !failed ==> ErrantsMatch(flagged, errants, primary)
    ensures !failed ==> forall i: nat :: i in errants <==>
              i < |status| && i != primary && status[i].Some?
              && IsErrant(status[i].value, status[primary].value.executed, status[primary].value.uuid)
  {
    var pst := status[primary].value;
    flagged, errants, failed := status, [], false;
    for i := 0 to |status|
      invariant SameButErrant(status, flagged) && flagged[primary] == status[primary]
      invariant forall k :: i <= k < |status| ==> flagged[k] == status[k]
      invariant forall k :: 0 <= k < |errants| ==> errants[k] < i && errants[k] != primary
      invariant forall k: nat :: k in errants <==>
                  k < i && k != primary && status[k].Some? && IsErrant(status[k].value, pst.executed, pst.uuid)
      invariant forall k: nat :: k < i && status[k].Some? ==> (flagged[k].value.isErrant <==> k in errants)
    {
      if i == primary || status[i].None? {
        continue;
      }
      var answered: bool := *;
      if !answered {
        failed := true;
        return;
      }
      var errant := ContainsErrant(status[i].value.executed - pst.executed, pst.uuid);
      if errant {
        flagged := flagged[i := Some(status[i].value.(isErrant := true))];
        errants := errants + [i];
      }
    }
  }

  /** Without a primary to compare with, the stored list is kept. */
  method RestoreErrants(status: seq<Option<D.Status>>, primary: nat, stored: seq<nat>)
      returns (flagged: seq<Option<D.Status>>, errants: seq<nat>)
    requires primary < |status|
    requires forall i :: 0 <= i < |status| && status[i].Some? ==> !status[i].value.isErrant
    requires forall k :: 0 <= k < |stored| ==> stored[k] < |status| && stored[k] != primary
    ensures SameButErrant(status, flagged) && flagged[primary] == status[primary]
    ensures errants == stored && ErrantsMatch(flagged, errants, primary)
  {
    flagged, errants := status, [];
    for k := 0 to |stored|
      invariant SameButErrant(status, flagged) && flagged[primary] == status[primary]
      invariant errants == stored[..k]
      invariant forall i: nat :: i < |status| && status[i].Some? ==> (flagged[i].value.isErrant <==> i in errants)
    {
      var index := stored[k];
      if flagged[index].Some? {
        flagged := flagged[index := Some(flagged[index].value.(isErrant := true))];
      }
      errants := errants + [index];
    }
  }

  /** A replica with sessions that wait for acknowledgements is treated as unreachable. */
  method DropHungUp(status: seq<Option<D.Status>>, primary: nat) returns (kept: seq<Option<D.Status>>)
    requires primary < |status|
    ensures |kept| == |status|
    ensures forall i :: 0 <= i < |kept| ==>
              kept[i] == if i != primary && status[i].Some? && status[i].value.waitSessions > 0 then None else status[i]
  {
    kept := status;
    for i := 0 to |status|
      invariant |kept| == |status|
      invariant forall k :: i <= k < |kept| ==> kept[k] == status[k]
      invariant forall k :: 0 <= k < i ==>
                  kept[k] == if k != primary && status[k].Some? && status[k].value.waitSessions > 0 then None
                             else status[k]
    {
      if i != primary && status[i].Some? && status[i].value.waitSessions > 0 {
        kept := kept[i := None];
      }
    }
  }

  method DetectDelay(status: seq<Option<D.Status>>, primary: nat, maxDelay: int) returns (b: bool)
    ensures b <==> maxDelay > 0 && exists i: nat :: i < |status| && i != primary && Delayed(status[i], maxDelay)
    ensures b <==>
              && maxDelay > 0
              && exists i: nat ::
                   && i < |status| && i != primary && status[i].Some? && status[i].value.replica.Some?
                   && status[i].value.replica.value.secondsBehind.Some?
                   && status[i].value.replica.value.secondsBehind.value > maxDelay
  {
    DelayedByFields(status, primary, maxDelay);
    if maxDelay <= 0 {
      return false;
    }
    for i := 0 to |status|
      invariant forall k: nat :: k < i && k != primary ==> !Delayed(status[k], maxDelay)
    {
      if i != primary && Delayed(status[i], maxDelay) {
        return true;
      }
    }
    return false;
  }

  lemma DelayedByFields(status: seq<Option<D.Status>>, primary: nat, maxDelay: int)
    ensures (exists i: nat :: i < |status| && i != primary && Delayed(status[i], maxDelay)) <==>
              exists i: nat ::
                && i < |status| && i != primary && status[i].Some? && status[i].value.replica.Some?
                && status[i].value.replica.value.secondsBehind.Some?
                && status[i].value.replica.value.secondsBehind.value > maxDelay
  {
    if i: nat :| i < |status| && i != primary && Delayed(status[i], maxDelay) {
      assert status[i].value.replica.value.secondsBehind.value > maxDelay;
    }
    if i: nat :| && i < |status| && i != primary && status[i].Some? && status[i].value.replica.Some?
                 && status[i].value.replica.value.secondsBehind.Some?
                 && status[i].value.replica.value.secondsBehind.value > maxDelay {
      assert Delayed(status[i], maxDelay);
    }
  }

  predicate Delayed(status: Option<D.Status>, maxDelay: int) {
    status.Some? && status.value.replica.Some? && status.value.replica.value.secondsBehind.Some?
    && status.value.replica.value.secondsBehind.value > maxDelay
  }

  // ----- the round's view -----

  /** The gathered set, and what it still says about the servers. */
  ghost predicate Current(m: Moment, ss: StatusSet)
    reads ss
  {
    && WellFormed(ss.seen) && ss.seen.primary == m.s.primary
    && ReadFrom(m.s, ss.seen.status)
    && (forall i: nat :: i < |ss.seen.status| && i != ss.seen.primary && ss.seen.status[i].Some? ==> IsQuiet(m.s, i))
    && (ss.seen.status[ss.seen.primary].Some? ==> ReadPrimary(m.s, ss.seen.status[ss.seen.primary].value))
    && ErrantsMatch(ss.seen.status, ss.errants, ss.seen.primary)
    && (ss.seen.executed == {} ==> ss.errants == m.errantList)
  }

  lemma PictureShape(m: Moment, ss: StatusSet)
    requires Current(m, ss)
    ensures WellFormed(ss.seen) && ss.seen.primary == m.s.primary < |ss.seen.status|
  {
  }

  /** How far the reader of one instance has come. */
  datatype Reader = Reader(tries: nat, vars: Option<D.Status>, sessions: Option<nat>, result: Option<D.Status>)

  const STATUS_CHECK_RETRY_MAX := 2

  ghost predicate ReaderOk(s: State, i: nat, r: Reader) {
    && (r.vars.Some? ==> Reflects(s, i, r.vars.value) && !r.vars.value.isErrant)
    && (r.sessions == Some(0) && i != s.primary ==> IsQuiet(s, i))
    && (r.result.Some? ==> ReadOne(s, i, r.result.value) && !r.result.value.isErrant)
  }

  lemma ReaderKept(a: State, b: State, i: nat, r: Reader)
    requires Keeps(a, b) && ReaderOk(a, i, r)
    ensures ReaderOk(b, i, r)
  {
    hide Reflects, IsQuiet, Frozen, Candidate, Settled;
    if r.vars.Some? {
      ReflectsKept(a, b, i, r.vars.value);
    }
    if r.result.Some? {
      ReadOneKept(a, b, i, r.result.value);
    }
  }

  /** Whatever the reader of instance i has read since a was so at some moment. */
  ghost predicate ReaderRead(a: Moment, b: Moment, i: nat, r: Reader) {
    && (r.vars.Some? ==> VarsRead(a, b, i, r.vars.value))
    && (r.sessions.Some? ==> SessionsRead(a, b, i, r.sessions.value))
    && (r.result.Some? ==> ReadBetween(a, b, i, r.result.value))
  }

  lemma ReaderReadKept(a: Moment, b: Moment, c: Moment, i: nat, r: Reader)
    requires Undisturbed(a, b) && Undisturbed(b, c) && ReaderRead(a, b, i, r)
    ensures ReaderRead(a, c, i, r)
  {
    assert |a.pods| == |a.conns|;
    UndisturbedReflexive(a);
    hide Undisturbed, VarsRead, SessionsRead, ReadBetween;
    if r.vars.Some? {
      VarsStay(a, a, b, c, i, r.vars.value, r.vars.value);
    }
    if r.sessions.Some? {
      SessionsStay(a, a, b, c, i, r.sessions.value);
    }
    if r.result.Some? {
      ReadStays(a, a, b, c, i, r.result.value);
    }
  }

  /** The last query completes what was read. */
  lemma ReadComplete(a: Moment, b: Moment, i: nat, r: Reader, replica: Option<D.ReplicaStatus>)
    requires Undisturbed(a, b) && ReaderRead(a, b, i, r) && r.vars.Some? && r.sessions.Some?
    requires ReplicaRead(a, b, i, replica)
    ensures ReadBetween(a, b, i, r.vars.value.(waitSessions := r.sessions.value, replica := replica))
  {
    assert |a.pods| == |a.conns| && |b.pods| == |b.conns|;
    UndisturbedReflexive(a);
    UndisturbedReflexive(b);
    hide Undisturbed, VarsRead, SessionsRead, ReplicaRead;
    VarsStay(a, a, b, b, i, r.vars.value, r.vars.value.(waitSessions := r.sessions.value, replica := replica));
  }

  /** One query of the reader of instance i.  A failed one makes it start again, unless it has tried too often. */
  method ReadStep(w: World, i: nat, r: Reader, ghost start: Moment) returns (next: Reader)
    requires w.Valid() && i < |w.s.insts| && ReaderOk(w.s, i, r)
    requires Undisturbed(start, w.Now()) && ReaderRead(start, w.Now(), i, r)
    modifies w
    ensures old(w.faults) <= w.faults
    ensures next.tries > r.tries ==> old(w.faults) < w.faults
    ensures w.Valid() && Undisturbed(old(w.Now()), w.Now()) && w.sent == old(w.sent)
    ensures ReaderOk(w.s, i, next) && Undisturbed(start, w.Now()) && ReaderRead(start, w.Now(), i, next)
    ensures r.result.Some? || r.tries > STATUS_CHECK_RETRY_MAX ==> next == r
  {
    hide Inv, Legal, Replay, LabelsOk, ConnectionsOk, ErrantsOk, Keeps, PodsKept, Reflects, IsQuiet, ReadBetween,
      VarsRead, SessionsRead, ReplicaRead;
    ghost var a := w.Now();
    w.Interfere();
    SizeKept(a.s, w.s);
    ReaderKept(a.s, w.s, i, r);
    ReaderReadKept(start, a, w.Now(), i, r);
    UndisturbedTransitive(start, a, w.Now());
    if r.result.Some? || r.tries > STATUS_CHECK_RETRY_MAX {
      return r;
    }
    var answered := w.Answered();
    if !answered {
      return Reader(r.tries + 1, None, None, None);
    }
    var connected: bool, hosts: seq<int>, behind: Option<int>, clone: Option<string> := *, *, *, *;
    var now := Observe(w.s, i, connected, hosts, behind, clone);
    ReadNow(w.s, i, connected, hosts, behind, clone);
    NowRead(start, w.Now(), i, connected, hosts, behind, clone);
    if r.vars.None? {
      return r.(vars := Some(now), sessions := None);
    }
    if r.sessions.None? {
      if i != w.s.primary && |w.s.insts[i].pending| == 0 {
        NobodyWaits(w.s, i);
      }
      return r.(sessions := Some(now.waitSessions));
    }
    KeepsReflexive(w.s);
    ReadLater(w.s, w.s, i, r.vars.value, now.(waitSessions := r.sessions.value));
    ReadComplete(start, w.Now(), i, r, now.replica);
    return r.(result := Some(r.vars.value.(waitSessions := r.sessions.value, replica := now.replica)));
  }

  /**
   The read phase: one reader per instance, all at once.  Their queries come in any order, and a reader that is not
   done in the end has found its instance unreachable.
   */
  method ReadAll(w: World) returns (status: seq<Option<D.Status>>)
    requires w.Valid()
    modifies w
    ensures old(w.faults) <= w.faults
    ensures (exists i :: 0 <= i < |status| && status[i].None?) ==> old(w.faults) < w.faults
    ensures w.Valid() && Undisturbed(old(w.Now()), w.Now())
    ensures ReadFrom(w.s, status) && w.sent == old(w.sent)
    ensures AllRead(old(w.Now()), w.Now(), status)
    ensures forall i :: 0 <= i < |status| && status[i].Some? ==> !status[i].value.isErrant
  {
    hide Inv, Legal, Replay, LabelsOk, ConnectionsOk, ErrantsOk, Keeps, PodsKept, ReadOne, ReaderOk, ReaderRead,
      ReadBetween;
    UndisturbedReflexive(w.Now());
    ghost var start := w.Now();
    var readers: seq<Reader> := seq(|w.s.insts|, _ => Reader(0, None, None, None));
    StartReading(w.s, start);
    var queries: int := *;
    while queries > 0
      invariant w.Valid() && Undisturbed(old(w.Now()), w.Now()) && w.sent == old(w.sent)
      invariant |w.s.insts| == |old(w.s).insts| == |readers| && old(w.faults) <= w.faults
      invariant forall k: nat :: k < |readers| ==> ReaderOk(w.s, k, readers[k])
      invariant forall k: nat :: k < |readers| ==> ReaderRead(start, w.Now(), k, readers[k])
    {
      var i: int := *;
      if 0 <= i < |readers| {
        ghost var before := w.Now();
        var next := ReadStep(w, i, readers[i], start);
        SizeKept(before.s, w.s);
        forall k: nat | k < |readers|
          ensures ReaderOk(w.s, k, readers[k]) && ReaderRead(start, w.Now(), k, readers[k])
        {
          ReaderKept(before.s, w.s, k, readers[k]);
          ReaderReadKept(start, before, w.Now(), k, readers[k]);
        }
        readers := readers[i := next];
      }
      queries := queries - 1;
    }
    status := seq(|readers|, k requires 0 <= k < |readers| => readers[k].result);
    forall k: nat | k < |readers| && readers[k].result.Some?
      ensures ReadOne(w.s, k, readers[k].result.value) && !readers[k].result.value.isErrant
      ensures ReadBetween(start, w.Now(), k, readers[k].result.value)
    {
      DoneReading(w.s, start, w.Now(), k, readers[k]);
    }
    if exists k :: 0 <= k < |readers| && readers[k].result.None? {
      w.faults := w.faults + 1;
    }
  }

  lemma StartReading(s: State, a: Moment)
    ensures forall k: nat :: ReaderOk(s, k, Reader(0, None, None, None))
    ensures forall k: nat :: ReaderRead(a, a, k, Reader(0, None, None, None))
  {
  }

  lemma DoneReading(s: State, a: Moment, b: Moment, i: nat, r: Reader)
    requires ReaderOk(s, i, r) && ReaderRead(a, b, i, r) && r.result.Some?
    ensures ReadOne(s, i, r.result.value) && !r.result.value.isErrant && ReadBetween(a, b, i, r.result.value)
  {
  }

  /** Each status was read between a and b. */
  ghost predicate AllRead(a: Moment, b: Moment, status: seq<Option<D.Status>>) {
    forall i: nat :: i < |status| && status[i].Some? ==> ReadBetween(a, b, i, status[i].value)
  }

  lemma AllReadKept(a: Moment, b: Moment, c: Moment, d: Moment, status: seq<Option<D.Status>>)
    requires Undisturbed(a, b) && Undisturbed(c, d) && AllRead(b, c, status)
    ensures AllRead(a, d, status)
  {
    hide Undisturbed, ReadBetween;
    forall i: nat | i < |status| && status[i].Some? ensures ReadBetween(a, d, i, status[i].value) {
      ReadStays(a, b, c, d, i, status[i].value);
    }
  }

  lemma NewRead(s: State, i: nat, st: D.Status)
    requires Reflects(s, i, st) && (i != s.primary && st.waitSessions == 0 ==> IsQuiet(s, i))
    ensures ReadOne(s, i, st)
  {
  }

  lemma ErrantFlagIrrelevant(s: State, i: nat, st: D.Status, b: bool)
    requires ReadOne(s, i, st)
    ensures ReadOne(s, i, st.(isErrant := b))
  {
  }

  /** kept is status with errant replicas flagged and hung-up replicas dropped. */
  ghost predicate Judged(status: seq<Option<D.Status>>, p: nat, stored: seq<nat>, kept: seq<Option<D.Status>>,
                         errants: seq<nat>) {
    && |kept| == |status| && p < |status| && kept[p] == status[p]
    && (forall i: nat :: i < |kept| && kept[i].Some? ==>
          && status[i].Some? && kept[i].value == status[i].value.(isErrant := kept[i].value.isErrant)
          && (i != p ==> kept[i].value.waitSessions == 0))
    && (forall i: nat :: i < |status| && status[i].Some? && status[i].value.waitSessions == 0 ==> kept[i].Some?)
    && ErrantsMatch(kept, errants, p)
    && (if status[p].None? || status[p].value.executed == {} then errants == stored
        else forall i: nat :: i in errants <==>
               && i < |status| && i != p && status[i].Some?
               && IsErrant(status[i].value, status[p].value.executed, status[p].value.uuid))
  }

  method Judge(status: seq<Option<D.Status>>, p: nat, stored: seq<nat>)
      returns (failed: bool, kept: seq<Option<D.Status>>, errants: seq<nat>)
    requires p < |status|
    requires forall i :: 0 <= i < |status| && status[i].Some? ==> !status[i].value.isErrant
    requires forall k :: 0 <= k < |stored| ==> stored[k] < |status| && stored[k] != p
    ensures !failed ==> Judged(status, p, stored, kept, errants)
  {
    var flagged;
    if status[p].Some? && status[p].value.executed != {} {
      failed, flagged, errants := DetectErrants(status, p);
      if failed {
        kept := flagged;
        return;
      }
    } else {
      failed := false;
      flagged, errants := RestoreErrants(status, p, stored);
    }
    kept := DropHungUp(flagged, p);
  }

  lemma JudgedReads(s: State, status: seq<Option<D.Status>>, stored: seq<nat>, kept: seq<Option<D.Status>>,
                    errants: seq<nat>)
    requires ReadFrom(s, status) && Judged(status, s.primary, stored, kept, errants)
    ensures ReadFrom(s, kept)
    ensures forall i: nat :: i < |kept| && i != s.primary && kept[i].Some? ==> IsQuiet(s, i)
  {
    hide Reflects, IsQuiet;
    forall i: nat | i < |kept| && kept[i].Some?
      ensures ReadOne(s, i, kept[i].value) && (i != s.primary ==> IsQuiet(s, i))
    {
      assert ReadOne(s, i, status[i].value);
      ErrantFlagIrrelevant(s, i, status[i].value, kept[i].value.isErrant);
    }
  }

  /** The re-check of the primary: its second reading replaces the first. */
  method Recheck(w: World, status: seq<Option<D.Status>>, ghost start: Moment)
      returns (ok: bool, rechecked: seq<Option<D.Status>>)
    requires w.Valid() && w.pinned && ReadFrom(w.s, status)
    requires Undisturbed(start, w.Now()) && AllRead(start, w.Now(), status)
    requires forall i :: 0 <= i < |status| && status[i].Some? ==> !status[i].value.isErrant
    modifies w
    ensures old(w.faults) <= w.faults && (!ok ==> old(w.faults) < w.faults)
    ensures |rechecked| == |status| && (ok ==> forall i :: 0 <= i < |status| && status[i].Some? ==> rechecked[i].Some?)
    ensures w.Valid() && Undisturbed(old(w.Now()), w.Now()) && ReadFrom(w.s, rechecked)
    ensures AllRead(start, w.Now(), rechecked)
    ensures forall i :: 0 <= i < |rechecked| && rechecked[i].Some? ==> !rechecked[i].value.isErrant
    ensures ok && rechecked[w.s.primary].Some? ==> ReadPrimary(w.s, rechecked[w.s.primary].value)
    ensures w.s.primary == old(w.s).primary < |rechecked|
    ensures w.sent == old(w.sent)
  {
    hide Inv, Legal, Replay, LabelsOk, ConnectionsOk, ErrantsOk, Keeps, PodsKept, ReadOne, Settled, SemiReady,
      ReadBetween;
    UndisturbedReflexive(w.Now());
    UndisturbedBefore(start, w.Now());
    InvPrimary(w.s);
    rechecked, ok := status, true;
    var p := w.s.primary;
    if status[p].Some? {
      ghost var before := w.Now();
      var pst, _ := GetStatus(w, p);
      SizeKept(before.s, w.s);
      ReadFromKept(before.s, w.s, status);
      AllReadKept(start, start, before, w.Now(), status);
      if pst.None? {
        ok := false;
        return;
      }
      NewRead(w.s, p, pst.value);
      UndisturbedReflexive(w.Now());
      ReadStays(start, before, w.Now(), w.Now(), p, pst.value);
      rechecked := status[p := pst];
    }
  }

  lemma UndisturbedBefore(a: Moment, b: Moment)
    requires Undisturbed(a, b)
    ensures Undisturbed(a, a)
  {
    UndisturbedReflexive(a);
  }

  /** raw: the statuses as they were read, before errant replicas were flagged and hung-up ones dropped. */
  method GatherStatus(w: World, spec: Spec, cloned: bool, restored: bool)
      returns (ss: StatusSet?, ghost raw: seq<Option<D.Status>>)
    requires w.Valid() && w.pinned && spec.replicas == |w.s.insts|
    modifies w
    // without a fault the gather succeeds and reaches every instance
    ensures old(w.faults) <= w.faults && (ss == null ==> old(w.faults) < w.faults)
    ensures ss != null && (exists i :: 0 <= i < |raw| && raw[i].None?) ==> old(w.faults) < w.faults
    ensures w.Valid() && Undisturbed(old(w.Now()), w.Now()) && w.sent == old(w.sent)
    ensures ss != null ==> fresh(ss) && ss.seen.spec == spec && Current(w.Now(), ss)
    ensures ss != null ==> ss.seen.cloned == cloned && ss.seen.restored == restored
    ensures ss != null ==> ReadFrom(w.s, raw) && AllRead(old(w.Now()), w.Now(), raw)
    ensures ss != null ==> Judged(raw, ss.seen.primary, w.errantList, ss.seen.status, ss.errants)
    // the labels are those of a moment within the round
    ensures ss != null ==> exists m :: Undisturbed(old(w.Now()), m) && Undisturbed(m, w.Now()) && ss.seen.pods == m.pods
    // a replica is flagged exactly when it holds a foreign transaction that the primary lacks
    ensures ss != null && ss.seen.executed != {} ==>
              forall i: nat :: i < |ss.seen.status| && i != ss.seen.primary && ss.seen.status[i].Some? ==>
                (ss.seen.status[i].value.isErrant <==>
                 IsErrant(ss.seen.status[i].value, ss.seen.executed, ss.seen.primary))
    ensures ss != null ==> ss.state == Classify(ss.seen)
    ensures ss != null && ss.state == Restoring ==> spec.restore && !restored
    ensures ss != null && ss.state == Cloning ==> spec.external && !cloned
    // a switchover is requested exactly for a primary to be deleted or demoted, and goes to the least proper target
    ensures ss != null && ss.needSwitch ==> SwitchTarget(ss.seen, ss.candidate)
    ensures ss != null && ss.state in {Healthy, Degraded} ==>
              (ss.needSwitch <==> && SwitchTargets(ss.seen) != {}
                                  && (ss.seen.pods[ss.seen.primary].deleting || ss.seen.pods[ss.seen.primary].demote))
    ensures ss != null && ss.state in {Healthy, Degraded} && ss.needSwitch ==>
              forall i: nat :: SwitchTarget(ss.seen, i) ==> ss.candidate <= i
    // it is put off exactly while a replica lags behind the limit
    ensures ss != null ==>
              (ss.preventPodDeletion <==>
               && spec.maxDelaySeconds > 0
               && exists i: nat ::
                    && i < |raw| && i != ss.seen.primary && raw[i].Some? && raw[i].value.replica.Some?
                    && raw[i].value.replica.value.secondsBehind.Some?
                    && raw[i].value.replica.value.secondsBehind.value > spec.maxDelaySeconds)
  {
    hide Inv, Legal, Replay, LabelsOk, ConnectionsOk, Keeps, PodsKept, ReadFrom, Classify, ReadPrimary, SwitchTarget,
      IsErrant, IsQuiet, DataKept, Judged, SwitchTargets, AllRead;
    ghost var a := w.Now();
    var ok, pods, status, m := ReadCluster(w);
    raw := status;
    if !ok {
      return null, raw;
    }
    var p := w.s.primary;
    ErrantsInRange(w.s, status, w.errantList);
    var failed, kept, errants := Judge(status, p, w.errantList);
    if failed {
      w.faults := w.faults + 1;
      return null, raw;
    }
    JudgedReads(w.s, status, w.errantList, kept, errants);
    var prevent := DetectDelay(status, p, spec.maxDelaySeconds);
    var executed := if status[p].Some? then status[p].value.executed else {};
    ss := new StatusSet(Picture(spec, cloned, restored, p, pods, kept, executed), errants, prevent);
    ss.DecideState();
    EarlyByFields(ss.seen);
    assert ss.seen.pods == m.pods;
    if status[p].Some? {
      PrimaryUuid(w.s, status, p);
      if executed != {} {
        JudgedErrants(status, p, w.errantList, kept, errants);
      }
    }
  }

  lemma JudgedErrants(status: seq<Option<D.Status>>, p: nat, stored: seq<nat>, kept: seq<Option<D.Status>>,
                      errants: seq<nat>)
    requires Judged(status, p, stored, kept, errants) && status[p].Some? && status[p].value.executed != {}
    ensures forall i: nat :: i < |kept| && i != p && kept[i].Some? ==>
              (kept[i].value.isErrant <==> IsErrant(kept[i].value, status[p].value.executed, status[p].value.uuid))
  {
  }

  lemma ErrantsInRange(s: State, status: seq<Option<D.Status>>, stored: seq<nat>)
    requires ReadFrom(s, status) && ErrantsOk(stored, s)
    ensures forall k :: 0 <= k < |stored| ==> stored[k] < |status| && stored[k] != s.primary
  {
  }

  /** Pods first, then every instance, then the primary again. */
  method ReadCluster(w: World) returns (ok: bool, pods: seq<Pod>, status: seq<Option<D.Status>>, ghost m: Moment)
    requires w.Valid() && w.pinned
    modifies w
    ensures old(w.faults) <= w.faults && (!ok ==> old(w.faults) < w.faults)
    ensures ok && (exists i :: 0 <= i < |status| && status[i].None?) ==> old(w.faults) < w.faults
    ensures w.Valid() && Undisturbed(old(w.Now()), w.Now())
    ensures |w.s.insts| == |old(w.s).insts| && w.s.primary == old(w.s).primary
    ensures Undisturbed(old(w.Now()), m) && Undisturbed(m, w.Now()) && pods == m.pods && |pods| == |w.s.insts|
    ensures ok ==> ReadFrom(w.s, status) && w.s.primary < |status| == |w.s.insts|
    ensures ok ==> AllRead(old(w.Now()), w.Now(), status)
    ensures ok ==> forall i :: 0 <= i < |status| && status[i].Some? ==> !status[i].value.isErrant
    ensures ok && status[w.s.primary].Some? ==> ReadPrimary(w.s, status[w.s.primary].value)
    ensures w.sent == old(w.sent)
  {
    hide Inv, Legal, Replay, LabelsOk, ConnectionsOk, Keeps, PodsKept, ReadOne, ReadPrimary, AllRead;
    ghost var a := w.Now();
    w.Interfere();
    m := w.Now();
    SizeKept(a.s, w.s);
    pods := w.pods;
    UndisturbedReflexive(m);
    var listed := w.Answered();
    if !listed {
      status := [];
      return false, pods, status, m;
    }
    var first := ReadAll(w);
    ghost var b := w.Now();
    ok, status := Recheck(w, first, m);
    UndisturbedReflexive(w.Now());
    AllReadKept(a, m, w.Now(), w.Now(), status);
    assert ok && (exists i :: 0 <= i < |status| && status[i].None?) ==> exists i :: 0 <= i < |first| && first[i].None?;
    UndisturbedTransitive(m, b, w.Now());
    UndisturbedTransitive(a, m, w.Now());
    SizeKept(a.s, w.s);
  }

  lemma PrimaryUuid(s: State, status: seq<Option<D.Status>>, p: nat)
    requires ReadFrom(s, status) && p < |status| && status[p].Some?
    ensures status[p].value.uuid == p
  {
    assert ReadOne(s, p, status[p].value);
  }
}
