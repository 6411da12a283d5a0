/** What one successful configure on an otherwise unchanged cluster leaves for the next one to do. */
module FixedPoint {
  import opened Basics
  import opened Replication
  import opened Runs
  import opened Status
  import opened World
  import opened Statements
  import opened Labels
  import opened Configure
  import D = Dbop

  // ----- the view of a full gather -----

  /** Instance i is errant, if the primary's executed set is the given one. */
  ghost predicate ErrantAgainst(s: State, stored: seq<nat>, executed: set<Gtid>, i: nat)
    requires i < |s.insts|
  {
    i != s.primary &&
    if executed == {} then i in stored
    else exists g :: g in s.insts[i].executed - executed && g.origin != s.primary
  }

  ghost predicate ErrantIn(s: State, stored: seq<nat>, i: nat)
    requires i < |s.insts| && s.primary < |s.insts|
  {
    ErrantAgainst(s, stored, s.insts[s.primary].executed, i)
  }

  /** Which replicas cannot be reached, and whose started IO threads are connected. */
  datatype Net = Net(down: set<nat>, connected: set<nat>)

  ghost function StatusOf(s: State, stored: seq<nat>, net: Net, i: nat): Option<D.Status>
    requires i < |s.insts| && s.primary < |s.insts|
  {
    if i != s.primary && (i in net.down || |s.insts[i].pending| > 0) then None
    else Some(Observe(s, i, i in net.connected, [], None, None).(isErrant := ErrantIn(s, stored, i)))
  }

  /** A gather during which the primary answers, and nothing else happens. */
  ghost function ViewOf(s: State, stored: seq<nat>, net: Net, spec: Spec, pods: seq<Pod>): (p: Picture)
    requires s.primary < |s.insts| == spec.replicas == |pods|
    ensures WellFormed(p) && p.primary == s.primary && p.spec == spec && p.status[p.primary].Some?
    ensures forall i: nat :: i < |p.status| ==> p.status[i] == StatusOf(s, stored, net, i)
  {
    Picture(spec, false, false, s.primary, pods,
            seq(|s.insts|, i requires 0 <= i < |s.insts| => StatusOf(s, stored, net, i)), s.insts[s.primary].executed)
  }

  // ----- sending a plan -----

  /** An event that changes its target alone, without looking at the rest. */
  predicate OneTarget(e: Event) {
    e.StopIo? || e.ChangeSource? || e.ChangeSourcePurging? || e.SetSemiReplica? || e.SemiSourceOff? || e.StartReplica?
    || e.SetWaitCount? || e.SemiSourceOn? || e.SetSuperReadOnly? || e.ResetReplica? || e.SetReadWrite? || e.Apply?
  }

  lemma StepPlain(s: State, e: Event)
    requires Enabled(s, e) && OneTarget(e)
    ensures Step(s, e) == s.(insts := s.insts[e.i := Local(s, s.insts[e.i], e)])
  {
  }

  /** The state after event e on its target, for such an event. */
  function Then(s: State, e: Event): State
    requires e.i < |s.insts| && Enabled(s, e)
  {
    s.(insts := s.insts[e.i := Local(s, s.insts[e.i], e)])
  }

  lemma SendOne(s: State, e: Event, rest: seq<Event>)
    requires e.i < |s.insts| && Enabled(s, e) && OneTarget(e) && CanSend(Then(s, e), rest)
    ensures CanSend(s, [e] + rest) && SendAll(s, [e] + rest) == SendAll(Then(s, e), rest)
  {
    hide Local, Enabled;
    StepPlain(s, e);
    assert ([e] + rest)[1..] == rest;
  }

  lemma SendList(s: State, e: Event, rest: seq<Event>, es: seq<Event>)
    requires e.i < |s.insts| && Enabled(s, e) && OneTarget(e) && CanSend(Then(s, e), rest) && es == [e] + rest
    ensures CanSend(s, es) && SendAll(s, es) == SendAll(Then(s, e), rest)
  {
    SendOne(s, e, rest);
  }

  lemma SendNothing(s: State)
    ensures CanSend(s, []) && SendAll(s, []) == s
  {
  }

  // ----- what each part of the plan makes of its target -----

  /** Only instance i differs. */
  ghost predicate OnlyAt(a: State, b: State, i: nat) {
    i < |a.insts| && |b.insts| == |a.insts| && b == a.(insts := a.insts[i := b.insts[i]])
  }

  ghost predicate SameData(x: Instance, y: Instance) { y.executed == x.executed && y.pending == x.pending }

  function StartStatements(i: nat, semisync: bool): seq<Event> {
    [SetSemiReplica(i, semisync), SemiSourceOff(i), StartReplica(i)]
  }

  lemma SendStart(s: State, i: nat, semisync: bool)
    requires i < |s.insts| && s.insts[i].source.Some?
    ensures CanSend(s, StartStatements(i, semisync))
    ensures SendAll(s, StartStatements(i, semisync)) ==
              s.(insts := s.insts[i := s.insts[i].(semiReplica := semisync, semiSource := false, io := true)])
  {
    hide Ackers, CanSend, SendAll, Step;
    var s1 := Then(s, SetSemiReplica(i, semisync));
    SendLast(s1, i);
    SendList(s, SetSemiReplica(i, semisync), [SemiSourceOff(i), StartReplica(i)], StartStatements(i, semisync));
  }

  lemma SendLast(s: State, i: nat)
    requires i < |s.insts| && s.insts[i].source.Some?
    ensures CanSend(s, [SemiSourceOff(i), StartReplica(i)])
    ensures SendAll(s, [SemiSourceOff(i), StartReplica(i)]) ==
              s.(insts := s.insts[i := s.insts[i].(semiSource := false, io := true)])
  {
    hide Ackers, CanSend, SendAll, Step;
    var s1 := Then(s, SemiSourceOff(i));
    SendSingle(s1, StartReplica(i));
    SendList(s, SemiSourceOff(i), [StartReplica(i)], [SemiSourceOff(i), StartReplica(i)]);
  }

  /** The relay log may be deleted when the source is changed. */
  function SourceChange(i: nat, p: nat, purge: bool): Event {
    if purge then ChangeSourcePurging(i, p) else ChangeSource(i, p)
  }

  /** What the statements of ConfigureReplica do. */
  function Repointing(i: nat, p: nat, semisync: bool, purge: bool): seq<Event> {
    [StopIo(i)] + ([SourceChange(i, p, purge)] + StartStatements(i, semisync))
  }

  lemma SendRepoint(s: State, i: nat, p: nat, semisync: bool, purge: bool)
    requires i < |s.insts|
    ensures CanSend(s, Repointing(i, p, semisync, purge))
    ensures SendAll(s, Repointing(i, p, semisync, purge)) ==
              s.(insts := s.insts[i := s.insts[i].(source := Some(p), semiReplica := semisync, semiSource := false,
                                                   io := true,
                                                   retrieved := if purge then {} else s.insts[i].retrieved)])
  {
    hide Ackers, CanSend, SendAll, Step, StartStatements;
    var s1 := Then(s, StopIo(i));
    var e := SourceChange(i, p, purge);
    var s2 := Then(s1, e);
    SendStart(s2, i, semisync);
    SendList(s1, e, StartStatements(i, semisync), [e] + StartStatements(i, semisync));
    SendList(s, StopIo(i), [e] + StartStatements(i, semisync), Repointing(i, p, semisync, purge));
  }

  lemma SendSingle(s: State, e: Event)
    requires e.i < |s.insts| && Enabled(s, e) && OneTarget(e)
    ensures CanSend(s, [e]) && SendAll(s, [e]) == Then(s, e)
  {
    hide Local, Enabled, Step;
    SendNothing(Then(s, e));
    SendOne(s, e, []);
    assert [e] + [] == [e];
  }

  /** What happens to replica i in a successful configure. */
  function ReplicaRun(seen: Picture, i: nat, purge: bool): seq<Event>
    requires i < |seen.status|
  {
    if i == seen.primary || seen.status[i].None? then []
    else
      var st := seen.status[i].value;
      if st.isErrant then (if IoRunning(st) then [StopIo(i)] else [])
      else
        (if st.superReadOnly then [] else [Event.SetSuperReadOnly(i)]) +
        (if NeedsClone(seen, st) then [CloneFromPrimary(i)] else []) +
        (if NeedsSource(seen, st) then Repointing(i, seen.primary, !seen.spec.external, purge) else [])
  }

  /** purges: whose relay logs are deleted. */
  function ReplicaRuns(seen: Picture, purges: set<nat>, n: nat): seq<Event>
    requires n <= |seen.status|
  {
    if n == 0 then [] else ReplicaRuns(seen, purges, n - 1) + ReplicaRun(seen, n - 1, n - 1 in purges)
  }

  /**
   What a configure makes of a replica x of c that was seen as st: an errant one may be left with a started thread.
   */
  ghost predicate Replicates(x: Instance, y: Instance, c: nat, st: D.Status, semisync: bool) {
    if st.isErrant then y == if IoRunning(st) then x.(io := false) else x
    else y.superReadOnly && y.io && y.source == Some(c) && y.semiReplica == semisync
  }

  lemma SendReplica(s: State, seen: Picture, i: nat, st: D.Status, up: bool, purge: bool)
    requires s.primary < |s.insts| == |seen.status| && seen.primary == s.primary && i < |s.insts| && i != s.primary
    requires seen.status[i] == Some(st) && (st.isErrant || !NeedsClone(seen, st))
    requires st == Observe(s, i, up, [], None, None).(isErrant := st.isErrant) && s.insts[i].pending == {}
    ensures CanSend(s, ReplicaRun(seen, i, purge))
    ensures OnlyAt(s, SendAll(s, ReplicaRun(seen, i, purge)), i)
    ensures SameData(s.insts[i], SendAll(s, ReplicaRun(seen, i, purge)).insts[i])
    ensures Replicates(s.insts[i], SendAll(s, ReplicaRun(seen, i, purge)).insts[i], s.primary, st, !seen.spec.external)
  {
    hide CanSend, SendAll, Step, Enabled, Repointing;
    if st.isErrant {
      SendNothing(s);
      SendStopIo(s, i);
    } else {
      SendHealthy(s, seen, i, st, purge);
    }
  }

  lemma SendHealthy(s: State, seen: Picture, i: nat, st: D.Status, purge: bool)
    requires s.primary < |s.insts| == |seen.status| && seen.primary == s.primary && i < |s.insts| && i != s.primary
    requires seen.status[i] == Some(st) && !st.isErrant && !NeedsClone(seen, st) && s.insts[i].pending == {}
    requires st.superReadOnly == s.insts[i].superReadOnly && st.semiReplica == s.insts[i].semiReplica
    requires IoRunning(st) && st.replica.value.sourceHost == D.PodHost(s.primary) ==>
               s.insts[i].io && s.insts[i].source == Some(s.primary)
    ensures CanSend(s, ReplicaRun(seen, i, purge))
    ensures OnlyAt(s, SendAll(s, ReplicaRun(seen, i, purge)), i)
    ensures SameData(s.insts[i], SendAll(s, ReplicaRun(seen, i, purge)).insts[i])
    ensures Replicates(s.insts[i], SendAll(s, ReplicaRun(seen, i, purge)).insts[i], s.primary, st, !seen.spec.external)
  {
    hide CanSend, SendAll, Repointing, NeedsClone, CloseAndRepoint;
    var needs := NeedsSource(seen, st);
    SendCloseAndRepoint(s, i, s.primary, !seen.spec.external, needs, purge);
    RunShape(seen, i, st, purge);
  }

  lemma RunShape(seen: Picture, i: nat, st: D.Status, purge: bool)
    requires i < |seen.status| && i != seen.primary && seen.status[i] == Some(st)
    requires !st.isErrant && !NeedsClone(seen, st)
    ensures ReplicaRun(seen, i, purge) ==
              CloseAndRepoint(st.superReadOnly, i, seen.primary, !seen.spec.external, NeedsSource(seen, st), purge)
  {
    hide Repointing;
  }

  /** Close instance i if it is open, then repoint it if it needs that. */
  function CloseAndRepoint(closed: bool, i: nat, p: nat, semisync: bool, needs: bool, purge: bool): seq<Event> {
    (if closed then [] else [Event.SetSuperReadOnly(i)]) + (if needs then Repointing(i, p, semisync, purge) else [])
  }

  lemma SendCloseAndRepoint(s: State, i: nat, p: nat, semisync: bool, needs: bool, purge: bool)
    requires i < |s.insts| && (s.insts[i].superReadOnly || s.insts[i].pending == {})
    ensures var es := CloseAndRepoint(s.insts[i].superReadOnly, i, p, semisync, needs, purge);
            && CanSend(s, es) && OnlyAt(s, SendAll(s, es), i)
            && var y := SendAll(s, es).insts[i];
               && SameData(s.insts[i], y) && y.superReadOnly
               && (if needs then y.io && y.source == Some(p) && y.semiReplica == semisync
                   else y == s.insts[i].(superReadOnly := true))
  {
    hide CanSend, SendAll, Repointing, Step, Enabled;
    var es: seq<Event> := if s.insts[i].superReadOnly then [] else [SetSuperReadOnly(i)];
    var fs := if needs then Repointing(i, p, semisync, purge) else [];
    SendNothing(s);
    if !s.insts[i].superReadOnly {
      SendClose(s, i);
    }
    var s1 := SendAll(s, es);
    SendNothing(s1);
    SendRepoint(s1, i, p, semisync, purge);
    SendBoth(s, es, fs);
  }

  lemma SendStopIo(s: State, i: nat)
    requires i < |s.insts|
    ensures CanSend(s, [StopIo(i)])
    ensures SendAll(s, [StopIo(i)]) == s.(insts := s.insts[i := s.insts[i].(io := false)])
  {
    SendSingle(s, StopIo(i));
  }

  lemma SendClose(s: State, i: nat)
    requires i < |s.insts| && s.insts[i].pending == {}
    ensures CanSend(s, [SetSuperReadOnly(i)])
    ensures SendAll(s, [SetSuperReadOnly(i)]) == s.(insts := s.insts[i := s.insts[i].(superReadOnly := true)])
  {
    SendSingle(s, SetSuperReadOnly(i));
  }

  // ----- the primary -----

  /** What the primary was seen to have in its relay log, and a configure waits for. */
  function Retrieved(seen: Picture): set<Gtid>
    requires seen.primary < |seen.status| && seen.status[seen.primary].Some?
  {
    var r := seen.status[seen.primary].value.replica;
    if r.Some? then r.value.retrieved else {}
  }

  /** The applies by which the primary executes the transactions gs. */
  function Applies(c: nat, gs: seq<Gtid>): seq<Event> {
    if gs == [] then [] else [Apply(c, gs[0])] + Applies(c, gs[1..])
  }

  lemma {:induction false} SendApplies(s: State, c: nat, gs: seq<Gtid>)
    requires c < |s.insts| && forall g :: g in gs ==> g in s.insts[c].retrieved
    ensures CanSend(s, Applies(c, gs))
    ensures SendAll(s, Applies(c, gs)) ==
              s.(insts := s.insts[c := s.insts[c].(executed := s.insts[c].executed + set g | g in gs)])
    decreases |gs|
  {
    hide Ackers, CanSend, SendAll, Step;
    if gs == [] {
      SendNothing(s);
      assert s.insts[c].executed + (set g | g in gs) == s.insts[c].executed;
    } else {
      var s1 := Then(s, Apply(c, gs[0]));
      SendApplies(s1, c, gs[1..]);
      SendOne(s, Apply(c, gs[0]), Applies(c, gs[1..]));
      assert s.insts[c].executed + {gs[0]} + (set g | g in gs[1..]) == s.insts[c].executed + set g | g in gs;
    }
  }

  /**
   A successful configure on the primary: stop receiving, execute what was retrieved, set up semi-sync; or, with a
   replication source, close it and point it there.
   */
  function PrimaryRun(seen: Picture, gs: seq<Gtid>, purge: bool): seq<Event>
    requires seen.primary < |seen.status| && seen.status[seen.primary].Some?
  {
    var c, pst := seen.primary, seen.status[seen.primary].value;
    if seen.spec.external then
      (if pst.superReadOnly then [] else [Event.SetSuperReadOnly(c)]) +
      (if NeedsExternal(seen, pst) then Repointing(c, ExternalSource(seen), false, purge) else [])
    else StopPlan(seen) + Applies(c, gs) + SemiPlan(seen)
  }

  lemma SendIntermediate(s: State, seen: Picture, gs: seq<Gtid>, up: bool, purge: bool)
    requires WellFormed(seen) && s.primary == seen.primary < |s.insts| == seen.spec.replicas && seen.spec.external
    requires seen.status[seen.primary] == Some(Observe(s, s.primary, up, [], None, None).(isErrant := false))
    requires s.insts[s.primary].superReadOnly || s.insts[s.primary].pending == {}
    ensures CanSend(s, PrimaryRun(seen, gs, purge))
    ensures var r := SendAll(s, PrimaryRun(seen, gs, purge));
            var x, y := s.insts[s.primary], r.insts[s.primary];
            && OnlyAt(s, r, s.primary) && SameData(x, y)
            && y.superReadOnly && y.io && y.source == Some(ExternalSource(seen))
  {
    hide CanSend, SendAll, Repointing;
    var c, pst := s.primary, seen.status[s.primary].value;
    assert PrimaryRun(seen, gs, purge) ==
             CloseAndRepoint(pst.superReadOnly, c, ExternalSource(seen), false, NeedsExternal(seen, pst), purge);
    hide CloseAndRepoint, PrimaryRun;
    SendCloseAndRepoint(s, c, ExternalSource(seen), false, NeedsExternal(seen, pst), purge);
  }

  lemma SendPrimary(s: State, seen: Picture, gs: seq<Gtid>, up: bool, purge: bool)
    requires WellFormed(seen) && s.primary == seen.primary < |s.insts| == seen.spec.replicas && !seen.spec.external
    requires seen.status[seen.primary] == Some(Observe(s, s.primary, up, [], None, None).(isErrant := false))
    requires InstanceOk(s, s.primary) && forall g :: g in gs <==> g in Retrieved(seen)
    ensures CanSend(s, PrimaryRun(seen, gs, purge))
    ensures var r := SendAll(s, PrimaryRun(seen, gs, purge));
            var x, y := s.insts[s.primary], r.insts[s.primary];
            && OnlyAt(s, r, s.primary) && y.pending == x.pending && y.executed == x.executed + Retrieved(seen)
            && (y.io ==> x.io) && y.superReadOnly == x.superReadOnly && y.retrieved == x.retrieved
            && (seen.spec.replicas > 1 ==> y.semiSource && y.waitCount == seen.spec.replicas / 2)
  {
    hide Ackers, CanSend, SendAll, Step, Observe, InstanceOk, StopPlan, SemiPlan, Retrieved, Applies;
    var c := s.primary;
    var s1 := SendStop(s, seen, up);
    SendApplies(s1, c, gs);
    var s2 := SendAll(s1, Applies(c, gs));
    SendBoth(s, StopPlan(seen), Applies(c, gs));
    assert (set g | g in gs) == Retrieved(seen);
    SendSemiPlan(s2, seen);
    SendBoth(s, StopPlan(seen) + Applies(c, gs), SemiPlan(seen));
  }

  lemma SendStop(s: State, seen: Picture, up: bool) returns (r: State)
    requires WellFormed(seen) && s.primary == seen.primary < |s.insts| == seen.spec.replicas
    requires seen.status[seen.primary] == Some(Observe(s, s.primary, up, [], None, None).(isErrant := false))
    requires InstanceOk(s, s.primary)
    ensures CanSend(s, StopPlan(seen)) && r == SendAll(s, StopPlan(seen))
    ensures r == s.(insts := s.insts[s.primary := s.insts[s.primary].(io := s.insts[s.primary].io && !up)])
    ensures Retrieved(seen) == s.insts[s.primary].retrieved
    ensures var pst := seen.status[seen.primary].value;
            pst.semiSource == s.insts[s.primary].semiSource && pst.waitCount == s.insts[s.primary].waitCount
  {
    hide Ackers, CanSend, SendAll, Step;
    SendNothing(s);
    SendSingle(s, StopIo(s.primary));
    r := SendAll(s, StopPlan(seen));
    if !IoRunning(seen.status[seen.primary].value) {
      assert s.insts[s.primary] == s.insts[s.primary].(io := s.insts[s.primary].io && !up);
    }
  }

  lemma SendSemiPlan(s: State, seen: Picture)
    requires WellFormed(seen) && s.primary == seen.primary < |s.insts| == seen.spec.replicas
    requires seen.status[seen.primary].Some?
    requires var pst := seen.status[seen.primary].value;
             pst.semiSource == s.insts[s.primary].semiSource && pst.waitCount == s.insts[s.primary].waitCount
    ensures CanSend(s, SemiPlan(seen))
    ensures var r := SendAll(s, SemiPlan(seen));
            var x, y := s.insts[s.primary], r.insts[s.primary];
            && OnlyAt(s, r, s.primary) && y == x.(semiSource := y.semiSource, waitCount := y.waitCount)
            && (seen.spec.replicas > 1 ==> y.semiSource && y.waitCount == seen.spec.replicas / 2)
  {
    hide Ackers, CanSend, SendAll, Step;
    SendNothing(s);
    SendSemi(s, s.primary, seen.spec.replicas / 2);
  }

  lemma SendSemi(s: State, c: nat, n: nat)
    requires c < |s.insts|
    ensures CanSend(s, PrimaryStatements(c, n))
    ensures SendAll(s, PrimaryStatements(c, n)) ==
              s.(insts := s.insts[c := s.insts[c].(waitCount := n, semiSource := true)])
  {
    hide Ackers, CanSend, SendAll, Step;
    var s1 := Then(s, SetWaitCount(c, n));
    SendSingle(s1, SemiSourceOn(c));
    SendList(s, SetWaitCount(c, n), [SemiSourceOn(c)], PrimaryStatements(c, n));
  }

  lemma SendWritable(s: State, c: nat)
    requires c < |s.insts|
    ensures CanSend(s, WritableStatements(c))
    ensures SendAll(s, WritableStatements(c)) ==
              s.(insts := s.insts[c := s.insts[c].(io := false, retrieved := {}, superReadOnly := false)])
  {
    hide Ackers, CanSend, SendAll, Step;
    var s1 := Then(s, StopIo(c));
    var s2 := Then(s1, ResetReplica(c));
    SendSingle(s2, SetReadWrite(c));
    SendList(s1, ResetReplica(c), [SetReadWrite(c)], [ResetReplica(c), SetReadWrite(c)]);
    SendList(s, StopIo(c), [ResetReplica(c), SetReadWrite(c)], WritableStatements(c));
  }

  // ----- the whole plan -----

  /** Where the servers are after the first n replicas had their turn. */
  ghost predicate Turned(a: State, b: State, seen: Picture, n: nat) {
    && |b.insts| == |a.insts| && b.primary == a.primary < |a.insts| == |seen.status|
    && b.insts[a.primary] == a.insts[a.primary]
    && (forall i: nat :: i < |a.insts| ==>
          b.insts[i].executed == a.insts[i].executed && b.insts[i].pending == a.insts[i].pending)
    && (forall i: nat :: n <= i < |a.insts| ==> b.insts[i] == a.insts[i])
    && (forall i: nat :: i < n && i < |a.insts| && i != a.primary && seen.status[i].Some? ==>
          Replicates(a.insts[i], b.insts[i], a.primary, seen.status[i].value, !seen.spec.external))
  }

  /** seen is what a gather of s shows, apart from the primary's entry. */
  ghost predicate Shows(s: State, seen: Picture, net: Net) {
    && s.primary < |s.insts| == |seen.status| && seen.primary == s.primary
    && forall i: nat :: i < |s.insts| && i != s.primary && seen.status[i].Some? ==>
         && s.insts[i].pending == {}
         && (seen.status[i].value.isErrant || !NeedsClone(seen, seen.status[i].value))
         && seen.status[i].value ==
              Observe(s, i, i in net.connected, [], None, None).(isErrant := seen.status[i].value.isErrant)
  }

  lemma {:induction false} SendReplicas(s: State, seen: Picture, net: Net, purges: set<nat>, n: nat)
    requires Shows(s, seen, net) && n <= |s.insts|
    ensures CanSend(s, ReplicaRuns(seen, purges, n))
    ensures Turned(s, SendAll(s, ReplicaRuns(seen, purges, n)), seen, n)
  {
    hide CanSend, SendAll, ReplicaRun, NeedsClone, Observe, Replicates;
    if n == 0 {
      SendNothing(s);
    } else {
      var i := n - 1;
      SendReplicas(s, seen, net, purges, i);
      var r := SendAll(s, ReplicaRuns(seen, purges, i));
      if i == s.primary || seen.status[i].None? {
        NoRun(seen, i, i in purges);
        SendNothing(r);
      } else {
        SameInstance(s, r, i, i in net.connected);
        SendReplica(r, seen, i, seen.status[i].value, i in net.connected, i in purges);
      }
      SendBoth(s, ReplicaRuns(seen, purges, i), ReplicaRun(seen, i, i in purges));
    }
  }

  lemma NoRun(seen: Picture, i: nat, purge: bool)
    requires i < |seen.status| && (i == seen.primary || seen.status[i].None?)
    ensures ReplicaRun(seen, i, purge) == []
  {
  }

  lemma SameInstance(s: State, r: State, i: nat, up: bool)
    requires i < |s.insts| == |r.insts| && r.insts[i] == s.insts[i]
    ensures Observe(r, i, up, [], None, None) == Observe(s, i, up, [], None, None)
  {
  }

  /** What the primary has executed once a configure has succeeded: without a replication source, its relay log, too. */
  function Drained(seen: Picture): set<Gtid>
    requires seen.primary < |seen.status| && seen.status[seen.primary].Some?
  {
    if seen.spec.external then seen.executed else seen.executed + Retrieved(seen)
  }

  /** After a successful configure: every replica is in place, and so is the primary. */
  ghost predicate Finished(a: State, b: State, seen: Picture)
    requires seen.primary < |seen.status| && seen.status[seen.primary].Some?
  {
    && |b.insts| == |a.insts| && b.primary == a.primary == seen.primary < |a.insts| == |seen.status|
    && (forall i: nat :: i < |a.insts| && i != a.primary ==> SameData(a.insts[i], b.insts[i]))
    && (forall i: nat :: i < |a.insts| && i != a.primary && seen.status[i].Some? ==>
          Replicates(a.insts[i], b.insts[i], a.primary, seen.status[i].value, !seen.spec.external))
    && b.insts[a.primary].executed == Drained(seen) && b.insts[a.primary].pending == a.insts[a.primary].pending
    && PrimaryDone(b.insts[a.primary], seen)
  }

  ghost predicate PrimaryDone(y: Instance, seen: Picture) {
    if seen.spec.external then y.superReadOnly && y.io && y.source == Some(ExternalSource(seen))
    else
      && !y.io && !y.superReadOnly && y.retrieved == {}
      && (|seen.status| > 1 ==> y.semiSource && y.waitCount == |seen.status| / 2)
  }

  /** No reachable replica that is not errant has to be cloned. */
  predicate NoClone(seen: Picture) {
    forall i: nat :: i < |seen.status| && i != seen.primary && seen.status[i].Some? ==>
      seen.status[i].value.isErrant || !NeedsClone(seen, seen.status[i].value)
  }

  lemma ViewShows(s: State, seen: Picture, stored: seq<nat>, net: Net, s1: State)
    requires |seen.status| == |s.insts| && seen.primary == s.primary < |s.insts| && OnlyAt(s, s1, s.primary)
    requires forall i: nat :: i < |seen.status| ==> seen.status[i] == StatusOf(s, stored, net, i)
    requires NoClone(seen)
    ensures Shows(s1, seen, net)
  {
    hide NeedsClone, ErrantIn;
    forall i: nat | i < |s.insts| && i != s.primary && seen.status[i].Some?
      ensures s1.insts[i].pending == {}
      ensures seen.status[i].value ==
                Observe(s1, i, i in net.connected, [], None, None).(isErrant := seen.status[i].value.isErrant)
    {
      assert seen.status[i] == StatusOf(s, stored, net, i);
      SameInstance(s, s1, i, i in net.connected);
    }
  }

  /**
   All that happens in a successful configure: the statements of the plan, with the relay logs of purges deleted where
   they are repointed, and the applies of gs that it waits for.
   */
  function ConfigureRun(seen: Picture, gs: seq<Gtid>, purges: set<nat>): seq<Event>
    requires seen.primary < |seen.status| && seen.status[seen.primary].Some?
  {
    PrimaryRun(seen, gs, seen.primary in purges) + ReplicaRuns(seen, purges, |seen.status|) + WritePlan(seen)
  }

  /** The transactions gs are those that the configure waits for. */
  ghost predicate Awaited(seen: Picture, gs: seq<Gtid>)
    requires seen.primary < |seen.status| && seen.status[seen.primary].Some?
  {
    if seen.spec.external then gs == [] else forall g :: g in gs <==> g in Retrieved(seen)
  }

  /** The statement that an event comes from. */
  function AsSent(e: Event): Event {
    if e.ChangeSourcePurging? then ChangeSource(e.i, e.p) else e
  }

  function AllAsSent(es: seq<Event>): seq<Event> {
    if es == [] then [] else [AsSent(es[0])] + AllAsSent(es[1..])
  }

  lemma {:induction false} AsSentBoth(es: seq<Event>, fs: seq<Event>)
    ensures AllAsSent(es + fs) == AllAsSent(es) + AllAsSent(fs)
  {
    hide AsSent;
    if es == [] {
      assert es + fs == fs;
    } else {
      assert (es + fs)[1..] == es[1..] + fs;
      AsSentBoth(es[1..], fs);
    }
  }

  lemma {:induction false} AsSentSame(es: seq<Event>)
    requires forall k :: 0 <= k < |es| ==> !es[k].ChangeSourcePurging?
    ensures AllAsSent(es) == es
  {
    if es != [] {
      AsSentSame(es[1..]);
    }
  }

  lemma RepointingSent(i: nat, p: nat, semisync: bool, purge: bool)
    ensures AllAsSent(Repointing(i, p, semisync, purge)) == ReplicaStatements(i, p, semisync)
  {
    var rest := StartStatements(i, semisync);
    var e := SourceChange(i, p, purge);
    AsSentBoth([StopIo(i)], [e] + rest);
    AsSentBoth([e], rest);
    AsSentSame(rest);
    AsSentSame([StopIo(i)]);
    assert AllAsSent([e]) == [ChangeSource(i, p)];
  }

  lemma ReplicaRunSent(seen: Picture, i: nat, purge: bool)
    requires i < |seen.status|
    ensures AllAsSent(ReplicaRun(seen, i, purge)) == ReplicaPlan(seen, i)
  {
    hide AllAsSent, Repointing, ReplicaStatements, NeedsSource, NeedsClone;
    if i == seen.primary || seen.status[i].None? || seen.status[i].value.isErrant {
      AsSentSame(ReplicaRun(seen, i, purge));
    } else {
      var st := seen.status[i].value;
      var es: seq<Event> := if st.superReadOnly then [] else [SetSuperReadOnly(i)];
      var fs: seq<Event> := if NeedsClone(seen, st) then [CloneFromPrimary(i)] else [];
      var hs := if NeedsSource(seen, st) then Repointing(i, seen.primary, !seen.spec.external, purge) else [];
      AsSentBoth(es + fs, hs);
      AsSentSame(es + fs);
      AsSentSame([]);
      RepointingSent(i, seen.primary, !seen.spec.external, purge);
    }
  }

  lemma {:induction false} ReplicaRunsSent(seen: Picture, purges: set<nat>, n: nat)
    requires n <= |seen.status|
    ensures AllAsSent(ReplicaRuns(seen, purges, n)) == ReplicaPlans(seen, n)
  {
    hide ReplicaRun, ReplicaPlan;
    if n > 0 {
      ReplicaRunsSent(seen, purges, n - 1);
      ReplicaRunSent(seen, n - 1, n - 1 in purges);
      AsSentBoth(ReplicaRuns(seen, purges, n - 1), ReplicaRun(seen, n - 1, n - 1 in purges));
    }
  }

  lemma {:induction false} AppliesSent(c: nat, gs: seq<Gtid>)
    ensures AllAsSent(Applies(c, gs)) == Applies(c, gs)
  {
    if gs != [] {
      AppliesSent(c, gs[1..]);
      AsSentBoth([Apply(c, gs[0])], Applies(c, gs[1..]));
      AsSentSame([Apply(c, gs[0])]);
    }
  }

  /** How many statements come before the applies. */
  function BeforeApplies(seen: Picture): nat
    requires seen.primary < |seen.status| && seen.status[seen.primary].Some?
  {
    if seen.spec.external then 0 else |StopPlan(seen)|
  }

  lemma PrimaryRunSent(seen: Picture, gs: seq<Gtid>, purge: bool)
    requires seen.primary < |seen.status| && seen.status[seen.primary].Some? && Awaited(seen, gs)
    ensures var n := BeforeApplies(seen);
            && n <= |PrimaryPlan(seen)|
            && AllAsSent(PrimaryRun(seen, gs, purge)) ==
                 PrimaryPlan(seen)[..n] + Applies(seen.primary, gs) + PrimaryPlan(seen)[n..]
  {
    hide AllAsSent, Repointing, ReplicaStatements, NeedsExternal;
    var c, pst := seen.primary, seen.status[seen.primary].value;
    if seen.spec.external {
      var es: seq<Event> := if pst.superReadOnly then [] else [SetSuperReadOnly(c)];
      var fs := if NeedsExternal(seen, pst) then Repointing(c, ExternalSource(seen), false, purge) else [];
      AsSentBoth(es, fs);
      AsSentSame(es);
      AsSentSame([]);
      RepointingSent(c, ExternalSource(seen), false, purge);
      assert PrimaryPlan(seen)[..0] + [] + PrimaryPlan(seen)[0..] == PrimaryPlan(seen);
    } else {
      AsSentBoth(StopPlan(seen) + Applies(c, gs), SemiPlan(seen));
      AsSentBoth(StopPlan(seen), Applies(c, gs));
      AppliesSent(c, gs);
      AsSentSame(StopPlan(seen));
      AsSentSame(SemiPlan(seen));
    }
  }

  /** The manager's part of it is the plan, with the applies after the primary has stopped receiving. */
  lemma RunIsPlan(seen: Picture, gs: seq<Gtid>, purges: set<nat>)
    requires seen.primary < |seen.status| && seen.status[seen.primary].Some? && Awaited(seen, gs)
    ensures var n := BeforeApplies(seen);
            && n <= |Plan(seen)|
            && AllAsSent(ConfigureRun(seen, gs, purges)) ==
                 Plan(seen)[..n] + Applies(seen.primary, gs) + Plan(seen)[n..]
  {
    hide PrimaryRun, PrimaryPlan, ReplicaRuns, ReplicaPlans, WritePlan, Applies, AllAsSent, BeforeApplies, Awaited;
    var c, n := seen.primary, BeforeApplies(seen);
    var a, b, w := PrimaryRun(seen, gs, c in purges), ReplicaRuns(seen, purges, |seen.status|), WritePlan(seen);
    AsSentBoth(a + b, w);
    AsSentBoth(a, b);
    PrimaryRunSent(seen, gs, c in purges);
    ReplicaRunsSent(seen, purges, |seen.status|);
    WriteSent(seen);
    var rest := ReplicaPlans(seen, |seen.status|) + w;
    assert Plan(seen) == PrimaryPlan(seen) + rest;
    assert Plan(seen)[..n] == PrimaryPlan(seen)[..n] && Plan(seen)[n..] == PrimaryPlan(seen)[n..] + rest;
  }

  lemma WriteSent(seen: Picture)
    requires seen.primary < |seen.status| && seen.status[seen.primary].Some?
    ensures AllAsSent(WritePlan(seen)) == WritePlan(seen)
  {
    AsSentSame(WritePlan(seen));
  }

  /** Without a replication source the primary must be sound; with one it must not have to wait for sessions. */
  ghost predicate CanConfigure(s: State, spec: Spec) {
    && s.primary < |s.insts| == spec.replicas
    && if spec.external then s.insts[s.primary].superReadOnly || s.insts[s.primary].pending == {}
       else InstanceOk(s, s.primary)
  }

  lemma InvCanConfigure(s: State, spec: Spec)
    requires Inv(s) && |s.insts| == spec.replicas && !spec.external
    ensures CanConfigure(s, spec)
  {
  }

  lemma ConfigureFinishes(s: State, stored: seq<nat>, net: Net, spec: Spec, pods: seq<Pod>, gs: seq<Gtid>,
                          purges: set<nat>)
    requires CanConfigure(s, spec) && |pods| == spec.replicas && NoClone(ViewOf(s, stored, net, spec, pods))
    requires Awaited(ViewOf(s, stored, net, spec, pods), gs)
    ensures var seen := ViewOf(s, stored, net, spec, pods);
            CanSend(s, ConfigureRun(seen, gs, purges)) && Finished(s, SendAll(s, ConfigureRun(seen, gs, purges)), seen)
  {
    hide CanSend, SendAll, PrimaryRun, ReplicaRuns, NeedsClone, Replicates, ErrantIn, ViewOf, Shows, NoClone, Retrieved,
      PrimaryDone, WritePlan;
    var seen := ViewOf(s, stored, net, spec, pods);
    var c := s.primary;
    var p, rest := c in purges, ReplicaRuns(seen, purges, |s.insts|);
    var s1 := PrimaryFirst(s, stored, net, spec, pods, gs, p);
    ViewShows(s, seen, stored, net, s1);
    SendReplicas(s1, seen, net, purges, |s.insts|);
    SendBoth(s, PrimaryRun(seen, gs, p), rest);
    var s2 := SendAll(s1, rest);
    PrimaryLast(s1, s2, seen);
    SendBoth(s, PrimaryRun(seen, gs, p) + rest, WritePlan(seen));
  }

  /** What holds of the primary between its first and its last statements. */
  ghost predicate PrimaryReady(y: Instance, seen: Picture)
    requires seen.primary < |seen.status| && seen.status[seen.primary].Some?
  {
    if seen.spec.external then PrimaryDone(y, seen)
    else
      && y.superReadOnly == seen.status[seen.primary].value.readOnly
      && (y.superReadOnly || (!y.io && y.retrieved == {}))
      && (|seen.status| > 1 ==> y.semiSource && y.waitCount == |seen.status| / 2)
  }

  lemma PrimaryFirst(s: State, stored: seq<nat>, net: Net, spec: Spec, pods: seq<Pod>, gs: seq<Gtid>, purge: bool)
      returns (r: State)
    requires CanConfigure(s, spec) && |pods| == spec.replicas && Awaited(ViewOf(s, stored, net, spec, pods), gs)
    ensures var seen := ViewOf(s, stored, net, spec, pods);
            && CanSend(s, PrimaryRun(seen, gs, purge)) && r == SendAll(s, PrimaryRun(seen, gs, purge))
            && OnlyAt(s, r, s.primary) && PrimaryReady(r.insts[s.primary], seen)
            && r.insts[s.primary].executed == Drained(seen)
            && r.insts[s.primary].pending == s.insts[s.primary].pending
  {
    hide CanSend, SendAll, PrimaryRun, ErrantIn, ViewOf;
    var seen := ViewOf(s, stored, net, spec, pods);
    var c := s.primary;
    assert seen.status[c] == StatusOf(s, stored, net, c);
    assert !ErrantIn(s, stored, c) by { NotErrant(s, stored); }
    if spec.external {
      SendIntermediate(s, seen, gs, c in net.connected, purge);
    } else {
      SendPrimary(s, seen, gs, c in net.connected, purge);
    }
    r := SendAll(s, PrimaryRun(seen, gs, purge));
  }

  lemma PrimaryLast(a: State, b: State, seen: Picture)
    requires seen.primary < |seen.status| && seen.status[seen.primary].Some?
    requires a.primary == b.primary == seen.primary < |a.insts| == |b.insts|
    requires b.insts[a.primary] == a.insts[a.primary] && PrimaryReady(a.insts[a.primary], seen)
    ensures CanSend(b, WritePlan(seen))
    ensures var r := SendAll(b, WritePlan(seen));
            && OnlyAt(b, r, b.primary) && SameData(b.insts[b.primary], r.insts[b.primary])
            && PrimaryDone(r.insts[b.primary], seen)
  {
    hide CanSend, SendAll, WritableStatements;
    SendNothing(b);
    SendWritable(b, b.primary);
  }

  lemma NotErrant(s: State, stored: seq<nat>)
    requires s.primary < |s.insts|
    ensures !ErrantIn(s, stored, s.primary)
  {
  }

  // ----- the next round -----

  /** Whether replica i will be flagged once the primary has executed what it was seen to have retrieved. */
  ghost predicate ErrantOnceDrained(seen: Picture, i: nat)
    requires seen.primary < |seen.status| && seen.status[seen.primary].Some?
    requires i < |seen.status| && seen.status[i].Some?
  {
    var drained := Drained(seen);
    if drained == {} then seen.status[i].value.isErrant
    else exists g :: g in seen.status[i].value.executed - drained && g.origin != seen.primary
  }

  /** The relay log of the primary changes nobody's flag. */
  ghost predicate FlagsStay(seen: Picture)
    requires seen.primary < |seen.status| && seen.status[seen.primary].Some?
  {
    forall i: nat :: i < |seen.status| && i != seen.primary && seen.status[i].Some? ==>
      (ErrantOnceDrained(seen, i) <==> seen.status[i].value.isErrant)
  }

  /**
   The next configure leaves replica i alone, if the IO threads in connected show as running then.  One that will be
   errant must not show a running thread; one that will not be must, and if it was errant before, so that this
   configure did not touch it, it must already be set up.
   */
  ghost predicate LeftAlone(seen: Picture, connected: set<nat>, i: nat)
    requires seen.primary < |seen.status| && seen.status[seen.primary].Some?
    requires i < |seen.status| && seen.status[i].Some?
  {
    var st := seen.status[i].value;
    var running := i in connected && (st.isErrant ==> Connecting(st));
    if ErrantOnceDrained(seen, i) then !running
    else running && (st.isErrant ==> && st.superReadOnly && st.semiReplica == !seen.spec.external
                                     && st.replica.value.sourceHost == D.PodHost(seen.primary))
  }

  ghost predicate AllLeftAlone(seen: Picture, connected: set<nat>)
    requires seen.primary < |seen.status| && seen.status[seen.primary].Some?
  {
    && (seen.spec.external ==> seen.primary in connected)
    && forall i: nat :: i < |seen.status| && i != seen.primary && seen.status[i].Some? ==> LeftAlone(seen, connected, i)
  }

  /** With every thread connected in both gathers, only the flags matter. */
  lemma ConnectedLeftAlone(seen: Picture, connected: set<nat>)
    requires seen.primary < |seen.status| && seen.status[seen.primary].Some?
    requires forall i: nat :: i < |seen.status| && seen.status[i].Some? ==> i in connected
    requires forall i: nat :: i < |seen.status| && i != seen.primary && seen.status[i].Some? ==>
               !Connecting(seen.status[i].value)
    ensures AllLeftAlone(seen, connected) <==> FlagsStay(seen)
  {
    hide ErrantOnceDrained, Connecting;
    forall i: nat | i < |seen.status| && i != seen.primary && seen.status[i].Some?
      ensures LeftAlone(seen, connected, i) <==> (ErrantOnceDrained(seen, i) <==> seen.status[i].value.isErrant)
    {
    }
  }

  /**
   With a replication source no flag changes, and the next configure has nothing to send exactly if the primary and
   every reachable replica that is not errant are connected then, and no errant one that was seen Connecting is.
   */
  lemma SourceLeftAlone(s: State, stored: seq<nat>, net: Net, spec: Spec, pods: seq<Pod>, connected: set<nat>)
    requires s.primary < |s.insts| == spec.replicas == |pods| && spec.external
    ensures FlagsStay(ViewOf(s, stored, net, spec, pods))
    ensures var seen := ViewOf(s, stored, net, spec, pods);
            AllLeftAlone(seen, connected) <==>
            && s.primary in connected
            && forall i: nat :: i < |seen.status| && i != s.primary && seen.status[i].Some? ==>
                 if seen.status[i].value.isErrant then !(i in connected && Connecting(seen.status[i].value))
                 else i in connected
  {
    hide Connecting;
    var seen := ViewOf(s, stored, net, spec, pods);
    forall i: nat | i < |seen.status| && i != s.primary && seen.status[i].Some?
      ensures ErrantOnceDrained(seen, i) <==> seen.status[i].value.isErrant
    {
      assert seen.status[i] == StatusOf(s, stored, net, i);
    }
    hide ErrantOnceDrained;
  }

  lemma NextErrant(s: State, r: State, stored: seq<nat>, stored': seq<nat>, seen: Picture, i: nat)
    requires WellFormed(seen) && |seen.status| == |s.insts| && seen.primary == s.primary < |s.insts| && i < |s.insts|
    requires seen.executed == s.insts[s.primary].executed && seen.status[s.primary].Some? && i != s.primary
    requires Finished(s, r, seen) && (seen.executed == {} ==> stored' == stored)
    ensures |r.insts| == |s.insts| && r.primary == s.primary
    ensures ErrantIn(r, stored', i) <==> ErrantAgainst(s, stored, Drained(seen), i)
  {
    hide Replicates;
    assert SameData(s.insts[i], r.insts[i]);
  }

  /** The next gather finds the flags foretold. */
  lemma NextFlag(s: State, r: State, stored: seq<nat>, stored': seq<nat>, net: Net, seen: Picture, i: nat)
    requires WellFormed(seen) && |seen.status| == |s.insts| && seen.primary == s.primary < |s.insts| && i < |s.insts|
    requires seen.executed == s.insts[s.primary].executed && seen.status[s.primary].Some?
    requires i != s.primary && seen.status[i] == StatusOf(s, stored, net, i) && seen.status[i].Some?
    requires Finished(s, r, seen) && (seen.executed == {} ==> stored' == stored)
    ensures ErrantIn(r, stored', i) <==> ErrantOnceDrained(seen, i)
  {
    hide Finished;
    NextErrant(s, r, stored, stored', seen, i);
  }

  /** Replica i is in place for the next configure exactly if that was foretold. */
  lemma NextInPlace(s: State, r: State, stored: seq<nat>, stored': seq<nat>, net: Net, net': Net,
                    seen: Picture, after: Picture, i: nat)
    requires seen.primary < |seen.status| && seen.status[seen.primary].Some? && Finished(s, r, seen)
    requires i < |s.insts| && i != s.primary && seen.status[i].Some? && seen.status[i] == StatusOf(s, stored, net, i)
    requires |after.status| == |s.insts| && after.primary == s.primary && after.spec.external == seen.spec.external
    requires after.status[i] == StatusOf(r, stored', net', i) && after.status[i].Some?
    requires ErrantIn(r, stored', i) <==> ErrantOnceDrained(seen, i)
    ensures InPlace(after, i) <==> LeftAlone(seen, net'.connected, i)
  {
    hide ErrantIn, ErrantOnceDrained;
    assert Replicates(s.insts[i], r.insts[i], s.primary, seen.status[i].value, !seen.spec.external);
  }

  lemma NextReachable(s: State, r: State, stored: seq<nat>, stored': seq<nat>, net: Net, net': Net, seen: Picture,
                      i: nat)
    requires seen.primary < |seen.status| && seen.status[seen.primary].Some? && Finished(s, r, seen) && i < |s.insts|
    requires net'.down == net.down
    ensures StatusOf(r, stored', net', i).Some? <==> StatusOf(s, stored, net, i).Some?
  {
    hide ErrantIn, Replicates;
    assert i != s.primary ==> SameData(s.insts[i], r.insts[i]);
  }

  /**
   From every reachable state in which no clone is needed, and with a replication source from every state in which the
   primary need not wait for sessions: a gather, then a successful configure, then another gather that reaches the same
   instances.  In both, any replicas may be unreachable and any started IO threads may be without a connection.  The
   next configure has nothing to wait for, and it has nothing to send exactly if it leaves the primary and every
   reachable replica alone, which the first picture and the connections at the second gather tell.
   */
  lemma ConfigureFixedPoint(s: State, stored: seq<nat>, net: Net, spec: Spec, pods: seq<Pod>, gs: seq<Gtid>,
                            purges: set<nat>, stored': seq<nat>, net': Net, pods': seq<Pod>)
    requires CanConfigure(s, spec) && spec.replicas == |pods| == |pods'|
    requires NoClone(ViewOf(s, stored, net, spec, pods)) && net'.down == net.down
    requires Awaited(ViewOf(s, stored, net, spec, pods), gs)
    requires s.insts[s.primary].executed == {} ==> stored' == stored
    ensures var seen := ViewOf(s, stored, net, spec, pods);
            && CanSend(s, ConfigureRun(seen, gs, purges))
            && SendAll(s, ConfigureRun(seen, gs, purges)).primary == s.primary
            && var after := ViewOf(SendAll(s, ConfigureRun(seen, gs, purges)), stored', net', spec, pods');
               !WaitsForRelayLog(after) && (Plan(after) == [] <==> AllLeftAlone(seen, net'.connected))
  {
    hide CanSend, SendAll, Plan, ErrantIn, NoClone, ConfigureRun, StatusOf, Replicates, InPlace, PrimaryInPlace,
      ErrantOnceDrained, Retrieved, LeftAlone, CanConfigure, Awaited;
    var seen := ViewOf(s, stored, net, spec, pods);
    ConfigureFinishes(s, stored, net, spec, pods, gs, purges);
    var r := SendAll(s, ConfigureRun(seen, gs, purges));
    var after := ViewOf(r, stored', net', spec, pods');
    forall i: nat | i < |after.status|
      ensures InPlace(after, i) <==>
                (i != s.primary && seen.status[i].Some? ==> LeftAlone(seen, net'.connected, i))
    {
      NextReachable(s, r, stored, stored', net, net', seen, i);
      if i == s.primary || seen.status[i].None? {
        TriviallyInPlace(after, i);
      } else {
        NextFlag(s, r, stored, stored', net, seen, i);
        NextInPlace(s, r, stored, stored', net, net', seen, after, i);
      }
    }
    NextPrimary(r, stored', net', seen, after);
    NothingToSend(after);
  }

  /** With everyone reached and connected, a flag that changes means another configure. */
  lemma AnotherConfigure(s: State, stored: seq<nat>, net: Net, spec: Spec, pods: seq<Pod>, gs: seq<Gtid>,
                         purges: set<nat>)
    requires CanConfigure(s, spec) && spec.replicas == |pods|
    requires var seen := ViewOf(s, stored, net, spec, pods);
             && NoClone(seen) && !FlagsStay(seen) && Awaited(seen, gs)
             && forall i: nat :: i < |seen.status| && seen.status[i].Some? ==>
                  i in net.connected && !Connecting(seen.status[i].value)
    ensures var seen := ViewOf(s, stored, net, spec, pods);
            && CanSend(s, ConfigureRun(seen, gs, purges))
            && var r := SendAll(s, ConfigureRun(seen, gs, purges));
               r.primary == s.primary && Plan(ViewOf(r, stored, net, spec, pods)) != []
  {
    hide CanSend, SendAll, Plan, NoClone, ConfigureRun, FlagsStay, AllLeftAlone, Retrieved, Connecting, Awaited;
    ConnectedLeftAlone(ViewOf(s, stored, net, spec, pods), net.connected);
    ConfigureFixedPoint(s, stored, net, spec, pods, gs, purges, stored, net, pods);
  }

  lemma TriviallyInPlace(seen: Picture, i: nat)
    requires i < |seen.status| && (i == seen.primary || seen.status[i].None?)
    ensures InPlace(seen, i)
  {
  }

  lemma NextPrimary(r: State, stored: seq<nat>, net: Net, seen: Picture, after: Picture)
    requires r.primary < |r.insts| == |after.status| == |seen.status| && after.primary == seen.primary == r.primary
    requires after.spec == seen.spec && seen.spec.replicas == |seen.status| && PrimaryDone(r.insts[r.primary], seen)
    requires after.status[r.primary] == StatusOf(r, stored, net, r.primary)
    ensures after.status[r.primary].Some? && !WaitsForRelayLog(after)
    ensures PrimaryInPlace(after) <==> (seen.spec.external ==> seen.primary in net.connected)
  {
    hide ErrantIn;
  }

  /**
   A configure that has nothing to send leaves an errant replica's IO thread off exactly if it did not show as
   Connecting: a thread that is started and cannot connect is not stopped.
   */
  lemma ErrantThreadOff(s: State, stored: seq<nat>, net: Net, spec: Spec, pods: seq<Pod>, i: nat)
    requires s.primary < |s.insts| == spec.replicas == |pods| && i < |s.insts| && i != s.primary && InstanceOk(s, i)
    requires var seen := ViewOf(s, stored, net, spec, pods);
             Plan(seen) == [] && seen.status[i].Some? && seen.status[i].value.isErrant
    ensures !s.insts[i].io <==> !Connecting(ViewOf(s, stored, net, spec, pods).status[i].value)
  {
    hide Plan, ErrantIn;
    var seen := ViewOf(s, stored, net, spec, pods);
    NothingToSend(seen);
    assert InPlace(seen, i) && seen.status[i] == StatusOf(s, stored, net, i);
  }

  // ----- labels -----

  /** The gather lists instance i as errant.  One that cannot be reached is listed only if nobody can be compared. */
  ghost predicate Listed(s: State, stored: seq<nat>, net: Net, executed: set<Gtid>, i: nat)
    requires i < |s.insts|
  {
    ErrantAgainst(s, stored, executed, i) && (i in net.down ==> executed == {})
  }

  ghost predicate Lists(errants: seq<nat>, s: State, stored: seq<nat>, net: Net) {
    && s.primary < |s.insts|
    && forall i: nat :: i in errants <==> i < |s.insts| && Listed(s, stored, net, s.insts[s.primary].executed, i)
  }

  lemma ListedIsErrant(s: State, stored: seq<nat>, net: Net, seen: Picture, errants: seq<nat>, i: nat)
    requires Lists(errants, s, stored, net) && i < |s.insts| == |seen.status|
    requires seen.status[i] == StatusOf(s, stored, net, i)
    ensures IsErrantReplica(seen, errants, i) <==> Listed(s, stored, net, s.insts[s.primary].executed, i)
    ensures seen.status[i].Some? ==> (IsErrantReplica(seen, errants, i) <==> ErrantIn(s, stored, i))
  {
  }

  /**
   After a successful configure that also left the Pods labelled, the next one changes a label, or kills connections
   to change one, exactly if a reachable replica's flag has changed, or an unreachable one that bears a label is listed
   as errant now.
   */
  lemma LabelsAfterConfigure(s: State, r: State, stored: seq<nat>, stored': seq<nat>, net: Net, net': Net,
                             spec: Spec, pods: seq<Pod>, m: Moment, errants: seq<nat>, errants': seq<nat>)
    requires s.primary < |s.insts| == spec.replicas == |pods| == |m.pods|
    requires r.primary == s.primary && |r.insts| == |s.insts| && net'.down == net.down
    requires Finished(s, r, ViewOf(s, stored, net, spec, pods))
    requires s.insts[s.primary].executed == {} ==> stored' == stored
    requires Lists(errants, s, stored, net) && Lists(errants', r, stored', net')
    requires Labelled(m, ViewOf(s, stored, net, spec, pods), errants)
    requires forall k: nat :: k < |m.pods| ==> k !in m.recreated
    ensures var seen, after := ViewOf(s, stored, net, spec, pods), ViewOf(r, stored', net', spec, m.pods);
            (forall k: nat :: k < |m.pods| ==> !LabelWork(after, errants', k)) <==>
            && FlagsStay(seen)
            && forall k: nat :: k < |m.pods| && seen.status[k].None? ==>
                 m.pods[k].role == Unset || !Listed(s, stored, net, Drained(seen), k)
  {
    hide ErrantIn, ErrantAgainst, Finished, Labelled, LabelWork, IsErrantReplica, Lists, ErrantOnceDrained, StatusOf,
      Retrieved, Listed;
    var seen, after := ViewOf(s, stored, net, spec, pods), ViewOf(r, stored', net', spec, m.pods);
    forall k: nat | k < |m.pods|
      ensures after.status[k].Some? <==> seen.status[k].Some?
      ensures k != s.primary && seen.status[k].Some? ==>
                && (IsErrantReplica(seen, errants, k) <==> seen.status[k].value.isErrant)
                && (IsErrantReplica(after, errants', k) <==> ErrantOnceDrained(seen, k))
      ensures k != s.primary && seen.status[k].None? ==>
                (IsErrantReplica(after, errants', k) <==> Listed(s, stored, net, Drained(seen), k))
    {
      NextReachable(s, r, stored, stored', net, net', seen, k);
      ListedIsErrant(s, stored, net, seen, errants, k);
      ListedIsErrant(r, stored', net', after, errants', k);
      if k != s.primary {
        NextListed(s, r, stored, stored', net, net', seen, k);
      }
      if k != s.primary && seen.status[k].Some? {
        StatusFlag(s, stored, net, k);
        NextFlag(s, r, stored, stored', net, seen, k);
      }
    }
    PrimaryNotListed(s, stored, net, seen, errants);
    LabelsFixedPoint(m, seen, errants, after, errants');
  }

  lemma NextListed(s: State, r: State, stored: seq<nat>, stored': seq<nat>, net: Net, net': Net, seen: Picture, i: nat)
    requires WellFormed(seen) && |seen.status| == |s.insts| && seen.primary == s.primary < |s.insts| && i < |s.insts|
    requires seen.executed == s.insts[s.primary].executed && seen.status[s.primary].Some? && i != s.primary
    requires Finished(s, r, seen) && (seen.executed == {} ==> stored' == stored) && net'.down == net.down
    ensures |r.insts| == |s.insts| && r.primary == s.primary
    ensures Listed(r, stored', net', r.insts[r.primary].executed, i) <==>
              Listed(s, stored, net, Drained(seen), i)
  {
    hide ErrantAgainst, Replicates;
    NextErrant(s, r, stored, stored', seen, i);
  }

  lemma PrimaryNotListed(s: State, stored: seq<nat>, net: Net, seen: Picture, errants: seq<nat>)
    requires Lists(errants, s, stored, net) && s.primary < |seen.status| == |s.insts|
    requires seen.status[s.primary] == StatusOf(s, stored, net, s.primary)
    ensures !IsErrantReplica(seen, errants, s.primary)
  {
  }

  lemma StatusFlag(s: State, stored: seq<nat>, net: Net, i: nat)
    requires i < |s.insts| && s.primary < |s.insts| && StatusOf(s, stored, net, i).Some?
    ensures StatusOf(s, stored, net, i).value.isErrant <==> ErrantIn(s, stored, i)
  {
  }
}
