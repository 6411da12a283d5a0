/** Role labels: removed before a role changes, added only after connections under the old role are gone. */
module Labels {
  import opened Replication
  import opened Runs
  import opened Status
  import opened World
  import opened Statements

  predicate IsErrantReplica(seen: Picture, errants: seq<nat>, i: nat) {
    (i < |seen.status| && seen.status[i].Some? && seen.status[i].value.isErrant) || i in errants
  }

  /** The role that Pod i should bear. */
  function ProperRole(seen: Picture, i: nat): Role {
    if i == seen.primary then RolePrimary else RoleReplica
  }

  /** removeRoleLabel leaves the label alone. */
  predicate KeepsLabel(seen: Picture, errants: seq<nat>, i: nat)
    requires i < |seen.pods|
  {
    || (i == seen.primary && seen.pods[i].role == RolePrimary)
    || (i != seen.primary && !IsErrantReplica(seen, errants, i) && seen.pods[i].role == RoleReplica)
  }

  /** Which labels are kept, in the fields of the picture and the errant list. */
  lemma KeptByFields(seen: Picture, errants: seq<nat>, i: nat)
    requires i < |seen.pods| == |seen.status|
    ensures KeepsLabel(seen, errants, i) <==>
              if i == seen.primary then seen.pods[i].role == RolePrimary
              else && seen.pods[i].role == RoleReplica && i !in errants
                   && (seen.status[i].Some? ==> !seen.status[i].value.isErrant)
  {
  }

  /** The labels of the first n Pods are settled: the Pods in noRoles bear none, the others what was seen. */
  ghost predicate RolesKnown(m: Moment, seen: Picture, noRoles: seq<nat>) {
    && |m.pods| == |m.conns| == |seen.pods|
    && forall k: nat :: k < |m.pods| ==>
         if k in noRoles then m.pods[k].role == Unset
         else m.pods[k].role == seen.pods[k].role || (m.pods[k].role == Unset && k in m.recreated)
  }

  lemma RolesKept(a: Moment, b: Moment, seen: Picture, noRoles: seq<nat>)
    requires PodsKept(a, b) && RolesKnown(a, seen, noRoles)
    ensures RolesKnown(b, seen, noRoles)
  {
    forall k: nat | k < |b.pods|
      ensures if k in noRoles then b.pods[k].role == Unset
              else b.pods[k].role == seen.pods[k].role || (b.pods[k].role == Unset && k in b.recreated)
    {
      assert PodKept(a, b, k);
    }
  }

  lemma DataKeptTransitive(a: Moment, b: Moment, c: Moment)
    requires DataKept(a, b) && DataKept(b, c)
    ensures DataKept(a, c)
  {
    hide Keeps, SemiReady;
    KeepsTransitive(a.s, b.s, c.s);
  }

  lemma SamePodsDataKept(a: Moment, b: Moment)
    requires b == a.(pods := b.pods, conns := b.conns)
    ensures DataKept(a, b)
  {
    KeepsReflexive(a.s);
  }

  method RemoveLabel(w: World, i: nat, ghost seen: Picture, ghost noRoles: seq<nat>) returns (ok: bool)
    requires w.Valid() && i < |w.pods| && RolesKnown(w.Now(), seen, noRoles)
    modifies w
    ensures old(w.faults) <= w.faults && (!ok ==> old(w.faults) < w.faults)
    ensures w.Valid() && DataKept(old(w.Now()), w.Now())
    ensures RolesKnown(w.Now(), seen, noRoles) || RolesKnown(w.Now(), seen, noRoles + [i])
    ensures ok ==> RolesKnown(w.Now(), seen, noRoles + [i])
    ensures w.sent == old(w.sent)
  {
    hide Inv, Legal, Replay, ErrantsOk, Keeps, SemiReady;
    ghost var a := w.Now();
    w.Interfere();
    ghost var b := w.Now();
    RolesKept(a, b, seen, noRoles);
    ok := w.Answered();
    if !ok {
      return;
    }
    w.pods := w.pods[i := w.pods[i].(role := Unset)];
    w.history := w.history + [PodView(w.pods, w.conns)];
    SamePodsDataKept(b, w.Now());
    DataKeptTransitive(a, b, w.Now());
    ok := w.Answered();
  }

  /** noRoles lists, in order, those of the first n Pods whose label must not be kept. */
  ghost predicate Unlabelled(seen: Picture, errants: seq<nat>, noRoles: seq<nat>, n: nat) {
    && n <= |seen.pods|
    && (forall k: nat :: k in noRoles <==> k < n && !KeepsLabel(seen, errants, k))
    && (forall j, k :: 0 <= j < k < |noRoles| ==> noRoles[j] < noRoles[k])
  }

  method RemoveRoleLabels(w: World, ss: StatusSet) returns (ok: bool, noRoles: seq<nat>)
    requires w.Valid() && RolesKnown(w.Now(), ss.seen, [])
    modifies w
    ensures old(w.faults) <= w.faults && (!ok ==> old(w.faults) < w.faults)
    ensures w.Valid() && DataKept(old(w.Now()), w.Now())
    ensures ok ==> Unlabelled(ss.seen, ss.errants, noRoles, |ss.seen.pods|) && RolesKnown(w.Now(), ss.seen, noRoles)
    // the Pods listed are exactly those that do not bear the role of their instance, and the errant replicas
    ensures ok && |ss.seen.pods| == |ss.seen.status| ==>
              forall k: nat :: k in noRoles <==>
                k < |ss.seen.pods| &&
                if k == ss.seen.primary then ss.seen.pods[k].role != RolePrimary
                else || ss.seen.pods[k].role != RoleReplica || k in ss.errants
                     || (ss.seen.status[k].Some? && ss.seen.status[k].value.isErrant)
    ensures w.sent == old(w.sent)
  {
    hide Inv, Legal, Replay, LabelsOk, ConnectionsOk, ErrantsOk, Keeps, DataKept, KeepsLabel;
    SamePodsDataKept(w.Now(), w.Now());
    noRoles := [];
    for i := 0 to |ss.seen.pods|
      invariant w.Valid() && DataKept(old(w.Now()), w.Now()) && |w.pods| == |ss.seen.pods|
      invariant w.sent == old(w.sent) && old(w.faults) <= w.faults
      invariant Unlabelled(ss.seen, ss.errants, noRoles, i) && RolesKnown(w.Now(), ss.seen, noRoles)
    {
      OneMoreUnlabelled(ss.seen, ss.errants, noRoles, i);
      if KeepsLabel(ss.seen, ss.errants, i) {
        continue;
      }
      if ss.seen.pods[i].role != Unset {
        ghost var before := w.Now();
        ok := RemoveLabel(w, i, ss.seen, noRoles);
        DataKeptTransitive(old(w.Now()), before, w.Now());
        if !ok {
          return;
        }
      } else {
        StillUnlabelled(w.Now(), ss.seen, noRoles, i);
      }
      noRoles := noRoles + [i];
    }
    ok := true;
    if |ss.seen.pods| == |ss.seen.status| {
      forall k: nat | k < |ss.seen.pods|
        ensures KeepsLabel(ss.seen, ss.errants, k) <==>
                  if k == ss.seen.primary then ss.seen.pods[k].role == RolePrimary
                  else && ss.seen.pods[k].role == RoleReplica && k !in ss.errants
                       && (ss.seen.status[k].Some? ==> !ss.seen.status[k].value.isErrant)
      {
        KeptByFields(ss.seen, ss.errants, k);
      }
    }
  }

  lemma OneMoreUnlabelled(seen: Picture, errants: seq<nat>, noRoles: seq<nat>, i: nat)
    requires Unlabelled(seen, errants, noRoles, i) && i < |seen.pods|
    ensures Unlabelled(seen, errants, if KeepsLabel(seen, errants, i) then noRoles else noRoles + [i], i + 1)
  {
    hide KeepsLabel;
    assert forall j :: 0 <= j < |noRoles| ==> noRoles[j] in noRoles;
  }

  lemma StillUnlabelled(m: Moment, seen: Picture, noRoles: seq<nat>, i: nat)
    requires RolesKnown(m, seen, noRoles) && i < |seen.pods| && seen.pods[i].role == Unset
    ensures RolesKnown(m, seen, noRoles + [i])
  {
  }

  // ----- connections -----

  /** The first n Pods of alive bear no label and have no clients. */
  ghost predicate Cleared(m: Moment, alive: seq<nat>, n: nat) {
    && n <= |alive| && |m.pods| == |m.conns|
    && forall j :: 0 <= j < n ==> alive[j] < |m.pods| && m.pods[alive[j]].role == Unset && m.conns[alive[j]] == {}
  }

  lemma ClearedKept(a: Moment, b: Moment, alive: seq<nat>, n: nat)
    requires PodsKept(a, b) && Cleared(a, alive, n)
    ensures Cleared(b, alive, n)
  {
    forall j | 0 <= j < n ensures alive[j] < |b.pods| && b.pods[alive[j]].role == Unset && b.conns[alive[j]] == {} {
      assert PodKept(a, b, alive[j]);
    }
  }

  method KillAll(w: World, alive: seq<nat>, ghost seen: Picture, ghost noRoles: seq<nat>) returns (ok: bool)
    requires w.Valid() && RolesKnown(w.Now(), seen, noRoles)
    requires forall j :: 0 <= j < |alive| ==> alive[j] in noRoles && alive[j] < |w.pods|
    modifies w
    ensures old(w.faults) <= w.faults && (!ok ==> old(w.faults) < w.faults)
    ensures w.Valid() && Undisturbed(old(w.Now()), w.Now())
    ensures RolesKnown(w.Now(), seen, noRoles)
    ensures ok ==> Cleared(w.Now(), alive, |alive|)
    ensures w.sent == old(w.sent)
  {
    hide Inv, Legal, Replay, LabelsOk, ConnectionsOk, ErrantsOk, Keeps, PodsKept, SemiReady;
    UndisturbedReflexive(w.Now());
    for j := 0 to |alive|
      invariant w.Valid() && Undisturbed(old(w.Now()), w.Now()) && |w.pods| == old(|w.pods|)
      invariant RolesKnown(w.Now(), seen, noRoles)
      invariant Cleared(w.Now(), alive, j) && w.sent == old(w.sent) && old(w.faults) <= w.faults
    {
      ghost var before := w.Now();
      ok := KillConnections(w, alive[j]);
      UndisturbedTransitive(old(w.Now()), before, w.Now());
      RolesKept(before, w.Now(), seen, noRoles);
      if !ok {
        return;
      }
      ClearedKept(before, w.Now(), alive, j);
    }
    ok := true;
  }

  // ----- adding -----

  /** What addRoleLabel has reached after n of the Pods in alive. */
  ghost predicate Labelling(m: Moment, seen: Picture, noRoles: seq<nat>, alive: seq<nat>, n: nat) {
    && |m.pods| == |m.conns| == |seen.pods| && n <= |alive|
    && (forall j :: 0 <= j < |alive| ==> alive[j] < |m.pods|)
    && (forall k: nat :: k < |m.pods| && k != seen.primary ==> m.pods[k].role != RolePrimary)
    && (forall k: nat :: k < |m.pods| ==>
          if k in alive[..n] then m.pods[k].role == ProperRole(seen, k) || (m.pods[k].role == Unset && k in m.recreated)
          else if k in noRoles then m.pods[k].role == Unset
          else m.pods[k].role == seen.pods[k].role || (m.pods[k].role == Unset && k in m.recreated))
    && (forall j :: n <= j < |alive| ==> m.pods[alive[j]].role == Unset && m.conns[alive[j]] == {})
  }

  lemma LabellingKept(a: Moment, b: Moment, seen: Picture, noRoles: seq<nat>, alive: seq<nat>, n: nat)
    requires PodsKept(a, b) && Labelling(a, seen, noRoles, alive, n)
    ensures Labelling(b, seen, noRoles, alive, n)
  {
    forall k: nat | k < |a.pods|
      ensures b.pods[k].role == a.pods[k].role || (b.pods[k].role == Unset && k in b.recreated)
      ensures a.pods[k].role == Unset ==> b.conns[k] <= a.conns[k]
      ensures k in a.recreated ==> k in b.recreated
    {
      assert PodKept(a, b, k);
    }
    forall j | n <= j < |alive| ensures b.pods[alive[j]].role == Unset && b.conns[alive[j]] == {} {
      assert PodKept(a, b, alive[j]);
    }
  }

  lemma LabellingStarts(m: Moment, seen: Picture, errants: seq<nat>, noRoles: seq<nat>, alive: seq<nat>)
    requires RolesKnown(m, seen, noRoles) && Unlabelled(seen, errants, noRoles, |seen.pods|)
    requires Cleared(m, alive, |alive|)
    ensures Labelling(m, seen, noRoles, alive, 0)
  {
  }

  method AddLabel(w: World, i: nat, role: Role) returns (ok: bool)
    requires w.Valid() && i < |w.pods| && w.pods[i].role == Unset && w.conns[i] == {} && role != Unset
    requires role == RolePrimary ==> forall k: nat :: k < |w.pods| && k != i ==> w.pods[k].role != RolePrimary
    modifies w`pods, w`history, w`faults
    ensures old(w.faults) <= w.faults && (!ok ==> old(w.faults) < w.faults)
    ensures w.Valid() && DataKept(old(w.Now()), w.Now())
    ensures w.pods == old(w.pods) || w.pods == old(w.pods)[i := old(w.pods)[i].(role := role)]
    ensures ok ==> w.pods == old(w.pods)[i := old(w.pods)[i].(role := role)]
  {
    hide Inv, Legal, Replay, ErrantsOk, Keeps, SemiReady;
    SamePodsDataKept(w.Now(), w.Now());
    ok := w.Answered();
    if !ok {
      return;
    }
    w.pods := w.pods[i := w.pods[i].(role := role)];
    w.history := w.history + [PodView(w.pods, w.conns)];
    SamePodsDataKept(old(w.Now()), w.Now());
    ok := w.Answered();
  }

  method AddRoleLabels(w: World, ss: StatusSet, alive: seq<nat>, ghost noRoles: seq<nat>) returns (ok: bool)
    requires w.Valid() && Labelling(w.Now(), ss.seen, noRoles, alive, 0)
    requires forall j, k :: 0 <= j < k < |alive| ==> alive[j] != alive[k]
    modifies w
    ensures old(w.faults) <= w.faults && (!ok ==> old(w.faults) < w.faults)
    ensures w.Valid() && DataKept(old(w.Now()), w.Now())
    ensures ok ==> Labelling(w.Now(), ss.seen, noRoles, alive, |alive|)
    ensures exists j: nat :: Labelling(w.Now(), ss.seen, noRoles, alive, j)
    ensures ok ==> forall j :: 0 <= j < |alive| ==>
              && alive[j] < |w.pods|
              && (|| w.pods[alive[j]].role == (if alive[j] == ss.seen.primary then RolePrimary else RoleReplica)
                  || (w.pods[alive[j]].role == Unset && alive[j] in w.recreated))
    ensures w.sent == old(w.sent)
  {
    hide Inv, Legal, Replay, LabelsOk, ConnectionsOk, ErrantsOk, Keeps, DataKept, Labelling, PodsKept;
    SamePodsDataKept(w.Now(), w.Now());
    for j := 0 to |alive|
      invariant w.Valid() && DataKept(old(w.Now()), w.Now())
      invariant Labelling(w.Now(), ss.seen, noRoles, alive, j) && w.sent == old(w.sent) && old(w.faults) <= w.faults
    {
      ghost var before := w.Now();
      w.Interfere();
      ghost var middle := w.Now();
      LabellingKept(before, middle, ss.seen, noRoles, alive, j);
      DataKeptTransitive(old(w.Now()), before, middle);
      NextLabel(middle, ss.seen, noRoles, alive, j);
      ok := AddLabel(w, alive[j], ProperRole(ss.seen, alive[j]));
      DataKeptTransitive(old(w.Now()), middle, w.Now());
      if w.pods == middle.pods {
        SameLabelling(middle, w.Now(), ss.seen, noRoles, alive, j);
      }
      if !ok {
        if w.pods != middle.pods {
          OneMoreLabel(middle, w.Now(), ss.seen, noRoles, alive, j);
        }
        return;
      }
      OneMoreLabel(middle, w.Now(), ss.seen, noRoles, alive, j);
    }
    ok := true;
    AllAdded(w.Now(), ss.seen, noRoles, alive);
  }

  lemma SameLabelling(a: Moment, b: Moment, seen: Picture, noRoles: seq<nat>, alive: seq<nat>, j: nat)
    requires Labelling(a, seen, noRoles, alive, j)
    requires b.pods == a.pods && b.conns == a.conns && b.recreated == a.recreated
    ensures Labelling(b, seen, noRoles, alive, j)
  {
  }

  lemma AllAdded(m: Moment, seen: Picture, noRoles: seq<nat>, alive: seq<nat>)
    requires Labelling(m, seen, noRoles, alive, |alive|)
    ensures forall j :: 0 <= j < |alive| ==>
              && alive[j] < |m.pods|
              && (|| m.pods[alive[j]].role == (if alive[j] == seen.primary then RolePrimary else RoleReplica)
                  || (m.pods[alive[j]].role == Unset && alive[j] in m.recreated))
  {
    assert alive[..|alive|] == alive;
    assert forall j :: 0 <= j < |alive| ==> alive[j] in alive;
  }

  lemma NextLabel(m: Moment, seen: Picture, noRoles: seq<nat>, alive: seq<nat>, j: nat)
    requires Labelling(m, seen, noRoles, alive, j) && j < |alive|
    ensures alive[j] < |m.pods| == |m.conns| && m.pods[alive[j]].role == Unset && m.conns[alive[j]] == {}
    ensures ProperRole(seen, alive[j]) == RolePrimary ==>
              forall k: nat :: k < |m.pods| && k != alive[j] ==> m.pods[k].role != RolePrimary
  {
  }

  lemma OneMoreLabel(a: Moment, b: Moment, seen: Picture, noRoles: seq<nat>, alive: seq<nat>, j: nat)
    requires Labelling(a, seen, noRoles, alive, j) && j < |alive|
    requires forall x, y :: 0 <= x < y < |alive| ==> alive[x] != alive[y]
    requires b.conns == a.conns && b.recreated == a.recreated
    requires b.pods == a.pods[alive[j] := a.pods[alive[j]].(role := ProperRole(seen, alive[j]))]
    ensures Labelling(b, seen, noRoles, alive, j + 1)
  {
    assert alive[..j + 1] == alive[..j] + [alive[j]];
  }

  /** After a successful configure: no Pod bears a wrong role, errant Pods none, reachable others exactly their own. */
  ghost predicate Labelled(m: Moment, seen: Picture, errants: seq<nat>) {
    && |m.pods| == |seen.pods| == |seen.status|
    && forall k: nat :: k < |m.pods| ==>
         && (m.pods[k].role == Unset || m.pods[k].role == if k == seen.primary then RolePrimary else RoleReplica)
         && (IsErrantReplica(seen, errants, k) && k != seen.primary ==> m.pods[k].role == Unset)
         && (!IsErrantReplica(seen, errants, k) && seen.status[k].Some? ==>
               || m.pods[k].role == (if k == seen.primary then RolePrimary else RoleReplica)
               || (m.pods[k].role == Unset && k in m.recreated))
  }

  /** The same for each Pod, in the fields of the picture and the errant list. */
  ghost predicate RolesInPlace(m: Moment, seen: Picture, errants: seq<nat>) {
    && |m.pods| == |seen.status|
    && forall k: nat :: k < |m.pods| ==>
         && (k == seen.primary && seen.status[k].Some? && !seen.status[k].value.isErrant && k !in errants ==>
               m.pods[k].role == RolePrimary || (m.pods[k].role == Unset && k in m.recreated))
         && (k != seen.primary && seen.status[k].Some? && !seen.status[k].value.isErrant && k !in errants ==>
               m.pods[k].role == RoleReplica || (m.pods[k].role == Unset && k in m.recreated))
         && (k != seen.primary && (k in errants || (seen.status[k].Some? && seen.status[k].value.isErrant)) ==>
               m.pods[k].role == Unset)
         && (k != seen.primary ==> m.pods[k].role != RolePrimary)
  }

  /** No Pod bears a role other than its own, and no errant replica any. */
  ghost predicate NoWrongRole(m: Moment, seen: Picture, errants: seq<nat>) {
    && |m.pods| == |seen.status|
    && forall k: nat :: k < |m.pods| ==>
         && (m.pods[k].role == Unset || m.pods[k].role == if k == seen.primary then RolePrimary else RoleReplica)
         && (k != seen.primary && (k in errants || (seen.status[k].Some? && seen.status[k].value.isErrant)) ==>
               m.pods[k].role == Unset)
  }

  /** Once wrong labels are removed there are none. */
  lemma WrongRolesGone(m: Moment, seen: Picture, errants: seq<nat>, noRoles: seq<nat>)
    requires RolesKnown(m, seen, noRoles) && Unlabelled(seen, errants, noRoles, |seen.pods|)
    requires |seen.pods| == |seen.status|
    ensures NoWrongRole(m, seen, errants)
  {
  }

  /** While labels are added there are none either. */
  lemma NoneWhileLabelling(m: Moment, seen: Picture, errants: seq<nat>, noRoles: seq<nat>, alive: seq<nat>, n: nat)
    requires Labelling(m, seen, noRoles, alive, n) && |seen.pods| == |seen.status|
    requires Unlabelled(seen, errants, noRoles, |seen.pods|)
    requires forall k: nat :: k in alive <==>
               k in noRoles && k < |seen.status| && seen.status[k].Some? && !IsErrantReplica(seen, errants, k)
    ensures NoWrongRole(m, seen, errants)
  {
    forall k: nat | k in alive[..n] ensures k in alive {
      var j :| 0 <= j < n && alive[j] == k;
    }
  }

  lemma LabelledRoles(m: Moment, seen: Picture, errants: seq<nat>)
    requires Labelled(m, seen, errants)
    ensures RolesInPlace(m, seen, errants)
  {
  }

  lemma AllLabelled(m: Moment, seen: Picture, errants: seq<nat>, noRoles: seq<nat>, alive: seq<nat>)
    requires Labelling(m, seen, noRoles, alive, |alive|) && |seen.pods| == |seen.status|
    requires Unlabelled(seen, errants, noRoles, |seen.pods|)
    requires forall k: nat :: k in alive <==> k in noRoles && seen.status[k].Some? && !IsErrantReplica(seen, errants, k)
    ensures Labelled(m, seen, errants)
  {
    assert alive[..|alive|] == alive;
  }

  /** A configure would remove the label of Pod k, or kill its connections and add one. */
  predicate LabelWork(seen: Picture, errants: seq<nat>, k: nat)
    requires k < |seen.pods| == |seen.status|
  {
    && !KeepsLabel(seen, errants, k)
    && (seen.pods[k].role != Unset || (seen.status[k].Some? && !IsErrantReplica(seen, errants, k)))
  }

  /**
   Seen again, Pods so labelled need no label work exactly if no reachable replica has become errant or ceased to be,
   and no unreachable one that bears a label has become errant.
   */
  lemma LabelsFixedPoint(m: Moment, seen: Picture, errants: seq<nat>, after: Picture, errants': seq<nat>)
    requires Labelled(m, seen, errants) && (forall k: nat :: k < |m.pods| ==> k !in m.recreated)
    requires after.primary == seen.primary < |m.pods| && after.pods == m.pods && |after.status| == |m.pods|
    requires forall k: nat :: k < |m.pods| ==> (after.status[k].Some? <==> seen.status[k].Some?)
    requires seen.status[seen.primary].Some? && !IsErrantReplica(seen, errants, seen.primary)
    ensures (forall k: nat :: k < |m.pods| ==> !LabelWork(after, errants', k)) <==>
            forall k: nat :: k < |m.pods| && k != seen.primary ==>
              if seen.status[k].Some? then IsErrantReplica(after, errants', k) <==> IsErrantReplica(seen, errants, k)
              else IsErrantReplica(after, errants', k) ==> m.pods[k].role == Unset
  {
    hide IsErrantReplica;
    forall k: nat | k < |m.pods|
      ensures !LabelWork(after, errants', k) <==>
                (k != seen.primary ==>
                   if seen.status[k].Some? then IsErrantReplica(after, errants', k) <==>
                        IsErrantReplica(seen, errants, k)
                   else IsErrantReplica(after, errants', k) ==> m.pods[k].role == Unset)
    {
    }
  }
}
