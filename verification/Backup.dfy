/** Choosing the Pod to take a backup from. */
module Backup {
  import opened Basics
  import opened Decimal

  /** What asking a Pod for its server_uuid gives. */
  datatype Reply = NoOperator | NoStatus | Uuid(uuid: string)

  datatype LastBackup = LastBackup(never: bool, sourceIndex: nat, sourceUUID: string, uuidSet: map<string, string>)

  datatype Choice = Chosen(index: int, binlog: bool) | NoReadyPod

  /** Pod i is ready and told its UUID. */
  predicate Told(ready: seq<bool>, replies: seq<Reply>, i: int) {
    0 <= i < |ready| == |replies| && ready[i] && replies[i].Uuid?
  }

  /** uuids is what GetUUIDSet gathers from the first n Pods. */
  ghost predicate Gathered(ready: seq<bool>, replies: seq<Reply>, n: nat, uuids: map<string, string>) {
    && (forall i: nat :: i < n && Told(ready, replies, i) ==> Digits(i) in uuids && uuids[Digits(i)] == replies[i].uuid)
    && forall k :: k in uuids ==> exists i: nat :: i < n && k == Digits(i) && Told(ready, replies, i)
  }

  /** None: a connection could not even be set up. */
  method GetUUIDSet(ready: seq<bool>, replies: seq<Reply>) returns (r: Option<map<string, string>>)
    requires |ready| == |replies|
    ensures r.None? <==> exists i :: 0 <= i < |ready| && ready[i] && replies[i].NoOperator?
    ensures r.Some? ==> Gathered(ready, replies, |ready|, r.value)
  {
    var uuids := map[];
    for i := 0 to |ready|
      invariant forall j :: 0 <= j < i ==> !(ready[j] && replies[j].NoOperator?)
      invariant Gathered(ready, replies, i, uuids)
    {
      if ready[i] {
        match replies[i]
        case NoOperator => return None;
        case NoStatus =>
        case Uuid(u) =>
          forall j: nat | j < i ensures Digits(j) != Digits(i) {
            AtoiDigits(j);
            AtoiDigits(i);
          }
          uuids := uuids[Digits(i) := u];
      }
    }
    return Some(uuids);
  }

  // ----- the indices with an unchanged UUID -----

  predicate SameIn(current: map<string, string>, last: map<string, string>, key: string) {
    key in current && key in last && current[key] == last[key] && Atoi(key).Some?
  }

  ghost function Unchanged(current: map<string, string>, last: map<string, string>): set<int> {
    set key | key in current && SameIn(current, last, key) :: Atoi(key).value
  }

  predicate Ascending(s: seq<int>) { forall i, j :: 0 <= i < j < |s| ==> s[i] <= s[j] }

  lemma HeadIsLeast(x: int, s: seq<int>, rest: seq<int>)
    requires s != [] && Ascending(s) && s[0] <= x && forall y :: y in rest ==> y == x || y in s[1..]
    ensures forall k :: 0 <= k < |rest| ==> s[0] <= rest[k]
    ensures forall y :: y in s <==> y == s[0] || y in s[1..]
  {
    forall k | 0 <= k < |rest| ensures s[0] <= rest[k] {
      assert rest[k] in rest;
      if rest[k] != x {
        var j :| 0 <= j < |s[1..]| && s[1..][j] == rest[k];
        assert s[j + 1] == rest[k];
      }
    }
    assert s == [s[0]] + s[1..];
  }

  function InsertInt(x: int, s: seq<int>): (r: seq<int>)
    requires Ascending(s)
    ensures Ascending(r) && forall y :: y in r <==> y == x || y in s
  {
    if s == [] || x <= s[0] then [x] + s
    else
      var rest := InsertInt(x, s[1..]);
      HeadIsLeast(x, s, rest);
      [s[0]] + rest
  }

  function SortInts(s: seq<int>): (r: seq<int>)
    ensures Ascending(r) && forall y :: y in r <==> y in s
  {
    if s == [] then []
    else
      InsertInt(s[0], SortInts(s[1..]))
  }

  /** Whatever order the map is gone through in, the same indices come out, in ascending order. */
  method GetIdxsWithUnchangedUUID(current: map<string, string>, last: map<string, string>) returns (idxs: seq<int>)
    ensures Ascending(idxs)
    ensures forall i :: i in idxs <==> i in Unchanged(current, last)
  {
    var found: seq<int> := [];
    var rest := current.Keys;
    while rest != {}
      invariant rest <= current.Keys
      invariant forall i :: i in found <==>
                  exists key :: key in current && key !in rest && SameIn(current, last, key) && Atoi(key).value == i
      decreases |rest|
    {
      var key :| key in rest;
      ghost var was, before := found, rest;
      rest := rest - {key};
      if key in last && current[key] == last[key] {
        var i := Atoi(key);
        if i.Some? {
          found := found + [i.value];
          assert SameIn(current, last, key);
        }
      }
      forall i ensures i in found <==>
        exists k :: k in current && k !in rest && SameIn(current, last, k) && Atoi(k).value == i {
        if i in was {
          var k :| k in current && k !in before && SameIn(current, last, k) && Atoi(k).value == i;
          assert k !in rest;
        }
      }
    }
    idxs := SortInts(found);
  }

  // ----- the choice -----

  /** The recorded UUIDs; a record without a set stands for its source alone. */
  function Recorded(last: LastBackup): map<string, string> {
    if |last.uuidSet| == 0 then map[Digits(last.sourceIndex) := last.sourceUUID] else last.uuidSet
  }

  ghost predicate LeastReadyReplica(ready: seq<bool>, primary: nat, i: int) {
    && 0 <= i < |ready| && i != primary && ready[i]
    && forall j :: 0 <= j < i && j != primary ==> !ready[j]
  }

  /** Without binlogs: the first ready replica, else the primary if it is ready. */
  ghost predicate AnyReady(ready: seq<bool>, primary: nat, c: Choice)
    requires primary < |ready|
  {
    if exists i :: LeastReadyReplica(ready, primary, i) then
      c.Chosen? && !c.binlog && LeastReadyReplica(ready, primary, c.index)
    else if ready[primary] then c == Chosen(primary, false)
    else c == NoReadyPod
  }

  /** With binlogs: the last source if it is an eligible replica, else the least eligible replica, else the primary. */
  ghost predicate Preferred(eligible: set<int>, primary: int, lastIndex: int, c: Choice) {
    && c.Chosen? && c.binlog
    && (if lastIndex in eligible && lastIndex != primary then c.index == lastIndex
        else if exists i :: i in eligible && i != primary then
          c.index in eligible && c.index != primary && forall i :: i in eligible && i != primary ==> c.index <= i
        else c.index == primary)
  }

  ghost predicate RightChoice(ready: seq<bool>, primary: nat, last: LastBackup, uuids: map<string, string>, c: Choice)
    requires primary < |ready|
  {
    var eligible := Unchanged(uuids, Recorded(last));
    if last.never || eligible == {} then AnyReady(ready, primary, c)
    else Preferred(eligible, primary, last.sourceIndex, c)
  }

  /** There is one right choice, so the order of map iteration does not matter. */
  lemma OneRightChoice(ready: seq<bool>, primary: nat, last: LastBackup, uuids: map<string, string>, c: Choice,
                       d: Choice)
    requires primary < |ready| && RightChoice(ready, primary, last, uuids, c)
    requires RightChoice(ready, primary, last, uuids, d)
    ensures c == d
  {
    var eligible := Unchanged(uuids, Recorded(last));
    if last.never || eligible == {} {
      if i :| LeastReadyReplica(ready, primary, i) {
        assert LeastReadyReplica(ready, primary, c.index) && LeastReadyReplica(ready, primary, d.index);
      }
    }
  }

  /** An eligible index is a ready Pod whose UUID is the one recorded for it. */
  lemma EligibleIsReady(ready: seq<bool>, replies: seq<Reply>, uuids: map<string, string>, last: map<string, string>,
                        i: int)
    requires |ready| == |replies| && Gathered(ready, replies, |ready|, uuids) && i in Unchanged(uuids, last)
    ensures Told(ready, replies, i) && Digits(i) in last && last[Digits(i)] == replies[i].uuid
  {
    var key :| key in uuids && SameIn(uuids, last, key) && Atoi(key).value == i;
    var j: nat :| j < |ready| && key == Digits(j) && Told(ready, replies, j);
    AtoiDigits(j);
  }

  /**
   The right choice is a ready Pod, with binlogs only if its UUID is the one of the last backup; the primary only if
   no other will do.
   */
  lemma RightChoiceIsReady(ready: seq<bool>, replies: seq<Reply>, primary: nat, last: LastBackup, uuids: map<string,
                           string>, c: Choice)
    requires |ready| == |replies| && Gathered(ready, replies, |ready|, uuids) && primary < |ready|
    requires RightChoice(ready, primary, last, uuids, c)
    ensures c.Chosen? ==> 0 <= c.index < |ready| && ready[c.index]
    ensures c.Chosen? && c.binlog ==>
              && !last.never && replies[c.index].Uuid?
              && Digits(c.index) in Recorded(last) && Recorded(last)[Digits(c.index)] == replies[c.index].uuid
    ensures c == NoReadyPod ==> forall i :: 0 <= i < |ready| ==> !ready[i]
    ensures c == Chosen(primary, false) ==> forall i :: 0 <= i < |ready| && i != primary ==> !ready[i]
    ensures c == Chosen(primary, true) ==> forall i :: i in Unchanged(uuids, Recorded(last)) ==> i == primary
  {
    var eligible := Unchanged(uuids, Recorded(last));
    if last.never || eligible == {} {
      if i :| 0 <= i < |ready| && i != primary && ready[i] {
        var k := FirstReady(ready, primary, i);
      }
    } else {
      var i :| i in eligible;
      assert c.index in eligible;
      EligibleIsReady(ready, replies, uuids, Recorded(last), c.index);
    }
  }

  /**
   With the UUIDs of the last backup: the source of that backup is taken again, with binlogs, if it is a replica that is
   ready and has kept its UUID.  A record without a set of UUIDs knows that of its source.  Otherwise no replica before
   the chosen one has kept its UUID.
   */
  lemma SourceAgain(ready: seq<bool>, replies: seq<Reply>, primary: nat, last: LastBackup, uuids: map<string,
                    string>, c: Choice)
    requires |ready| == |replies| && Gathered(ready, replies, |ready|, uuids) && primary < |ready|
    requires RightChoice(ready, primary, last, uuids, c) && !last.never
    ensures last.sourceIndex != primary && last.sourceIndex < |ready| && ready[last.sourceIndex]
            && (if |last.uuidSet| == 0 then replies[last.sourceIndex] == Uuid(last.sourceUUID)
                else && Digits(last.sourceIndex) in last.uuidSet
                     && replies[last.sourceIndex] == Uuid(last.uuidSet[Digits(last.sourceIndex)])) ==>
              c == Chosen(last.sourceIndex, true)
    ensures c.Chosen? && c.binlog && c.index != last.sourceIndex && |last.uuidSet| > 0 ==>
              forall i: nat :: i < |ready| && i != primary && ready[i] && (c.index == primary || i < c.index) ==>
                Digits(i) !in last.uuidSet || replies[i] != Uuid(last.uuidSet[Digits(i)])
  {
    hide AnyReady;
    forall i: nat |
      i < |ready| && ready[i] && Digits(i) in Recorded(last) && replies[i] == Uuid(Recorded(last)[Digits(i)])
      ensures i in Unchanged(uuids, Recorded(last))
    {
      assert Told(ready, replies, i);
      AtoiDigits(i);
      assert SameIn(uuids, Recorded(last), Digits(i));
    }
  }

  lemma FirstReady(ready: seq<bool>, primary: nat, i: int) returns (k: int)
    requires 0 <= i < |ready| && i != primary && ready[i]
    ensures LeastReadyReplica(ready, primary, k)
    decreases i
  {
    if j :| 0 <= j < i && j != primary && ready[j] {
      k := FirstReady(ready, primary, j);
    } else {
      k := i;
    }
  }

  class BackupManager {
    const primary: nat           // the cluster's CurrentPrimaryIndex
    const last: LastBackup
    var uuidSet: map<string, string>
    var warnings: seq<string>

    constructor (primary: nat, last: LastBackup, uuidSet: map<string, string>)
      ensures this.primary == primary && this.last == last && this.uuidSet == uuidSet && warnings == []
    {
      this.primary, this.last, this.uuidSet, warnings := primary, last, uuidSet, [];
    }

    method ChooseAnyReady(ready: seq<bool>) returns (c: Choice)
      requires primary < |ready|
      ensures AnyReady(ready, primary, c)
    {
      for i := 0 to |ready|
        invariant forall j :: 0 <= j < i && j != primary ==> !ready[j]
      {
        if i != primary && ready[i] {
          assert LeastReadyReplica(ready, primary, i);
          return Chosen(i, false);
        }
      }
      return if ready[primary] then Chosen(primary, false) else NoReadyPod;
    }

    /** The loop over the sorted eligible indices. */
    method ChoosePreferred(idxs: seq<int>) returns (c: Choice)
      requires Ascending(idxs)
      ensures Preferred((set i | i in idxs), primary, last.sourceIndex, c)
    {
      var replicas: seq<int> := [];
      for k := 0 to |idxs|
        invariant forall j :: 0 <= j < k && idxs[j] == last.sourceIndex ==> idxs[j] == primary
        invariant forall j :: 0 <= j < k && idxs[j] != primary ==> replicas != [] && replicas[0] <= idxs[j]
        invariant replicas != [] ==> replicas[0] in idxs[..k] && replicas[0] != primary
      {
        var i := idxs[k];
        if i != primary {
          if i == last.sourceIndex {
            return Chosen(i, true);
          }
          replicas := replicas + [i];
        }
      }
      ghost var eligible := set i | i in idxs;
      assert replicas != [] ==> replicas[0] in eligible;
      assert forall i :: i in eligible ==> i in idxs;
      return Chosen(if replicas != [] then replicas[0] else primary, true);
    }

    /** The choice, and a warning exactly if binlogs are skipped although there was a backup before. */
    method ChoosePod(ready: seq<bool>) returns (c: Choice)
      requires primary < |ready|
      modifies this`warnings
      ensures RightChoice(ready, primary, last, uuidSet, c)
      ensures |warnings| == |old(warnings)| + (if !last.never && Unchanged(uuidSet, Recorded(last)) == {} then 1 else 0)
      ensures old(warnings) <= warnings
    {
      hide Preferred, AnyReady, Unchanged;
      if last.never {
        c := ChooseAnyReady(ready);
        return;
      }
      var choosable: seq<int>;
      if |last.uuidSet| == 0 {
        choosable := GetIdxsWithUnchangedUUID(uuidSet, map[Digits(last.sourceIndex) := last.sourceUUID]);
      } else {
        choosable := GetIdxsWithUnchangedUUID(uuidSet, last.uuidSet);
      }
      ghost var eligible := Unchanged(uuidSet, Recorded(last));
      if |choosable| == 0 {
        assert eligible == {} by {
          assert forall i :: i in eligible ==> i in choosable;
        }
        warnings := warnings + ["skip binlog backups because some binlog files may be missing"];
        c := ChooseAnyReady(ready);
      } else {
        assert choosable[0] in choosable;
        c := ChoosePreferred(choosable);
        assert (set i | i in choosable) == eligible;
      }
    }
  }
}
