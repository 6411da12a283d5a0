/** Errant transactions are looked for in the text of a GTID set: uuid:interval[:interval]..., separated by commas. */
module GtidText {
  import opened Decimal
  import Replication

  datatype Interval = Interval(first: nat, last: nat)

  /** The transactions of one origin. newline: the server broke the line after the comma before it. */
  datatype UuidSet = UuidSet(uuid: string, intervals: seq<Interval>, newline: bool)

  predicate IsUuid(s: string) {
    s != "" && forall i :: 0 <= i < |s| ==> IsDigit(s[i]) || 'a' <= s[i] <= 'f' || s[i] == '-'
  }

  predicate Plain(sets: seq<UuidSet>) {
    && (forall k :: 0 <= k < |sets| ==>
          IsUuid(sets[k].uuid) && sets[k].intervals != []
          && forall j :: 0 <= j < |sets[k].intervals| ==> 1 <= sets[k].intervals[j].first <= sets[k].intervals[j].last)
    && (sets != [] ==> !sets[0].newline)
  }

  /** As a server prints a set: every origin once. */
  predicate Canonical(sets: seq<UuidSet>) {
    Plain(sets) && forall j, k :: 0 <= j < k < |sets| ==> sets[j].uuid != sets[k].uuid
  }

  /** Transaction n of the origin is in the set. */
  ghost predicate Holds(sets: seq<UuidSet>, uuid: string, n: nat) {
    exists k, j :: 0 <= k < |sets| && 0 <= j < |sets[k].intervals| && sets[k].uuid == uuid
                   && sets[k].intervals[j].first <= n <= sets[k].intervals[j].last
  }

  // ----- printing -----

  function PrintInterval(i: Interval): string {
    if i.first == i.last then Digits(i.first) else Digits(i.first) + "-" + Digits(i.last)
  }

  function PrintIntervals(xs: seq<Interval>): string {
    if xs == [] then "" else ":" + PrintInterval(xs[0]) + PrintIntervals(xs[1..])
  }

  function Label(u: UuidSet): string { (if u.newline then "\n" else "") + u.uuid }

  function PrintOne(u: UuidSet): string { Label(u) + PrintIntervals(u.intervals) }

  function Print(sets: seq<UuidSet>): string {
    if sets == [] then "" else if |sets| == 1 then PrintOne(sets[0]) else PrintOne(sets[0]) + "," + Print(sets[1..])
  }

  // ----- splitting -----

  /** The part before the first ch, or all of it. */
  function Before(s: string, ch: char): (r: string)
    ensures |r| <= |s| && (ch in s ==> |r| < |s|)
  {
    if s == [] || s[0] == ch then [] else [s[0]] + Before(s[1..], ch)
  }

  function Split(s: string, ch: char): (r: seq<string>)
    ensures r != []
    decreases |s|
  {
    if ch in s then [Before(s, ch)] + Split(s[|Before(s, ch)| + 1..], ch) else [s]
  }

  lemma {:induction false} BeforeIs(a: string, ch: char, b: string)
    requires ch !in a && (b == [] || b[0] == ch)
    ensures Before(a + b, ch) == a
  {
    if a != [] {
      assert (a + b)[1..] == a[1..] + b;
      BeforeIs(a[1..], ch, b);
    } else {
      assert a + b == b;
    }
  }

  lemma SplitAt(a: string, ch: char, b: string)
    requires ch !in a
    ensures Split(a + [ch] + b, ch) == [a] + Split(b, ch)
  {
    BeforeIs(a, ch, [ch] + b);
    assert a + [ch] + b == a + ([ch] + b);
    assert (a + [ch] + b)[|a| + 1..] == b;
    assert (a + [ch] + b)[|a|] == ch;
  }

  lemma {:induction false} NoCommaInIntervals(xs: seq<Interval>)
    ensures ',' !in PrintIntervals(xs)
  {
    if xs != [] {
      NoCommaInIntervals(xs[1..]);
      NumberOfDigits(xs[0].first);
      NumberOfDigits(xs[0].last);
      assert ',' !in PrintInterval(xs[0]);
    }
  }

  lemma PartsOfOne(u: UuidSet)
    requires IsUuid(u.uuid) && u.intervals != []
    ensures ',' !in PrintOne(u) && Before(PrintOne(u), ':') == Label(u)
  {
    NoCommaInIntervals(u.intervals);
    BeforeIs(Label(u), ':', PrintIntervals(u.intervals));
  }

  function Parts(sets: seq<UuidSet>): seq<string> {
    seq(|sets|, k requires 0 <= k < |sets| => PrintOne(sets[k]))
  }

  /** Splitting at the commas gives the parts that were printed. */
  lemma {:induction false} SplitPrint(sets: seq<UuidSet>)
    requires sets != [] && forall k :: 0 <= k < |sets| ==> IsUuid(sets[k].uuid) && sets[k].intervals != []
    ensures Split(Print(sets), ',') == Parts(sets)
    decreases |sets|, 1
  {
    PartsOfOne(sets[0]);
    hide PrintOne, Before, IsUuid;
    if |sets| > 1 {
      SplitRest(sets);
    } else {
      assert Split(Print(sets), ',') == [PrintOne(sets[0])];
    }
  }

  lemma {:induction false} SplitRest(sets: seq<UuidSet>)
    requires |sets| > 1 && ',' !in PrintOne(sets[0])
    requires forall k :: 0 <= k < |sets| ==> IsUuid(sets[k].uuid) && sets[k].intervals != []
    ensures Split(Print(sets), ',') == Parts(sets)
    decreases |sets|, 0
  {
    hide PrintOne, Before, IsUuid, Split;
    var rest := sets[1..];
    SplitAt(PrintOne(sets[0]), ',', Print(rest));
    SplitPrint(rest);
    assert Parts(sets) == [PrintOne(sets[0])] + Parts(rest);
  }

  // ----- the test -----

  /** Some part of the text does not begin with the primary's UUID. */
  predicate Flagged(primaryUuid: string, text: string) {
    text != "" && exists k :: 0 <= k < |Split(text, ',')| && Before(Split(text, ',')[k], ':') != primaryUuid
  }

  method ContainErrantTransactions(primaryUuid: string, text: string) returns (r: bool)
    requires primaryUuid != ""
    ensures r <==> Flagged(primaryUuid, text)
  {
    hide Split, Before;
    if text == "" {
      return false;
    }
    var parts := Split(text, ',');
    for k := 0 to |parts|
      invariant forall j :: 0 <= j < k ==> Before(parts[j], ':') == primaryUuid
    {
      if Before(parts[k], ':') != primaryUuid {
        assert Before(Split(text, ',')[k], ':') != primaryUuid;
        return true;
      }
    }
    return false;
  }

  /** Some transaction is of another origin. */
  ghost predicate Foreign(sets: seq<UuidSet>, primaryUuid: string) {
    exists uuid, n :: Holds(sets, uuid, n) && uuid != primaryUuid
  }

  lemma {:induction false} ForeignPart(sets: seq<UuidSet>, primaryUuid: string)
    requires Plain(sets)
    ensures Foreign(sets, primaryUuid) <==> exists k :: 0 <= k < |sets| && sets[k].uuid != primaryUuid
  {
    if k :| 0 <= k < |sets| && sets[k].uuid != primaryUuid {
      assert sets[k].intervals[0].first <= sets[k].intervals[0].first <= sets[k].intervals[0].last;
      assert Holds(sets, sets[k].uuid, sets[k].intervals[0].first);
    }
  }

  lemma LabelMeans(u: UuidSet, uuid: string)
    requires IsUuid(u.uuid) && IsUuid(uuid)
    ensures Label(u) == uuid <==> u.uuid == uuid && !u.newline
  {
    assert u.newline ==> Label(u)[0] == '\n';
  }

  lemma PrintNothing()
    ensures Print([]) == ""
  {
  }

  lemma PrintSomething(sets: seq<UuidSet>)
    requires Plain(sets) && sets != []
    ensures Print(sets) != ""
  {
    assert |PrintOne(sets[0])| >= |sets[0].uuid| > 0;
  }

  /** What the text test sees: another origin, or a line break before a UUID. */
  lemma {:induction false} FlaggedExactly(sets: seq<UuidSet>, primaryUuid: string)
    requires Plain(sets) && IsUuid(primaryUuid)
    ensures Flagged(primaryUuid, Print(sets)) <==>
              Foreign(sets, primaryUuid) || exists k :: 0 <= k < |sets| && sets[k].newline
  {
    ForeignPart(sets, primaryUuid);
    hide Split, Before, Print, PrintOne, Foreign, Label;
    if sets == [] {
      assert Print(sets) == "" by { PrintNothing(); }
    } else {
      SplitPrint(sets);
      PrintSomething(sets);
      forall k | 0 <= k < |sets|
        ensures Before(Split(Print(sets), ',')[k], ':') == Label(sets[k])
        ensures Label(sets[k]) == primaryUuid <==> sets[k].uuid == primaryUuid && !sets[k].newline
      {
        PartsOfOne(sets[k]);
        LabelMeans(sets[k], primaryUuid);
      }
    }
  }

  /** The test is right on plain text exactly if a line break is not the only reason to say yes. */
  lemma {:induction false} FlaggedRightly(sets: seq<UuidSet>, primaryUuid: string)
    requires Plain(sets) && IsUuid(primaryUuid)
    ensures (Flagged(primaryUuid, Print(sets)) <==> Foreign(sets, primaryUuid)) <==>
              ((exists k :: 0 <= k < |sets| && sets[k].newline) ==>
                exists k :: 0 <= k < |sets| && sets[k].uuid != primaryUuid)
  {
    ForeignPart(sets, primaryUuid);
    FlaggedExactly(sets, primaryUuid);
  }

  /** On canonical text, with or without line breaks, the test is right. */
  lemma {:induction false} CanonicalFlagged(sets: seq<UuidSet>, primaryUuid: string)
    requires Canonical(sets) && IsUuid(primaryUuid)
    ensures Flagged(primaryUuid, Print(sets)) <==> Foreign(sets, primaryUuid)
  {
    FlaggedRightly(sets, primaryUuid);
    if k :| 0 <= k < |sets| && sets[k].newline {
      assert sets[0].uuid != sets[k].uuid;
    }
  }

  /** One origin printed twice with a line break between would be taken for errant. */
  lemma RepeatedOrigin()
    ensures var sets := [UuidSet("a", [Interval(1, 2)], false), UuidSet("a", [Interval(4, 4)], true)];
            Plain(sets) && Flagged("a", Print(sets)) && !Foreign(sets, "a")
  {
    var sets := [UuidSet("a", [Interval(1, 2)], false), UuidSet("a", [Interval(4, 4)], true)];
    assert sets[1].newline;
    FlaggedExactly(sets, "a");
    ForeignPart(sets, "a");
  }

  /** sets is the GTID set gs, with origins named by their UUIDs. */
  ghost predicate Denotes(sets: seq<UuidSet>, gs: set<Replication.Gtid>, name: nat -> string) {
    && (forall g :: g in gs ==> Holds(sets, name(g.origin), g.n))
    && forall uuid, n: nat :: Holds(sets, uuid, n) ==> exists o: nat :: name(o) == uuid && Replication.Gtid(o, n) in gs
  }

  /** A replica is flagged exactly if what it executed beyond the primary has a transaction of another origin. */
  lemma {:induction false} FlaggedIsErrant(sets: seq<UuidSet>, replica: set<Replication.Gtid>,
                                           executed: set<Replication.Gtid>, primary: nat, name: nat -> string)
    requires Canonical(sets) && Denotes(sets, replica - executed, name) && IsUuid(name(primary))
    requires forall i: nat, j: nat :: name(i) == name(j) ==> i == j
    ensures Flagged(name(primary), Print(sets)) <==> exists g :: g in replica - executed && g.origin != primary
  {
    CanonicalFlagged(sets, name(primary));
    if uuid, n :| Holds(sets, uuid, n) && uuid != name(primary) {
      var o: nat :| name(o) == uuid && Replication.Gtid(o, n) in replica - executed;
      assert Replication.Gtid(o, n).origin != primary;
    }
    if g :| g in replica - executed && g.origin != primary {
      assert Holds(sets, name(g.origin), g.n);
      assert name(g.origin) != name(primary);
    }
  }
}
