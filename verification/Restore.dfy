/** Finding the backup to restore from. */
module Restore {
  import opened Basics
  import opened Lex
  import opened BackupTime

  const DUMP := "dump.tar"
  const BINLOG := "binlog.tar.zst"

  // ----- object keys -----

  datatype Cluster = Cluster(ns: string, name: string)

  function CalcPrefix(c: Cluster): string { "moco/" + c.ns + "/" + c.name + "/" }

  function CalcKey(c: Cluster, file: string, t: Civil): string
    requires Exists(t)
  {
    CalcPrefix(c) + (Format(t) + ("/" + file))
  }

  predicate HasSuffix(s: string, end: string) { |s| >= |end| && s[|s| - |end|..] == end }

  function LastSlash(s: string): (r: int)
    ensures -1 <= r < |s|
  {
    if s == [] then -1 else if s[|s| - 1] == '/' then |s| - 1 else LastSlash(s[..|s| - 1])
  }

  /** The directory of a path without empty, "." and ".." components. */
  function Dir(path: string): string {
    if LastSlash(path) < 0 then "." else path[..LastSlash(path)]
  }

  function BaseName(path: string): string { path[LastSlash(path) + 1..] }

  /** The time a key belongs to. */
  function TimeOf(key: string): Option<int> { Parse(BaseName(Dir(key))) }

  predicate NoSlash(s: string) { forall i :: 0 <= i < |s| ==> s[i] != '/' }

  lemma {:induction false} LastSlashAt(a: string, b: string)
    requires NoSlash(b)
    ensures LastSlash(a + "/" + b) == |a|
  {
    var s := a + "/" + b;
    if b != [] {
      assert s[..|s| - 1] == a + "/" + b[..|b| - 1];
      LastSlashAt(a, b[..|b| - 1]);
    }
  }

  predicate IsFile(file: string) { file == DUMP || file == BINLOG }

  lemma SplitKey(c: Cluster, file: string, t: Civil)
    requires Exists(t) && IsFile(file)
    ensures Dir(CalcKey(c, file, t)) == CalcPrefix(c) + Format(t)
    ensures BaseName(Dir(CalcKey(c, file, t))) == Format(t)
    ensures TimeOf(CalcKey(c, file, t)) == Some(Instant(t))
  {
    var prefix, key := CalcPrefix(c), CalcKey(c, file, t);
    FormatFields(t);
    assert key == (prefix + Format(t)) + "/" + file;
    LastSlashAt(prefix + Format(t), file);
    var head := prefix[..|prefix| - 1];
    assert prefix + Format(t) == head + "/" + Format(t);
    LastSlashAt(head, Format(t));
    ParseFormat(t);
  }

  lemma KeySuffix(c: Cluster, file: string, t: Civil)
    requires Exists(t) && IsFile(file)
    ensures HasSuffix(CalcKey(c, file, t), DUMP) <==> file == DUMP
    ensures HasSuffix(CalcKey(c, file, t), BINLOG) <==> file == BINLOG
  {
    var key := CalcKey(c, file, t);
    assert key[|key| - |file|..] == file;
    assert key[|key| - 1] == file[|file| - 1];
  }

  lemma EarlierKey(c: Cluster, f: string, a: Civil, g: string, b: Civil)
    requires Exists(a) && Exists(b) && Instant(a) < Instant(b)
    ensures Less(CalcKey(c, f, a), CalcKey(c, g, b))
  {
    FormatOrder(a, b);
    FormatFields(a);
    FormatFields(b);
    hide Format, Instant, Fields, Less;
    FixedWidth(Format(a), Format(b), "/" + f, "/" + g);
    CommonPrefix(CalcPrefix(c), Format(a) + ("/" + f), Format(b) + ("/" + g));
  }

  lemma SameTimeKey(c: Cluster, f: string, g: string, t: Civil)
    requires Exists(t)
    ensures Less(CalcKey(c, f, t), CalcKey(c, g, t)) <==> Less(f, g)
  {
    hide Format, Less;
    CommonPrefix(CalcPrefix(c), Format(t) + ("/" + f), Format(t) + ("/" + g));
    CommonPrefix(Format(t), "/" + f, "/" + g);
    CommonPrefix("/", f, g);
  }

  /** Keys come in order of time, and the binlog of a backup before its dump. */
  lemma KeyOrder(c: Cluster, f: string, a: Civil, g: string, b: Civil)
    requires Exists(a) && Exists(b) && IsFile(f) && IsFile(g)
    ensures Less(CalcKey(c, f, a), CalcKey(c, g, b))
            <==> Instant(a) < Instant(b) || (a == b && f == BINLOG && g == DUMP)
  {
    assert Less(f, g) <==> f == BINLOG && g == DUMP by {
      Irreflexive(f);
      assert BINLOG[0] == 'b' && DUMP[0] == 'd';
    }
    CalendarOrder(a, b);
    hide Format, Instant, Less, CalcKey;
    if Instant(a) < Instant(b) {
      EarlierKey(c, f, a, g, b);
    } else if Instant(b) < Instant(a) {
      EarlierKey(c, g, b, f, a);
      Asymmetric(CalcKey(c, g, b), CalcKey(c, f, a));
    } else {
      SameTimeKey(c, f, g, a);
    }
  }

  lemma KeyIdentifies(c: Cluster, f: string, a: Civil, g: string, b: Civil)
    requires Exists(a) && Exists(b) && IsFile(f) && IsFile(g) && CalcKey(c, f, a) == CalcKey(c, g, b)
    ensures f == g && a == b
  {
    KeySuffix(c, f, a);
    KeySuffix(c, g, b);
    SplitKey(c, f, a);
    SplitKey(c, g, b);
    CalendarOrder(a, b);
  }

  /** What comes before the first slash is told apart from what comes after it. */
  lemma {:induction false} FirstSlash(a: string, x: string, b: string, y: string)
    requires NoSlash(a) && NoSlash(b) && a + "/" + x == b + "/" + y
    ensures a == b && x == y
  {
    if a == [] || b == [] {
      assert (a + "/" + x)[0] == (b + "/" + y)[0];
      assert a + "/" + x == "/" + x && b + "/" + y == "/" + y;
      assert x == ("/" + x)[1..] && y == ("/" + y)[1..];
    } else {
      assert (a + "/" + x)[0] == a[0] && (b + "/" + y)[0] == b[0];
      assert (a + "/" + x)[1..] == a[1..] + "/" + x && (b + "/" + y)[1..] == b[1..] + "/" + y;
      FirstSlash(a[1..], x, b[1..], y);
      assert a == [a[0]] + a[1..] && b == [b[0]] + b[1..];
    }
  }

  /** Clusters do not share keys, and a key lies under the prefix of its cluster. */
  lemma ClusterIdentified(c: Cluster, f: string, a: Civil, d: Cluster, g: string, b: Civil)
    requires Exists(a) && Exists(b) && IsFile(f) && IsFile(g) && CalcKey(c, f, a) == CalcKey(d, g, b)
    requires NoSlash(c.ns) && NoSlash(c.name) && NoSlash(d.ns) && NoSlash(d.name)
    ensures c == d && f == g && a == b
    ensures CalcPrefix(c) <= CalcKey(c, f, a)
  {
    var x, y := Format(a) + ("/" + f), Format(b) + ("/" + g);
    Nested(c, x);
    Nested(d, y);
    hide Format, CalcPrefix, Exists, Nest;
    SameNest(c, x, d, y);
    KeyIdentifies(c, f, a, g, b);
  }

  function Nest(c: Cluster, x: string): string { "moco" + "/" + (c.ns + "/" + (c.name + "/" + x)) }

  lemma Nested(c: Cluster, x: string)
    ensures CalcPrefix(c) + x == Nest(c, x)
  {
  }

  lemma SameNest(c: Cluster, x: string, d: Cluster, y: string)
    requires NoSlash(c.ns) && NoSlash(c.name) && NoSlash(d.ns) && NoSlash(d.name) && Nest(c, x) == Nest(d, y)
    ensures c == d
  {
    MocoIsOne();
    hide NoSlash;
    FirstSlash("moco", c.ns + "/" + (c.name + "/" + x), "moco", d.ns + "/" + (d.name + "/" + y));
    FirstSlash(c.ns, c.name + "/" + x, d.ns, d.name + "/" + y);
    FirstSlash(c.name, x, d.name, y);
  }

  lemma MocoIsOne()
    ensures NoSlash("moco")
  {
  }

  // ----- what is to be found -----

  /** What FindNearestDump passes over: another name, or a directory that is not a time. */
  predicate Garbage(key: string) {
    (!HasSuffix(key, BINLOG) && !HasSuffix(key, DUMP)) || TimeOf(key).None?
  }

  /** keys holds dumps and binlogs of the cluster, and garbage. */
  ghost predicate Bucket(c: Cluster, keys: seq<string>) {
    forall k :: 0 <= k < |keys| ==>
      Garbage(keys[k]) || exists t :: Exists(t) && (keys[k] == CalcKey(c, DUMP, t) || keys[k] == CalcKey(c, BINLOG, t))
  }

  ghost predicate Has(c: Cluster, keys: seq<string>, file: string, t: Civil) {
    Exists(t) && CalcKey(c, file, t) in keys
  }

  /** t is the time of the latest dump not after the restore point. */
  ghost predicate Nearest(c: Cluster, keys: seq<string>, point: int, t: Civil) {
    && Has(c, keys, DUMP, t) && Instant(t) <= point
    && forall u :: Has(c, keys, DUMP, u) && Instant(u) <= point ==> Instant(u) <= Instant(t)
  }

  ghost predicate NoDump(c: Cluster, keys: seq<string>, point: int) {
    forall u :: Has(c, keys, DUMP, u) ==> Instant(u) > point
  }

  /** t is the time of a binlog that is later than every dump up to the restore point: its own dump is missing. */
  ghost predicate Stray(c: Cluster, keys: seq<string>, point: int, t: Civil) {
    && Has(c, keys, BINLOG, t) && Instant(t) <= point
    && forall u :: Has(c, keys, DUMP, u) && Instant(u) <= point ==> Instant(u) < Instant(t)
  }

  /** Every binlog lies beside a dump. */
  ghost predicate Siblings(c: Cluster, keys: seq<string>) {
    forall t :: Has(c, keys, BINLOG, t) ==> Has(c, keys, DUMP, t)
  }

  lemma SiblingsNeverStray(c: Cluster, keys: seq<string>, point: int, t: Civil)
    requires Siblings(c, keys)
    ensures !Stray(c, keys, point, t)
  {
  }

  // ----- the pass over the sorted keys -----

  /** m is the latest time of that file among the first i keys, all of which are not after the restore point. */
  ghost predicate Seen(c: Cluster, keys: seq<string>, file: string, point: int, m: Option<Civil>) {
    && (m.Some? ==> Has(c, keys, file, m.value))
    && forall u :: Has(c, keys, file, u) ==> Instant(u) <= point && m.Some? && Instant(u) <= Instant(m.value)
  }

  /** The binlog remembered after the latest dump d and the latest binlog b. */
  ghost function Remembered(c: Cluster, d: Option<Civil>, b: Option<Civil>): string
    requires b.Some? ==> Exists(b.value)
  {
    if b.Some? && (d.None? || Instant(d.value) < Instant(b.value) || d == b) then CalcKey(c, BINLOG, b.value) else ""
  }

  /** The next key is not such a file: nothing changes. */
  lemma Passed(c: Cluster, keys: seq<string>, key: string, file: string, point: int, m: Option<Civil>)
    requires Seen(c, keys, file, point, m)
    requires forall u :: Exists(u) ==> key != CalcKey(c, file, u)
    ensures Seen(c, keys + [key], file, point, m)
  {
    hide CalcKey, Exists, Instant;
    forall u | Has(c, keys + [key], file, u) ensures Has(c, keys, file, u) {
    }
    assert m.Some? ==> Has(c, keys + [key], file, m.value);
  }

  /** The next key is the latest yet. */
  lemma Found(c: Cluster, keys: seq<string>, t: Civil, file: string, point: int, m: Option<Civil>)
    requires IsFile(file) && Exists(t) && Instant(t) <= point
    requires Seen(c, keys, file, point, m)
    requires forall k :: 0 <= k < |keys| ==> !Less(CalcKey(c, file, t), keys[k])
    ensures Seen(c, keys + [CalcKey(c, file, t)], file, point, Some(t))
    ensures m.Some? ==> Instant(m.value) <= Instant(t)
  {
    var key := CalcKey(c, file, t);
    hide CalcKey, Exists, Instant, Less;
    assert Has(c, keys + [key], file, t);
    forall u | Has(c, keys + [key], file, u) ensures Instant(u) <= Instant(t) {
      if CalcKey(c, file, u) == key {
        KeyIdentifies(c, file, u, file, t);
      } else {
        assert CalcKey(c, file, u) in keys;
        KeyOrder(c, file, t, file, u);
      }
    }
    if m.Some? {
      assert Has(c, keys + [key], file, m.value);
    }
  }

  /** What the pass has remembered. */
  ghost predicate Memory(c: Cluster, keys: seq<string>, point: int, d: Option<Civil>, b: Option<Civil>, dump: string,
                         binlog: string, nearest: Option<int>) {
    && Seen(c, keys, DUMP, point, d) && Seen(c, keys, BINLOG, point, b)
    && (d.None? ==> dump == "" && nearest == None)
    && (d.Some? ==> dump == CalcKey(c, DUMP, d.value) && nearest == Some(Instant(d.value)))
    && binlog == Remembered(c, d, b)
  }

  lemma SkipsGarbage(c: Cluster, key: string, file: string, t: Civil)
    requires IsFile(file) && Exists(t) && Garbage(key)
    ensures key != CalcKey(c, file, t)
  {
    if key == CalcKey(c, file, t) {
      KeySuffix(c, file, t);
      SplitKey(c, file, t);
    }
  }

  lemma MemorySkips(c: Cluster, keys: seq<string>, key: string, point: int, d: Option<Civil>, b: Option<Civil>,
                    dump: string, binlog: string, nearest: Option<int>)
    requires Memory(c, keys, point, d, b, dump, binlog, nearest) && Garbage(key)
    ensures Memory(c, keys + [key], point, d, b, dump, binlog, nearest)
  {
    hide CalcKey, Exists, Instant, Garbage;
    forall file, u | IsFile(file) && Exists(u) ensures key != CalcKey(c, file, u) {
      SkipsGarbage(c, key, file, u);
    }
    Passed(c, keys, key, DUMP, point, d);
    Passed(c, keys, key, BINLOG, point, b);
  }

  lemma MemoryBinlog(c: Cluster, keys: seq<string>, t: Civil, point: int, d: Option<Civil>, b: Option<Civil>,
                     dump: string, binlog: string, nearest: Option<int>)
    requires Memory(c, keys, point, d, b, dump, binlog, nearest) && Exists(t) && Instant(t) <= point
    requires forall k :: 0 <= k < |keys| ==> !Less(CalcKey(c, BINLOG, t), keys[k])
    ensures Memory(c, keys + [CalcKey(c, BINLOG, t)], point, d, Some(t), dump, CalcKey(c, BINLOG, t), nearest)
  {
    hide CalcKey, Exists, Instant, Less;
    var key := CalcKey(c, BINLOG, t);
    forall u | Exists(u) && key == CalcKey(c, DUMP, u) ensures false {
      KeyIdentifies(c, BINLOG, t, DUMP, u);
    }
    Passed(c, keys, key, DUMP, point, d);
    Found(c, keys, t, BINLOG, point, b);
    if d.Some? {
      assert Has(c, keys, DUMP, d.value);
      KeyOrder(c, BINLOG, t, DUMP, d.value);
      CalendarOrder(t, d.value);
    }
  }

  lemma SomeDir(c: Cluster, file: string, t: Civil)
    requires Exists(t) && IsFile(file)
    ensures Dir(CalcKey(c, file, t)) != Dir("")
  {
    SplitKey(c, file, t);
    assert Dir("") == ".";
  }

  /** A dump and a binlog are in one directory exactly if they are of one backup. */
  lemma SameDir(c: Cluster, t: Civil, u: Civil)
    requires Exists(t) && Exists(u)
    ensures Dir(CalcKey(c, DUMP, t)) == Dir(CalcKey(c, BINLOG, u)) <==> t == u
  {
    SplitKey(c, DUMP, t);
    SplitKey(c, BINLOG, u);
    CalendarOrder(t, u);
  }

  /** Forgetting a binlog from another directory keeps what is remembered right. */
  lemma ForgetOther(c: Cluster, t: Civil, d: Option<Civil>, b: Option<Civil>)
    requires Exists(t) && (d.Some? ==> Exists(d.value) && Instant(d.value) <= Instant(t))
    requires b.Some? ==> Exists(b.value) && Instant(b.value) <= Instant(t)
    ensures Remembered(c, Some(t), b) ==
              if Dir(CalcKey(c, DUMP, t)) != Dir(Remembered(c, d, b)) then "" else Remembered(c, d, b)
  {
    hide CalcKey, Exists, Instant, Dir;
    SomeDir(c, DUMP, t);
    if b.Some? {
      SameDir(c, t, b.value);
      CalendarOrder(t, b.value);
      if d.Some? {
        CalendarOrder(d.value, b.value);
      }
    }
  }

  lemma MemoryDump(c: Cluster, keys: seq<string>, t: Civil, point: int, d: Option<Civil>, b: Option<Civil>,
                   dump: string, binlog: string, nearest: Option<int>)
    requires Memory(c, keys, point, d, b, dump, binlog, nearest) && Exists(t) && Instant(t) <= point
    requires forall k :: 0 <= k < |keys| ==> !Less(CalcKey(c, DUMP, t), keys[k])
    ensures Memory(c, keys + [CalcKey(c, DUMP, t)], point, Some(t), b, CalcKey(c, DUMP, t),
                   if Dir(CalcKey(c, DUMP, t)) != Dir(binlog) then "" else binlog, Some(Instant(t)))
  {
    hide CalcKey, Exists, Instant, Less, Dir, Remembered;
    var key := CalcKey(c, DUMP, t);
    forall u | Exists(u) && key == CalcKey(c, BINLOG, u) ensures false {
      KeyIdentifies(c, DUMP, t, BINLOG, u);
    }
    Passed(c, keys, key, BINLOG, point, b);
    Found(c, keys, t, DUMP, point, d);
    if b.Some? {
      assert Has(c, keys, BINLOG, b.value);
      KeyOrder(c, DUMP, t, BINLOG, b.value);
    }
    ForgetOther(c, t, d, b);
  }

  /**
   The latest dump not after the restore point, its time, and its own binlog unless a stray binlog takes its place.
   */
  ghost predicate Answer(c: Cluster, keys: seq<string>, point: int, dump: string, binlog: string,
                         nearest: Option<int>) {
    && (dump == "" <==> nearest == None)
    && (nearest == None <==> NoDump(c, keys, point))
    && (nearest.Some? ==> exists t :: Nearest(c, keys, point, t))
    && (forall t :: Nearest(c, keys, point, t) ==> dump == CalcKey(c, DUMP, t) && nearest == Some(Instant(t)))
    && (if exists u :: Stray(c, keys, point, u)
        then exists u :: Stray(c, keys, point, u) && binlog == CalcKey(c, BINLOG, u)
        else OwnBinlog(c, keys, point, binlog))
  }

  ghost predicate OwnBinlog(c: Cluster, keys: seq<string>, point: int, binlog: string) {
    && (NoDump(c, keys, point) ==> binlog == "")
    && forall t :: Nearest(c, keys, point, t) ==>
         binlog == if Has(c, keys, BINLOG, t) then CalcKey(c, BINLOG, t) else ""
  }

  /** All keys not after the restore point have been seen. */
  ghost predicate AllSeen(c: Cluster, done: seq<string>, keys: seq<string>, point: int) {
    && (forall k :: 0 <= k < |done| ==> done[k] in keys)
    && forall file, u :: IsFile(file) && Has(c, keys, file, u) && Instant(u) <= point ==> Has(c, done, file, u)
  }

  lemma MemoryAnswers(c: Cluster, done: seq<string>, keys: seq<string>, point: int, d: Option<Civil>,
                      b: Option<Civil>, dump: string, binlog: string, nearest: Option<int>)
    requires Memory(c, done, point, d, b, dump, binlog, nearest) && AllSeen(c, done, keys, point)
    ensures Answer(c, keys, point, dump, binlog, nearest)
  {
    hide CalcKey, Exists, Instant;
    assert IsFile(DUMP) && IsFile(BINLOG);
    forall file, u | Has(c, done, file, u) ensures Has(c, keys, file, u) {
      var k :| 0 <= k < |done| && done[k] == CalcKey(c, file, u);
    }
    if d.Some? {
      assert Has(c, done, DUMP, d.value);
      assert Nearest(c, keys, point, d.value);
      assert dump != "" by {
        SplitKey(c, DUMP, d.value);
        KeyNotEmpty(c, DUMP, d.value);
      }
    }
    forall t | Nearest(c, keys, point, t) ensures d == Some(t) {
      assert Has(c, done, DUMP, t);
      assert Has(c, keys, DUMP, d.value);
      CalendarOrder(t, d.value);
    }
    BinlogAnswers(c, done, keys, point, d, b);
  }

  lemma KeyNotEmpty(c: Cluster, file: string, t: Civil)
    requires Exists(t)
    ensures CalcKey(c, file, t) != ""
  {
    assert |CalcPrefix(c)| > 0;
  }

  lemma BinlogAnswers(c: Cluster, done: seq<string>, keys: seq<string>, point: int, d: Option<Civil>, b: Option<Civil>)
    requires Seen(c, done, DUMP, point, d) && Seen(c, done, BINLOG, point, b) && AllSeen(c, done, keys, point)
    requires forall file, u :: Has(c, done, file, u) ==> Has(c, keys, file, u)
    requires forall t :: Nearest(c, keys, point, t) ==> d == Some(t)
    ensures if exists u :: Stray(c, keys, point, u)
            then exists u :: Stray(c, keys, point, u) && Remembered(c, d, b) == CalcKey(c, BINLOG, u)
            else OwnBinlog(c, keys, point, Remembered(c, d, b))
  {
    hide CalcKey, Exists, Instant;
    assert IsFile(DUMP) && IsFile(BINLOG);
    if u :| Stray(c, keys, point, u) {
      assert Has(c, done, BINLOG, u);
      assert d.Some? ==> Has(c, done, DUMP, d.value) && Has(c, keys, DUMP, d.value);
      assert Stray(c, keys, point, b.value);
    } else {
      if b.Some? {
        assert Has(c, done, BINLOG, b.value) && Has(c, keys, BINLOG, b.value);
        assert !Stray(c, keys, point, b.value);
        var u :| Has(c, keys, DUMP, u) && Instant(u) <= point && Instant(u) >= Instant(b.value);
        assert Has(c, done, DUMP, u);
        CalendarOrder(d.value, b.value);
      }
      forall t | Nearest(c, keys, point, t) && Has(c, keys, BINLOG, t) ensures b == Some(t) {
        assert Has(c, done, BINLOG, t);
        CalendarOrder(t, b.value);
      }
    }
  }

  method Scan(ghost c: Cluster, keys: seq<string>, point: int) returns (dump: string, binlog: string,
              nearest: Option<int>)
    requires Bucket(c, keys) && Sorted(keys, (s: string) => s)
    ensures Answer(c, keys, point, dump, binlog, nearest)
  {
    hide Memory, Answer, Exists, Instant, Less, CalcKey, TimeOf, HasSuffix;
    dump, binlog, nearest := "", "", None;
    ghost var d: Option<Civil>, b: Option<Civil> := None, None;
    ghost var done: seq<string> := [];
    EmptyMemory(c, point);
    var i := 0;
    while i < |keys|
      invariant 0 <= i <= |keys| && done == keys[..i]
      invariant Memory(c, done, point, d, b, dump, binlog, nearest)
    {
      var key := keys[i];
      assert keys[..i + 1] == done + [key];
      var isBinlog := HasSuffix(key, BINLOG);
      var isDump := HasSuffix(key, DUMP);
      var time := TimeOf(key);
      if (!isBinlog && !isDump) || time.None? {
        MemorySkips(c, done, key, point, d, b, dump, binlog, nearest);
      } else {
        ghost var t: Civil, file: string := WhichBackup(c, keys, i);
        if time.value > point {
          break;
        }
        assert forall k :: 0 <= k < |done| ==> !Less(key, done[k]);
        if isBinlog {
          MemoryBinlog(c, done, t, point, d, b, dump, binlog, nearest);
          binlog, b := key, Some(t);
        } else {
          MemoryDump(c, done, t, point, d, b, dump, binlog, nearest);
          dump, nearest, d := key, time, Some(t);
          if Dir(dump) != Dir(binlog) {
            binlog := "";
          }
        }
      }
      i, done := i + 1, done + [key];
    }
    RestIsLater(c, keys, i, point);
    MemoryAnswers(c, done, keys, point, d, b, dump, binlog, nearest);
  }

  lemma EmptyMemory(c: Cluster, point: int)
    ensures Memory(c, [], point, None, None, "", "", None)
  {
  }

  lemma WhichBackup(c: Cluster, keys: seq<string>, i: nat) returns (t: Civil, file: string)
    requires Bucket(c, keys) && i < |keys| && !Garbage(keys[i])
    ensures Exists(t) && IsFile(file) && keys[i] == CalcKey(c, file, t) && TimeOf(keys[i]) == Some(Instant(t))
    ensures HasSuffix(keys[i], BINLOG) <==> file == BINLOG
  {
    t :| Exists(t) && (keys[i] == CalcKey(c, DUMP, t) || keys[i] == CalcKey(c, BINLOG, t));
    file := if keys[i] == CalcKey(c, DUMP, t) then DUMP else BINLOG;
    SplitKey(c, file, t);
    KeySuffix(c, file, t);
  }

  /** After the last key, or from the first key after the restore point on, there is nothing more to see. */
  lemma RestIsLater(c: Cluster, keys: seq<string>, i: nat, point: int)
    requires Bucket(c, keys) && Sorted(keys, (s: string) => s) && i <= |keys|
    requires i < |keys| ==> !Garbage(keys[i]) && TimeOf(keys[i]).value > point
    ensures AllSeen(c, keys[..i], keys, point)
  {
    hide Exists, Instant, Less, CalcKey, TimeOf, HasSuffix;
    forall file, u | IsFile(file) && Has(c, keys, file, u) && Instant(u) <= point ensures Has(c, keys[..i], file, u) {
      var k :| 0 <= k < |keys| && keys[k] == CalcKey(c, file, u);
      if k >= i {
        var t, f := WhichBackup(c, keys, i);
        if k == i {
          KeyIdentifies(c, f, t, file, u);
        } else {
          KeyOrder(c, file, u, f, t);
        }
      }
      assert keys[..i][k] == CalcKey(c, file, u);
    }
  }

  /** The keys are sorted in place, then looked through. */
  method FindNearestDump(ghost c: Cluster, keys: array<string>, point: int) returns (dump: string, binlog: string,
                         nearest: Option<int>)
    requires Bucket(c, keys[..])
    modifies keys
    ensures multiset(keys[..]) == multiset(old(keys[..])) && Sorted(keys[..], (s: string) => s)
    ensures Answer(c, old(keys[..]), point, dump, binlog, nearest)
  {
    hide Answer, Garbage, Exists, CalcKey, Less;
    ghost var was := keys[..];
    var sorted := SortBy(keys[..], (s: string) => s);
    SortBySorts(keys[..], (s: string) => s);
    forall i | 0 <= i < keys.Length {
      keys[i] := sorted[i];
    }
    assert keys[..] == sorted;
    forall s ensures s in was <==> s in sorted {
      assert s in was <==> s in multiset(was);
    }
    forall k | 0 <= k < |sorted| ensures sorted[k] in was {
    }
    dump, binlog, nearest := Scan(c, keys[..], point);
    SameAnswer(c, sorted, was, point, dump, binlog, nearest);
  }

  lemma SameAnswer(c: Cluster, xs: seq<string>, ys: seq<string>, point: int, dump: string, binlog: string,
                   nearest: Option<int>)
    requires (forall s :: s in xs <==> s in ys) && Answer(c, xs, point, dump, binlog, nearest)
    ensures Answer(c, ys, point, dump, binlog, nearest)
  {
    hide Exists, CalcKey, Instant, Answer;
    SameFiles(c, xs, ys, point, dump, binlog, nearest);
  }

  /** The answer depends only on which files there are. */
  lemma SameFiles(c: Cluster, xs: seq<string>, ys: seq<string>, point: int, dump: string, binlog: string,
                  nearest: Option<int>)
    requires (forall file, t :: Has(c, xs, file, t) <==>
               Has(c, ys, file, t)) && Answer(c, xs, point, dump, binlog, nearest)
    ensures Answer(c, ys, point, dump, binlog, nearest)
  {
    hide Has, CalcKey, Instant;
    forall t ensures Nearest(c, xs, point, t) <==> Nearest(c, ys, point, t) {
    }
    forall t ensures Stray(c, xs, point, t) <==> Stray(c, ys, point, t) {
    }
  }

  /** The answer in the keys themselves and the times they bear. */
  lemma AnswerByTimes(c: Cluster, keys: seq<string>, point: int, dump: string, binlog: string, nearest: Option<int>)
    requires Answer(c, keys, point, dump, binlog, nearest)
    ensures nearest.Some? ==> dump in keys && HasSuffix(dump, DUMP) && TimeOf(dump) == nearest && nearest.value <= point
    ensures nearest.None? ==> dump == ""
    ensures forall t :: Exists(t) && CalcKey(c, DUMP, t) in keys && Instant(t) <= point ==>
              nearest.Some? && Instant(t) <= nearest.value
    ensures binlog != "" ==> && binlog in keys && HasSuffix(binlog, BINLOG) && TimeOf(binlog).Some?
                             && TimeOf(binlog).value <= point
                             && (nearest.Some? ==> nearest.value <= TimeOf(binlog).value)
    ensures forall t :: Exists(t) && CalcKey(c, DUMP, t) in keys && CalcKey(c, BINLOG, t) in keys ==>
              nearest == Some(Instant(t)) ==> binlog != ""
  {
    if nearest.Some? {
      var t :| Nearest(c, keys, point, t);
      FileOf(c, DUMP, t);
    }
    assert forall t :: Exists(t) && CalcKey(c, DUMP, t) in keys ==> Has(c, keys, DUMP, t);
    assert forall t :: Exists(t) && CalcKey(c, BINLOG, t) in keys ==> Has(c, keys, BINLOG, t);
    BinlogByTimes(c, keys, point, dump, binlog, nearest);
  }

  lemma FileOf(c: Cluster, file: string, t: Civil)
    requires Exists(t) && IsFile(file)
    ensures HasSuffix(CalcKey(c, file, t), file) && TimeOf(CalcKey(c, file, t)) == Some(Instant(t))
    ensures CalcKey(c, file, t) != ""
  {
    KeySuffix(c, file, t);
    SplitKey(c, file, t);
    KeyNotEmpty(c, file, t);
  }

  lemma BinlogByTimes(c: Cluster, keys: seq<string>, point: int, dump: string, binlog: string, nearest: Option<int>)
    requires Answer(c, keys, point, dump, binlog, nearest)
    ensures binlog != "" ==> && binlog in keys && HasSuffix(binlog, BINLOG) && TimeOf(binlog).Some?
                             && TimeOf(binlog).value <= point
                             && (nearest.Some? ==> nearest.value <= TimeOf(binlog).value)
    ensures forall t :: Has(c, keys, DUMP, t) && Has(c, keys, BINLOG, t) && nearest == Some(Instant(t)) ==> binlog != ""
  {
    hide Exists, CalcKey, Instant, HasSuffix, TimeOf;
    if u :| Stray(c, keys, point, u) && binlog == CalcKey(c, BINLOG, u) {
      FileOf(c, BINLOG, u);
    } else if nearest.Some? {
      var t :| Nearest(c, keys, point, t);
      FileOf(c, BINLOG, t);
      forall u | Has(c, keys, DUMP, u) && nearest == Some(Instant(u)) ensures u == t {
        CalendarOrder(u, t);
      }
    }
  }

  datatype RestorePlan = NoBackup | Load(dump: string, binlog: Option<string>)

  /** What Restore makes of the answer: the binlog is applied unless the dump is of the very restore point. */
  function PlanRestore(dump: string, binlog: string, nearest: Option<int>, point: int): RestorePlan {
    if dump == "" then NoBackup
    else Load(dump, if nearest != Some(point) && binlog != "" then Some(binlog) else None)
  }

  /** The plan that is wanted: the nearest dump, then its own binlog if there is one and time is left to replay. */
  ghost predicate GoodPlan(c: Cluster, keys: seq<string>, point: int, p: RestorePlan) {
    match p
    case NoBackup => NoDump(c, keys, point)
    case Load(dump, binlog) =>
      exists t :: Nearest(c, keys, point, t) && dump == CalcKey(c, DUMP, t)
        && binlog == if Has(c, keys, BINLOG, t) && Instant(t) < point then Some(CalcKey(c, BINLOG, t)) else None
  }

  /** There is a dump to restore from, but a binlog without a dump of its own lies between it and the restore point. */
  ghost predicate StrayAfterDump(c: Cluster, keys: seq<string>, point: int) {
    !NoDump(c, keys, point) && exists u :: Stray(c, keys, point, u)
  }

  /** The restore does what is wanted exactly if no stray binlog follows the nearest dump. */
  lemma RestorePlanned(c: Cluster, keys: seq<string>, point: int, dump: string, binlog: string, nearest: Option<int>)
    requires Answer(c, keys, point, dump, binlog, nearest)
    ensures GoodPlan(c, keys, point, PlanRestore(dump, binlog, nearest, point)) <==> !StrayAfterDump(c, keys, point)
  {
    hide Exists, CalcKey, Instant;
    if nearest.Some? {
      var t :| Nearest(c, keys, point, t);
      KeyNotEmpty(c, BINLOG, t);
      if u :| Stray(c, keys, point, u) && binlog == CalcKey(c, BINLOG, u) {
        KeyNotEmpty(c, BINLOG, u);
        assert Has(c, keys, DUMP, t) && Instant(t) < Instant(u);
        forall v | Nearest(c, keys, point, v) ensures binlog != CalcKey(c, BINLOG, v) {
          if binlog == CalcKey(c, BINLOG, v) {
            KeyIdentifies(c, BINLOG, u, BINLOG, v);
          }
        }
      }
    }
  }

  /** The backups that MOCO itself leaves, a binlog always beside a dump, are restored as wanted. */
  lemma SiblingsAreRestored(c: Cluster, keys: seq<string>, point: int, dump: string, binlog: string,
                            nearest: Option<int>)
    requires Answer(c, keys, point, dump, binlog, nearest) && Siblings(c, keys)
    ensures GoodPlan(c, keys, point, PlanRestore(dump, binlog, nearest, point))
  {
    forall u ensures !Stray(c, keys, point, u) {
      SiblingsNeverStray(c, keys, point, u);
    }
    RestorePlanned(c, keys, point, dump, binlog, nearest);
  }

  /** A dump and a later binlog alone: the binlog would be replayed onto a dump that it does not follow. */
  lemma StrayExample(c: Cluster, day: Civil, next: Civil)
    requires Exists(day) && Exists(next) && Earlier(day, next)
    ensures Bucket(c, [CalcKey(c, DUMP, day), CalcKey(c, BINLOG, next)])
    ensures StrayAfterDump(c, [CalcKey(c, DUMP, day), CalcKey(c, BINLOG, next)], Instant(next))
  {
    hide CalcKey, Instant, Exists, Earlier, Garbage;
    EarlierIsBefore(day, next);
    var keys := [CalcKey(c, DUMP, day), CalcKey(c, BINLOG, next)];
    assert Has(c, keys, DUMP, day) && Has(c, keys, BINLOG, next);
    forall u | Has(c, keys, DUMP, u) ensures u == day {
      if CalcKey(c, DUMP, u) == CalcKey(c, DUMP, day) {
        KeyIdentifies(c, DUMP, u, DUMP, day);
      } else {
        KeyIdentifies(c, DUMP, u, BINLOG, next);
      }
    }
    assert Stray(c, keys, Instant(next), next);
  }
}
