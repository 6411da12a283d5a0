/** The order in which Go sorts strings, and sorting by it. */
module Lex {

  /** a comes before b, character by character. */
  predicate Less(a: string, b: string) {
    b != [] && (a == [] || a[0] < b[0] || (a[0] == b[0] && Less(a[1..], b[1..])))
  }

  lemma {:induction false} Irreflexive(a: string)
    ensures !Less(a, a)
  {
    if a != [] {
      Irreflexive(a[1..]);
    }
  }

  lemma {:induction false} Transitive(a: string, b: string, c: string)
    requires Less(a, b) && Less(b, c)
    ensures Less(a, c)
  {
    if a != [] && a[0] == b[0] == c[0] {
      Transitive(a[1..], b[1..], c[1..]);
    }
  }

  lemma {:induction false} Total(a: string, b: string)
    ensures Less(a, b) || a == b || Less(b, a)
  {
    if a != [] && b != [] && a[0] == b[0] {
      Total(a[1..], b[1..]);
      assert a == [a[0]] + a[1..] && b == [b[0]] + b[1..];
    }
  }

  lemma Asymmetric(a: string, b: string)
    requires Less(a, b)
    ensures !Less(b, a)
  {
    if Less(b, a) {
      Transitive(a, b, a);
      Irreflexive(a);
    }
  }

  /** A common beginning does not matter. */
  lemma {:induction false} CommonPrefix(p: string, a: string, b: string)
    ensures Less(p + a, p + b) <==> Less(a, b)
  {
    if p == [] {
      assert p + a == a && p + b == b;
    } else {
      assert (p + a)[1..] == p[1..] + a && (p + b)[1..] == p[1..] + b;
      CommonPrefix(p[1..], a, b);
    }
  }

  /** Between strings of equal length, what follows them does not matter either. */
  lemma {:induction false} FixedWidth(a: string, b: string, x: string, y: string)
    requires |a| == |b| && Less(a, b)
    ensures Less(a + x, b + y)
  {
    if a != [] {
      assert (a + x)[1..] == a[1..] + x && (b + y)[1..] == b[1..] + y;
      if a[0] == b[0] {
        FixedWidth(a[1..], b[1..], x, y);
      }
    }
  }

  // ----- sorting -----

  ghost predicate Sorted<T>(xs: seq<T>, key: T -> string) {
    forall i, j :: 0 <= i < j < |xs| ==> !Less(key(xs[j]), key(xs[i]))
  }

  function Insert<T>(x: T, xs: seq<T>, key: T -> string): seq<T> {
    if xs == [] || !Less(key(xs[0]), key(x)) then [x] + xs else [xs[0]] + Insert(x, xs[1..], key)
  }

  function SortBy<T>(xs: seq<T>, key: T -> string): seq<T> {
    if xs == [] then [] else Insert(xs[0], SortBy(xs[1..], key), key)
  }

  lemma {:induction false} InsertSame<T>(x: T, xs: seq<T>, key: T -> string)
    ensures multiset(Insert(x, xs, key)) == multiset([x] + xs)
  {
    if xs != [] && Less(key(xs[0]), key(x)) {
      InsertSame(x, xs[1..], key);
      assert xs == [xs[0]] + xs[1..];
    }
  }

  lemma {:induction false} InsertSorted<T>(x: T, xs: seq<T>, key: T -> string)
    requires Sorted(xs, key)
    ensures Sorted(Insert(x, xs, key), key)
  {
    var r := Insert(x, xs, key);
    if xs == [] {
    } else if !Less(key(xs[0]), key(x)) {
      forall j | 0 < j < |r| ensures !Less(key(r[j]), key(x)) {
        if Less(key(r[j]), key(x)) {
          Total(key(xs[0]), key(r[j]));
          if Less(key(xs[0]), key(r[j])) {
            Transitive(key(xs[0]), key(r[j]), key(x));
          }
        }
      }
    } else {
      var rest := Insert(x, xs[1..], key);
      InsertSorted(x, xs[1..], key);
      InsertSame(x, xs[1..], key);
      forall j | 0 <= j < |rest| ensures !Less(key(rest[j]), key(xs[0])) {
        assert rest[j] in multiset(rest);
        if rest[j] == x {
          Asymmetric(key(xs[0]), key(x));
        } else {
          assert rest[j] in xs[1..];
        }
      }
    }
  }

  /** Sorting keeps the elements and puts them in order. */
  lemma {:induction false} SortBySorts<T>(xs: seq<T>, key: T -> string)
    ensures multiset(SortBy(xs, key)) == multiset(xs) && Sorted(SortBy(xs, key), key)
    ensures |SortBy(xs, key)| == |xs|
  {
    if xs != [] {
      SortBySorts(xs[1..], key);
      InsertSorted(xs[0], SortBy(xs[1..], key), key);
      InsertSame(xs[0], SortBy(xs[1..], key), key);
      assert xs == [xs[0]] + xs[1..];
    }
    assert |multiset(SortBy(xs, key))| == |multiset(xs)|;
  }

  ghost predicate Distinct<T>(xs: seq<T>, id: T -> nat) {
    forall i, j :: 0 <= i < j < |xs| ==> id(xs[i]) != id(xs[j])
  }

  lemma {:induction false} InsertDistinct<T>(x: T, xs: seq<T>, key: T -> string, id: T -> nat)
    requires Distinct(xs, id) && forall i :: 0 <= i < |xs| ==> id(xs[i]) != id(x)
    ensures Distinct(Insert(x, xs, key), id)
  {
    if xs != [] && Less(key(xs[0]), key(x)) {
      var rest := Insert(x, xs[1..], key);
      InsertDistinct(x, xs[1..], key, id);
      InsertSame(x, xs[1..], key);
      forall j | 0 <= j < |rest| ensures id(rest[j]) != id(xs[0]) {
        assert rest[j] in multiset(rest);
        assert rest[j] == x || rest[j] in xs[1..];
      }
    }
  }

  lemma {:induction false} SortByDistinct<T>(xs: seq<T>, key: T -> string, id: T -> nat)
    requires Distinct(xs, id)
    ensures Distinct(SortBy(xs, key), id)
  {
    if xs != [] {
      SortByDistinct(xs[1..], key, id);
      SortBySorts(xs[1..], key);
      forall i | 0 <= i < |SortBy(xs[1..], key)| ensures id(SortBy(xs[1..], key)[i]) != id(xs[0]) {
        assert SortBy(xs[1..], key)[i] in multiset(xs[1..]);
      }
      InsertDistinct(xs[0], SortBy(xs[1..], key), key, id);
    }
  }

  /** Elements that agree on what the key reads are sorted alike. */
  lemma {:induction false} SortByCongruent<T>(xs: seq<T>, ys: seq<T>, key: T -> string, id: T -> nat)
    requires |xs| == |ys| && forall i :: 0 <= i < |xs| ==> id(xs[i]) == id(ys[i])
    requires forall x, y :: id(x) == id(y) ==> key(x) == key(y)
    ensures |SortBy(xs, key)| == |SortBy(ys, key)|
    ensures forall i :: 0 <= i < |SortBy(xs, key)| ==> id(SortBy(xs, key)[i]) == id(SortBy(ys, key)[i])
  {
    if xs != [] {
      SortByCongruent(xs[1..], ys[1..], key, id);
      InsertCongruent(xs[0], ys[0], SortBy(xs[1..], key), SortBy(ys[1..], key), key, id);
    }
  }

  lemma {:induction false} InsertCongruent<T>(x: T, y: T, xs: seq<T>, ys: seq<T>, key: T -> string, id: T -> nat)
    requires id(x) == id(y) && |xs| == |ys| && forall i :: 0 <= i < |xs| ==> id(xs[i]) == id(ys[i])
    requires forall x, y :: id(x) == id(y) ==> key(x) == key(y)
    ensures |Insert(x, xs, key)| == |Insert(y, ys, key)|
    ensures forall i :: 0 <= i < |Insert(x, xs, key)| ==> id(Insert(x, xs, key)[i]) == id(Insert(y, ys, key)[i])
  {
    if xs != [] && Less(key(xs[0]), key(x)) {
      assert id(xs[0]) == id(ys[0]);
      InsertCongruent(x, y, xs[1..], ys[1..], key, id);
    }
  }
}
