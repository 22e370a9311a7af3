/**
 * Sequence helpers: duplicate-freedom, `Array.from(new Set(xs))`, and the
 * `split` / `join` pair of JavaScript strings with a character class as
 * separator.
 */
module Seqs {

  predicate NoDup<T(==)>(s: seq<T>)
  {
    forall i, j :: 0 <= i < j < |s| ==> s[i] != s[j]
  }

  /** Where `x` first occurs in `s`. */
  function FirstIndex<T(==)>(s: seq<T>, x: T): (k: nat)
    requires x in s
    ensures k < |s| && s[k] == x && x !in s[..k]
  {
    if s[0] == x then 0
    else
      var k := 1 + FirstIndex(s[1..], x);
      assert s[..k] == [s[0]] + s[1..][..k - 1];
      k
  }

  /** An element of a prefix first occurs in the whole where it first occurs in the prefix. */
  lemma FirstIndexOfPrefix<T>(p: seq<T>, s: seq<T>, x: T)
    requires x in p && p <= s
    ensures x in s && FirstIndex(s, x) == FirstIndex(p, x)
  {
    var k := FirstIndex(p, x);
    assert s[k] == x;
    assert s[..k] == p[..k];
  }

  /** The elements of `r` occur in `s`, in the order of their first occurrences there. */
  predicate InFirstOrder<T(==)>(s: seq<T>, r: seq<T>)
  {
    && (forall i :: 0 <= i < |r| ==> r[i] in s)
    && (forall i, j :: 0 <= i < j < |r| ==> FirstIndex(s, r[i]) < FirstIndex(s, r[j]))
  }

  /**
   * `Array.from(new Set(s))`: a `Set` iterates in insertion order, so the
   * result keeps the first occurrence of every element, in order.
   */
  function Dedup<T(==,!new)>(s: seq<T>): (r: seq<T>)
    ensures NoDup(r)
    ensures forall x :: x in r <==> x in s
    ensures |r| <= |s|
    ensures NoDup(s) ==> r == s
    ensures |s| > 0 ==> |r| > 0 && r[0] == s[0]
  {
    if |s| == 0 then []
    else
      var d := Dedup(s[..|s| - 1]);
      if s[|s| - 1] in d then d else d + [s[|s| - 1]]
  }

  /** `Dedup` lists the elements in the order of their first occurrences. */
  lemma {:induction false} DedupKeepsFirstOrder<T(!new)>(s: seq<T>)
    ensures InFirstOrder(s, Dedup(s))
    decreases |s|
  {
    if |s| > 0 {
      var p := s[..|s| - 1];
      DedupKeepsFirstOrder(p);
      DedupOrderExtends(p, s, Dedup(p));
    }
  }

  /**
   * The first-occurrence order of the elements of `p` carries over to `s`,
   * and a new last element comes after them all.
   */
  lemma DedupOrderExtends<T>(p: seq<T>, s: seq<T>, d: seq<T>)
    requires |s| > 0 && p == s[..|s| - 1]
    requires forall x :: x in d <==> x in p
    requires InFirstOrder(p, d)
    ensures InFirstOrder(s, if s[|s| - 1] in d then d else d + [s[|s| - 1]])
  {
    var last := s[|s| - 1];
    forall i | 0 <= i < |d|
      ensures d[i] in s && FirstIndex(s, d[i]) == FirstIndex(p, d[i])
    {
      FirstIndexOfPrefix(p, s, d[i]);
    }
    if last !in d {
      var e := d + [last];
      assert last !in p;
      assert FirstIndex(s, last) == |s| - 1 by {
        assert s[..|s| - 1] == p;
      }
      forall i, j | 0 <= i < j < |e|
        ensures FirstIndex(s, e[i]) < FirstIndex(s, e[j])
      {
        if j == |d| {
          assert e[i] == d[i];
        } else {
          assert e[i] == d[i] && e[j] == d[j];
        }
      }
    }
  }

  /** No character of `p` is a separator. */
  predicate SepFree(p: string, seps: set<char>)
  {
    forall i :: 0 <= i < |p| ==> p[i] !in seps
  }

  /** `s.split(/[seps]/)`: the maximal separator-free pieces, in order. */
  function Split(s: string, seps: set<char>): (parts: seq<string>)
    ensures |parts| >= 1
    ensures forall k :: 0 <= k < |parts| ==> SepFree(parts[k], seps)
  {
    if |s| == 0 then [""]
    else
      var rest := Split(s[1..], seps);
      if s[0] in seps then [""] + rest
      else [[s[0]] + rest[0]] + rest[1..]
  }

  /** `parts.join(c)`; the join of no parts is the empty string. */
  function Join(parts: seq<string>, c: char): string
  {
    if |parts| == 0 then ""
    else if |parts| == 1 then parts[0]
    else parts[0] + [c] + Join(parts[1..], c)
  }

  /** Every separator of `s` replaced by `c`. */
  function Replace(s: string, seps: set<char>, c: char): (r: string)
    ensures |r| == |s|
    ensures forall i :: 0 <= i < |s| ==> r[i] == if s[i] in seps then c else s[i]
  {
    seq(|s|, i requires 0 <= i < |s| => if s[i] in seps then c else s[i])
  }

  lemma JoinCons(x: char, parts: seq<string>, c: char)
    requires |parts| >= 1
    ensures Join([[x] + parts[0]] + parts[1..], c) == [x] + Join(parts, c)
  {
    var q := [[x] + parts[0]] + parts[1..];
    if |parts| > 1 {
      assert q[1..] == parts[1..];
    }
  }

  /**
   * Splitting on a character class and joining with `c` is the same as
   * replacing every separator by `c`.
   */
  lemma {:induction false} JoinSplit(s: string, seps: set<char>, c: char)
    ensures Join(Split(s, seps), c) == Replace(s, seps, c)
    decreases |s|
  {
    if |s| > 0 {
      var rest := Split(s[1..], seps);
      JoinSplit(s[1..], seps, c);
      if s[0] in seps {
        assert ([""] + rest)[1..] == rest;
      } else {
        JoinCons(s[0], rest, c);
      }
      assert Replace(s, seps, c) == [if s[0] in seps then c else s[0]] + Replace(s[1..], seps, c);
    }
  }

  /** A separator-free string splits into itself. */
  lemma {:induction false} SplitFree(s: string, seps: set<char>)
    requires SepFree(s, seps)
    ensures Split(s, seps) == [s]
    decreases |s|
  {
    if |s| > 0 {
      assert SepFree(s[1..], seps) by {
        forall i | 0 <= i < |s[1..]| ensures s[1..][i] !in seps {
          assert s[1..][i] == s[i + 1];
        }
      }
      SplitFree(s[1..], seps);
      assert [s[0]] + s[1..] == s;
    }
  }

  /** Splitting at the first separator, at index `k`, gives `s[..k]` and then the pieces of the rest. */
  lemma {:induction false} SplitAtFirst(s: string, seps: set<char>, k: nat)
    requires k < |s| && s[k] in seps && SepFree(s[..k], seps)
    ensures Split(s, seps) == [s[..k]] + Split(s[k + 1..], seps)
    decreases k
  {
    if k > 0 {
      SplitAtFirst(s[1..], seps, k - 1);
      assert s[1..][k..] == s[k + 1..];
      assert s[1..][..k - 1] == s[1..k];
      assert [s[0]] + s[1..k] == s[..k];
    }
  }

  /**
   * Joining separator-free pieces with a separator and splitting the result
   * on the class gives the pieces back.
   */
  lemma {:induction false} SplitJoinRoundTrip(parts: seq<string>, seps: set<char>, c: char)
    requires |parts| >= 1 && c in seps
    requires forall k :: 0 <= k < |parts| ==> SepFree(parts[k], seps)
    ensures Split(Join(parts, c), seps) == parts
    decreases |parts|
  {
    if |parts| == 1 {
      SplitFree(parts[0], seps);
    } else {
      var s := Join(parts, c);
      var k := |parts[0]|;
      assert s == parts[0] + [c] + Join(parts[1..], c);
      assert s[..k] == parts[0];
      assert s[k + 1..] == Join(parts[1..], c);
      SplitAtFirst(s, seps, k);
      SplitJoinRoundTrip(parts[1..], seps, c);
      assert [parts[0]] + parts[1..] == parts;
    }
  }
}
