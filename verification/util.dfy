/** Small building blocks that the game logic borrows from the Java
    standard library: an optional value (for a nullable reference), the
    list operations `containsAll` and `removeAll`, and the string
    operations `String.join`, `String.trim` and the `toString` of a list. */
module Util {

  datatype Option<T> = None | Some(value: T)

  /** `xs.containsAll(ys)` of java.util.List: every element of `ys` occurs
      in `xs`; how often it occurs does not matter. */
  predicate ContainsAll(xs: seq<string>, ys: seq<string>)
  {
    forall y :: y in ys ==> y in xs
  }

  /** `xs.removeAll(ys)` of java.util.List: drops EVERY occurrence of every
      element that `ys` contains and keeps the rest in order. */
  function RemoveAll(xs: seq<string>, ys: seq<string>): (r: seq<string>)
    ensures forall x :: x in r <==> x in xs && x !in ys
    ensures |r| <= |xs|
  {
    if xs == [] then []
    else (if xs[0] in ys then [] else [xs[0]]) + RemoveAll(xs[1..], ys)
  }

  /** removeAll works element by element, so it distributes over
      concatenation: the survivors keep their relative order. */
  lemma {:induction false} RemoveAllAppend(a: seq<string>, b: seq<string>, ys: seq<string>)
    ensures RemoveAll(a + b, ys) == RemoveAll(a, ys) + RemoveAll(b, ys)
  {
    if a == [] {
      assert a + b == b;
    } else {
      assert (a + b)[0] == a[0];
      assert (a + b)[1..] == a[1..] + b;
      RemoveAllAppend(a[1..], b, ys);
    }
  }

  /** removeAll takes away exactly the listed elements: a listed element
      disappears entirely, every other element keeps its multiplicity. */
  lemma {:induction false} RemoveAllCount(xs: seq<string>, ys: seq<string>, x: string)
    ensures multiset(RemoveAll(xs, ys))[x] == if x in ys then 0 else multiset(xs)[x]
  {
    if xs != [] {
      RemoveAllCount(xs[1..], ys, x);
      assert xs == [xs[0]] + xs[1..];
      assert multiset(xs) == multiset([xs[0]]) + multiset(xs[1..]);
    }
  }

  /** When nothing in `xs` is listed, removeAll returns `xs` unchanged. */
  lemma {:induction false} RemoveAllNothingListed(xs: seq<string>, ys: seq<string>)
    requires forall x :: x in xs ==> x !in ys
    ensures RemoveAll(xs, ys) == xs
  {
    if xs != [] {
      RemoveAllNothingListed(xs[1..], ys);
      assert xs == [xs[0]] + xs[1..];
    }
  }

  /** `xs` occurs in `ys` in order, possibly with other elements between. */
  predicate Subsequence(xs: seq<string>, ys: seq<string>)
    decreases |ys|
  {
    xs == [] || (ys != [] && if xs[0] == ys[0] then Subsequence(xs[1..], ys[1..]) else Subsequence(xs, ys[1..]))
  }

  /** The survivors of removeAll appear in the original list in their
      original order. */
  lemma {:induction false} RemoveAllSubsequence(xs: seq<string>, ys: seq<string>)
    ensures Subsequence(RemoveAll(xs, ys), xs)
  {
    if xs != [] {
      RemoveAllSubsequence(xs[1..], ys);
      var r := RemoveAll(xs, ys);
      if xs[0] in ys {
        assert r == RemoveAll(xs[1..], ys);
        assert r != [] ==> r[0] in r && r[0] != xs[0];
      } else {
        assert r == [xs[0]] + RemoveAll(xs[1..], ys);
        assert r[1..] == RemoveAll(xs[1..], ys);
      }
    }
  }

  /** `String.join(sep, xs)`. */
  function Join(xs: seq<string>, sep: string): string
  {
    if xs == [] then ""
    else if |xs| == 1 then xs[0]
    else xs[0] + sep + Join(xs[1..], sep)
  }

  /** The `toString` of a java.util.List of strings: `[a, b, c]`. */
  function ListString(xs: seq<string>): string
  {
    "[" + Join(xs, ", ") + "]"
  }

  /** Java's trim treats every character up to and including U+0020 as blank. */
  predicate Blank(c: char)
  {
    c <= ' '
  }

  /** Drops the leading blank characters of `s`. */
  function TrimStart(s: string): string
  {
    if s != [] && Blank(s[0]) then TrimStart(s[1..]) else s
  }

  /** Drops the trailing blank characters of `s`. */
  function TrimEnd(s: string): string
  {
    if s != [] && Blank(s[|s| - 1]) then TrimEnd(s[..|s| - 1]) else s
  }

  /** `String.trim()`. */
  function Trim(s: string): string
  {
    TrimEnd(TrimStart(s))
  }

  /** TrimStart leaves a suffix of `s`, everything it cuts off is blank,
      and what it leaves does not start blank. */
  lemma {:induction false} TrimStartFacts(s: string)
    ensures var r := TrimStart(s);
      && |r| <= |s| && r == s[|s| - |r|..]
      && (forall k :: 0 <= k < |s| - |r| ==> Blank(s[k]))
      && (r != [] ==> !Blank(r[0]))
  {
    if s != [] && Blank(s[0]) {
      var t := s[1..];
      TrimStartFacts(t);
      var r := TrimStart(t);
      assert TrimStart(s) == r;
      assert t[|t| - |r|..] == s[|s| - |r|..];
      forall k | 0 <= k < |s| - |r|
        ensures Blank(s[k])
      {
        if k > 0 {
          assert s[k] == t[k - 1];
        }
      }
    }
  }

  /** TrimEnd leaves a prefix of `s`, everything it cuts off is blank, and
      what it leaves does not end blank. */
  lemma {:induction false} TrimEndFacts(s: string)
    ensures var r := TrimEnd(s);
      && |r| <= |s| && r == s[..|r|]
      && (forall k :: |r| <= k < |s| ==> Blank(s[k]))
      && (r != [] ==> !Blank(r[|r| - 1]))
  {
    if s != [] && Blank(s[|s| - 1]) {
      var t := s[..|s| - 1];
      TrimEndFacts(t);
      var r := TrimEnd(t);
      assert TrimEnd(s) == r;
      assert t[..|r|] == s[..|r|];
      forall k | |r| <= k < |s|
        ensures Blank(s[k])
      {
        if k < |s| - 1 {
          assert s[k] == t[k];
        }
      }
    }
  }

  /** Java's trim: a string that neither starts nor ends blank comes back
      unchanged, an all-blank string becomes empty, and any non-empty
      result starts and ends with a non-blank character. */
  lemma TrimFacts(s: string)
    ensures var r := Trim(s);
      && (r != [] ==> !Blank(r[0]) && !Blank(r[|r| - 1]))
      && (r == [] <==> forall k :: 0 <= k < |s| ==> Blank(s[k]))
      && ((s == [] || (!Blank(s[0]) && !Blank(s[|s| - 1]))) ==> r == s)
  {
    var t := TrimStart(s);
    TrimStartFacts(s);
    TrimEndFacts(t);
    var r := TrimEnd(t);
    assert r != [] ==> r[0] == t[0];
  }
}
