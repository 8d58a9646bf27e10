/** Sequence helpers shared by the rules and the text generators: the list-building
    loops of the source (append per element, filter, String.join) as functions. */
module Seqs {

  /** Every element of a sequence without its last element is an element of it. */
  lemma InitIn<T>(s: seq<T>)
    requires s != []
    ensures forall x :: x in s[..|s| - 1] ==> x in s
  {
    forall x | x in s[..|s| - 1]
      ensures x in s
    {
      var i :| 0 <= i < |s| - 1 && s[..|s| - 1][i] == x;
      assert s[i] == x;
    }
  }

  /** The concatenation of f(x) for every x of s, in order. */
  function FlatMap<T, U>(s: seq<T>, f: T -> seq<U>): seq<U>
  {
    if s == [] then [] else FlatMap(s[..|s| - 1], f) + f(s[|s| - 1])
  }

  /** The elements of s that satisfy p, in order. */
  function Filter<T>(s: seq<T>, p: T -> bool): seq<T>
  {
    if s == [] then [] else Filter(s[..|s| - 1], p) + (if p(s[|s| - 1]) then [s[|s| - 1]] else [])
  }

  /** g applied to every element of s. */
  function Map<T, U>(s: seq<T>, g: T -> U): (r: seq<U>)
    ensures |r| == |s|
    ensures forall i :: 0 <= i < |s| ==> r[i] == g(s[i])
  {
    seq(|s|, i requires 0 <= i < |s| => g(s[i]))
  }

  /** Java's String.join(sep, parts). */
  function Join(parts: seq<string>, sep: string): string
  {
    if |parts| == 0 then ""
    else if |parts| == 1 then parts[0]
    else Join(parts[..|parts| - 1], sep) + sep + parts[|parts| - 1]
  }

  /** Regrouping a concatenation, stated once so loops need not re-derive it. */
  lemma AppendAssoc<T>(a: seq<T>, b: seq<T>, c: seq<T>)
    ensures (a + b) + c == a + (b + c)
  {
  }

  lemma FlatMapSnoc<T, U>(s: seq<T>, x: T, f: T -> seq<U>)
    ensures FlatMap(s + [x], f) == FlatMap(s, f) + f(x)
  {
    assert (s + [x])[..|s|] == s;
  }

  lemma FilterSnoc<T>(s: seq<T>, x: T, p: T -> bool)
    ensures Filter(s + [x], p) == Filter(s, p) + (if p(x) then [x] else [])
  {
    assert (s + [x])[..|s|] == s;
  }

  lemma {:induction false} FlatMapAppend<T, U>(s: seq<T>, t: seq<T>, f: T -> seq<U>)
    ensures FlatMap(s + t, f) == FlatMap(s, f) + FlatMap(t, f)
    decreases |t|
  {
    if t == [] {
      assert s + t == s;
    } else {
      var u := t[..|t| - 1];
      assert s + t == (s + u) + [t[|t| - 1]];
      assert t == u + [t[|t| - 1]];
      FlatMapSnoc(s + u, t[|t| - 1], f);
      FlatMapSnoc(u, t[|t| - 1], f);
      FlatMapAppend(s, u, f);
    }
  }

  lemma FlatMapCons<T, U>(x: T, s: seq<T>, f: T -> seq<U>)
    ensures FlatMap([x] + s, f) == f(x) + FlatMap(s, f)
  {
    FlatMapAppend([x], s, f);
    assert [x][..0] == [];
  }

  /** When every element contributes at most one item, there are at most |s| items. */
  lemma {:induction false} FlatMapAtMostOne<T, U>(s: seq<T>, f: T -> seq<U>)
    requires forall x :: x in s ==> |f(x)| <= 1
    ensures |FlatMap(s, f)| <= |s|
  {
    if s != [] {
      InitIn(s);
      FlatMapAtMostOne(s[..|s| - 1], f);
    }
  }

  /** Every item of FlatMap(s, f) comes from some f(x) with x in s. */
  lemma {:induction false} FlatMapAll<T, U>(s: seq<T>, f: T -> seq<U>, p: U -> bool)
    requires forall x, i :: x in s && 0 <= i < |f(x)| ==> p(f(x)[i])
    ensures forall i :: 0 <= i < |FlatMap(s, f)| ==> p(FlatMap(s, f)[i])
  {
    if s != [] {
      InitIn(s);
      FlatMapAll(s[..|s| - 1], f, p);
      var last := s[|s| - 1];
      assert last in s;
      var a := FlatMap(s[..|s| - 1], f);
      forall i | 0 <= i < |FlatMap(s, f)|
        ensures p(FlatMap(s, f)[i])
      {
        if i >= |a| {
          assert FlatMap(s, f)[i] == f(last)[i - |a|];
        }
      }
    }
  }

  /** A per-element "flag it or not" check is the flagged elements, transformed. */
  lemma {:induction false} FlatMapOptional<T, U>(s: seq<T>, f: T -> seq<U>, p: T -> bool, g: T -> U)
    requires forall x :: x in s ==> f(x) == if p(x) then [g(x)] else []
    ensures FlatMap(s, f) == Map(Filter(s, p), g)
  {
    if s != [] {
      InitIn(s);
      FlatMapOptional(s[..|s| - 1], f, p, g);
      assert s[|s| - 1] in s;
    }
  }

  /** Filter keeps exactly the elements that satisfy p. */
  lemma {:induction false} FilterMembers<T>(s: seq<T>, p: T -> bool)
    ensures forall x :: x in Filter(s, p) <==> x in s && p(x)
    ensures |Filter(s, p)| <= |s|
  {
    if s != [] {
      FilterMembers(s[..|s| - 1], p);
      assert s == s[..|s| - 1] + [s[|s| - 1]];
    }
  }

  /** Nothing is kept when no element satisfies p. */
  lemma {:induction false} FilterNone<T>(s: seq<T>, p: T -> bool)
    requires forall x :: x in s ==> !p(x)
    ensures Filter(s, p) == []
  {
    if s != [] {
      var init := s[..|s| - 1];
      assert s[|s| - 1] in s;
      InitIn(s);
      FilterNone(init, p);
    }
  }

  /** Nothing is produced when every element produces nothing. */
  lemma {:induction false} FlatMapSilent<T, U>(s: seq<T>, f: T -> seq<U>)
    requires forall x :: x in s ==> f(x) == []
    ensures FlatMap(s, f) == []
  {
    if s != [] {
      var init := s[..|s| - 1];
      assert s[|s| - 1] in s;
      InitIn(s);
      FlatMapSilent(init, f);
    }
  }

  /** Two per-element functions that agree on s give the same FlatMap. */
  lemma {:induction false} FlatMapSameOn<T, U>(s: seq<T>, f: T -> seq<U>, g: T -> seq<U>)
    requires forall x :: x in s ==> f(x) == g(x)
    ensures FlatMap(s, f) == FlatMap(s, g)
  {
    if s != [] {
      InitIn(s);
      FlatMapSameOn(s[..|s| - 1], f, g);
      assert s[|s| - 1] in s;
    }
  }

  /** One step of a loop that appends f(s[i]) for i = 0, 1, ... */
  lemma FlatMapPrefixStep<T, U>(s: seq<T>, i: nat, f: T -> seq<U>)
    requires i < |s|
    ensures FlatMap(s[..i + 1], f) == FlatMap(s[..i], f) + f(s[i])
  {
    assert s[..i + 1] == s[..i] + [s[i]];
    FlatMapSnoc(s[..i], s[i], f);
  }

  /** Join yields "" exactly for no parts, when every part is non-empty. */
  lemma {:induction false} JoinEmpty(parts: seq<string>, sep: string)
    requires forall i :: 0 <= i < |parts| ==> parts[i] != []
    ensures Join(parts, sep) == [] <==> parts == []
  {
    if |parts| > 1 {
      JoinEmpty(parts[..|parts| - 1], sep);
    }
  }

  /** Dropping the elements that f maps to nothing does not change FlatMap(s, f). */
  lemma {:induction false} FlatMapDropSilent<T, U>(s: seq<T>, f: T -> seq<U>, p: T -> bool)
    requires forall x :: x in s && !p(x) ==> f(x) == []
    ensures FlatMap(Filter(s, p), f) == FlatMap(s, f)
  {
    if s != [] {
      var init, last := s[..|s| - 1], s[|s| - 1];
      InitIn(s);
      FlatMapDropSilent(init, f, p);
      assert last in s;
      assert s == init + [last];
      FlatMapSnoc(init, last, f);
      if p(last) {
        assert Filter(s, p) == Filter(init, p) + [last];
        FlatMapSnoc(Filter(init, p), last, f);
      } else {
        assert Filter(s, p) == Filter(init, p);
        assert f(last) == [];
        assert FlatMap(s, f) == FlatMap(init, f) + [];
      }
    }
  }

  lemma {:induction false} FilterAll<T>(s: seq<T>, p: T -> bool)
    requires forall x :: x in s ==> p(x)
    ensures Filter(s, p) == s
  {
    if s != [] {
      InitIn(s);
      FilterAll(s[..|s| - 1], p);
      assert s[|s| - 1] in s;
    }
  }

  lemma {:induction false} FilterIdempotent<T>(s: seq<T>, p: T -> bool)
    ensures Filter(Filter(s, p), p) == Filter(s, p)
  {
    if s != [] {
      var init, last := s[..|s| - 1], s[|s| - 1];
      FilterIdempotent(init, p);
      assert s == init + [last];
      FilterSnoc(init, last, p);
      if p(last) {
        FilterSnoc(Filter(init, p), last, p);
      } else {
        assert Filter(s, p) == Filter(init, p);
      }
    }
  }
}
