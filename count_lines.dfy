/** Counting the lines that the text generators produce. */
module CountLines {
  import opened Seqs
  import opened Text

  predicate NoNewline(s: string)
  {
    Count(s, '\n') == 0
  }

  lemma NoNewlineChars(s: string)
    requires forall i :: 0 <= i < |s| ==> s[i] != '\n'
    ensures NoNewline(s)
  {
    CountAbsent(s, '\n');
  }

  /** When f(x) holds one newline for the elements that satisfy p and none for the
      others, FlatMap(s, f) holds one per element that satisfies p. */
  lemma {:induction false} CountFlatMap<T>(s: seq<T>, f: T -> string, p: T -> bool)
    requires forall x :: x in s ==> Count(f(x), '\n') == if p(x) then 1 else 0
    ensures Count(FlatMap(s, f), '\n') == |Filter(s, p)|
  {
    if s != [] {
      InitIn(s);
      CountFlatMap(s[..|s| - 1], f, p);
      assert s[|s| - 1] in s;
      CountAppend(FlatMap(s[..|s| - 1], f), f(s[|s| - 1]), '\n');
    }
  }

  /** A line of text: a newline-free prefix, then one newline. */
  lemma OneLine(s: string)
    requires NoNewline(s)
    ensures Count(s + "\n", '\n') == 1
  {
    CountAppend(s, "\n", '\n');
    assert "\n"[..0] == [];
  }

  lemma NoNewlineConcat(a: string, b: string)
    requires NoNewline(a) && NoNewline(b)
    ensures NoNewline(a + b)
  {
    CountAppend(a, b, '\n');
  }

  /** Joining newline-free parts with a newline-free separator gives a newline-free string. */
  lemma {:induction false} JoinNoNewline(parts: seq<string>, sep: string)
    requires forall i :: 0 <= i < |parts| ==> NoNewline(parts[i])
    requires NoNewline(sep)
    ensures NoNewline(Join(parts, sep))
  {
    if |parts| > 1 {
      var init := parts[..|parts| - 1];
      JoinNoNewline(init, sep);
      NoNewlineConcat(Join(init, sep), sep);
      NoNewlineConcat(Join(init, sep) + sep, parts[|parts| - 1]);
    }
  }

  lemma {:induction false} FlatMapNoNewline<T>(s: seq<T>, f: T -> string)
    requires forall x :: x in s ==> NoNewline(f(x))
    ensures NoNewline(FlatMap(s, f))
  {
    if s != [] {
      InitIn(s);
      FlatMapNoNewline(s[..|s| - 1], f);
      assert s[|s| - 1] in s;
      NoNewlineConcat(FlatMap(s[..|s| - 1], f), f(s[|s| - 1]));
    }
  }
}
