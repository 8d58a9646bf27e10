/** A single lint finding (Violation.java). */
module Violations {
  import opened Wrappers
  import opened Text

  datatype Target = CLASS | FIELD | METHOD

  /** `name` is the subject: a class name, or "Class#member" for a field or method. */
  datatype Violation = Violation(target: Target, name: string, message: string)

  /** The enum constant's name, which is what Java prints for it. */
  function TargetName(t: Target): string
  {
    match t
    case CLASS => "CLASS"
    case FIELD => "FIELD"
    case METHOD => "METHOD"
  }

  /** toString: `target + " '" + name + "': " + message`. */
  function ToString(v: Violation): string
  {
    TargetName(v.target) + " '" + v.name + "': " + v.message
  }

  function ParseTarget(s: string): (r: Option<Target>)
    ensures r.Some? ==> TargetName(r.value) == s
  {
    if s == "CLASS" then Some(CLASS)
    else if s == "FIELD" then Some(FIELD)
    else if s == "METHOD" then Some(METHOD)
    else None
  }

  /** Reads a violation back from its printed form; the subject ends at the first quote. */
  function ParseViolation(s: string): Option<Violation>
  {
    var space := IndexOfChar(s, ' ', 0);
    if space < 0 then None
    else
      var target := ParseTarget(s[..space]);
      if target.None? || space + 1 >= |s| || s[space + 1] != '\'' then None
      else
        var quote := IndexOfChar(s, '\'', space + 2);
        if quote < 0 || !(quote + 3 <= |s| && s[quote + 1..quote + 3] == ": ") then None
        else Some(Violation(target.value, s[space + 2..quote], s[quote + 3..]))
  }

  /** The printed target is the word before the first space, followed by a quote. */
  lemma TargetWordParsed(v: Violation)
    ensures var s := ToString(v); var n := |TargetName(v.target)|;
      n + 1 < |s| && IndexOfChar(s, ' ', 0) == n && s[..n] == TargetName(v.target)
      && s[n + 1] == '\''
  {
    var t := TargetName(v.target);
    var s := ToString(v);
    assert forall j :: 0 <= j < |t| ==> s[j] == t[j] && t[j] != ' ';
    assert s[|t|] == ' ';
    assert s[..|t|] == t;
  }

  /** After the opening quote, the subject runs up to the next quote, then ": " and
      the message follow. */
  lemma SubjectParsed(v: Violation)
    requires forall i :: 0 <= i < |v.name| ==> v.name[i] != '\''
    ensures var s := ToString(v); var n := |TargetName(v.target)|; var q := n + 2 + |v.name|;
      IndexOfChar(s, '\'', n + 2) == q && q + 3 <= |s| && s[n + 2..q] == v.name
      && s[q + 1..q + 3] == ": " && s[q + 3..] == v.message
  {
    var t := TargetName(v.target);
    var s := ToString(v);
    var q := |t| + 2 + |v.name|;
    assert forall j :: |t| + 2 <= j < q ==> s[j] == v.name[j - |t| - 2];
    assert s[q] == '\'';
    assert s[|t| + 2..q] == v.name;
    assert s[q + 1..q + 3] == ": ";
    assert s[q + 3..] == v.message;
  }

  /** The printed form determines the violation whenever the subject holds no quote,
      which is the case for every Java identifier. */
  lemma ToStringRoundTrip(v: Violation)
    requires forall i :: 0 <= i < |v.name| ==> v.name[i] != '\''
    ensures ParseViolation(ToString(v)) == Some(v)
  {
    TargetWordParsed(v);
    SubjectParsed(v);
    assert ParseTarget(TargetName(v.target)) == Some(v.target);
  }
}
