/** The handful of Python string operations the jobs use: `str.lower()`,
  * `s.split("/", 1)[1]` and `s.split("-")[0]`. */
module Text {
  import opened Wrappers

  /** Lower-cases one character. Only ASCII capitals are folded; see README. */
  function LowerChar(c: char): char {
    if 'A' <= c <= 'Z' then (c as int + 32) as char else c
  }

  /** Python's `s.lower()` restricted to ASCII letters. */
  function Lower(s: string): string {
    if s == [] then [] else [LowerChar(s[0])] + Lower(s[1..])
  }

  /** `s.lower() == "true"`: how every boolean setting of the jobs is read. */
  predicate LowersToTrue(s: string) {
    Lower(s) == "true"
  }

  lemma {:induction false} LowerAt(s: string, i: nat)
    requires i < |s|
    ensures |Lower(s)| == |s| && Lower(s)[i] == LowerChar(s[i])
  {
    if i == 0 {
      LowerLength(s);
    } else {
      LowerAt(s[1..], i - 1);
    }
  }

  lemma {:induction false} LowerLength(s: string)
    ensures |Lower(s)| == |s|
  {
    if s != [] {
      LowerLength(s[1..]);
    }
  }

  /** A setting reads as true exactly when it is "true" spelt in any mix of cases. */
  lemma LowersToTrueSpelling(s: string)
    ensures LowersToTrue(s) <==>
      |s| == 4 && s[0] in "tT" && s[1] in "rR" && s[2] in "uU" && s[3] in "eE"
  {
    LowerLength(s);
    if |s| == 4 {
      LowerAt(s, 0);
      LowerAt(s, 1);
      LowerAt(s, 2);
      LowerAt(s, 3);
    }
  }

  /** The index of the first occurrence of `c` in `s`, if any. */
  function IndexOf(s: string, c: char): (r: Option<nat>)
    ensures r.Some? ==> r.value < |s| && s[r.value] == c && c !in s[..r.value]
    ensures r.None? ==> c !in s
  {
    if s == [] then None
    else if s[0] == c then Some(0)
    else match IndexOf(s[1..], c)
      case None => None
      case Some(k) =>
        assert s[..k + 1] == [s[0]] + s[1..][..k];
        Some(k + 1)
  }

  /** `s.split(c, 1)[1]`: everything after the first `c`; None where Python raises IndexError. */
  function AfterFirst(s: string, c: char): Option<string> {
    match IndexOf(s, c)
    case Some(i) => Some(s[i + 1..])
    case None => None
  }

  /** `s.split(c)[0]`: everything before the first `c`, or all of `s`. */
  function BeforeFirst(s: string, c: char): string {
    match IndexOf(s, c)
    case Some(i) => s[..i]
    case None => s
  }

  /** Splitting `p + [c] + t` at its first `c` gives back `p` and `t` when `p` has no `c`. */
  lemma SplitAtFirst(p: string, c: char, t: string)
    requires c !in p
    ensures AfterFirst(p + [c] + t, c) == Some(t)
    ensures BeforeFirst(p + [c] + t, c) == p
  {
    var s := p + [c] + t;
    assert s[|p|] == c;
    var i := IndexOf(s, c);
    assert i == Some(|p|);
    assert s[|p| + 1..] == t;
    assert s[..|p|] == p;
  }

  /** `s.split(c)[0]` is a prefix of `s` without `c`, followed in `s` by `c` unless it is all of `s`. */
  lemma BeforeFirstPrefix(s: string, c: char)
    ensures var b := BeforeFirst(s, c);
      && c !in b && |b| <= |s| && b == s[..|b|]
      && (|b| < |s| ==> s[|b|] == c)
  {
  }

  /** The split fails exactly when the separator is missing. */
  lemma AfterFirstFails(s: string, c: char)
    ensures AfterFirst(s, c).None? <==> c !in s
  {
  }
}
