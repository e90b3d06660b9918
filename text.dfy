/**
 * The JavaScript string operations the rider app applies to free-form text:
 * `trim`, `toUpperCase` (ASCII letters only), and replacing every run of `\s`.
 */
module Text {

  /** JavaScript's WhiteSpace and LineTerminator code points: what `trim` strips
      and what the regular-expression class `\s` matches (TAB, LF, VT, FF, CR,
      SPACE, NBSP, the Unicode space separators, LS, PS and the BOM). */
  predicate IsSpace(c: char) {
    if c < '\U{00A0}' then c == ' ' || ('\t' <= c <= '\r')
    else
      || c == '\U{00A0}' || c == '\U{1680}' || ('\U{2000}' <= c <= '\U{200A}')
      || c == '\U{2028}' || c == '\U{2029}' || c == '\U{202F}' || c == '\U{205F}'
      || c == '\U{3000}' || c == '\U{FEFF}'
  }

  predicate IsLower(c: char) { 'a' <= c <= 'z' }

  predicate IsUpper(c: char) { 'A' <= c <= 'Z' }

  predicate IsDigit(c: char) { '0' <= c <= '9' }

  predicate NoSpace(s: string) { forall i :: 0 <= i < |s| ==> !IsSpace(s[i]) }

  predicate AllSpace(s: string) { forall i :: 0 <= i < |s| ==> IsSpace(s[i]) }

  predicate NoLower(s: string) { forall i :: 0 <= i < |s| ==> !IsLower(s[i]) }

  /** No white space at either end: what `trim` leaves behind. */
  predicate Trimmed(s: string) {
    s == [] || (!IsSpace(s[0]) && !IsSpace(s[|s| - 1]))
  }

  function UpperChar(c: char): char {
    if IsLower(c) then (c as int - 32) as char else c
  }

  function LowerChar(c: char): char {
    if IsUpper(c) then (c as int + 32) as char else c
  }

  /** `toUpperCase` on the ASCII letters. */
  function Upper(s: string): string {
    seq(|s|, i requires 0 <= i < |s| => UpperChar(s[i]))
  }

  /** `toLowerCase` on the ASCII letters. */
  function Lower(s: string): string {
    seq(|s|, i requires 0 <= i < |s| => LowerChar(s[i]))
  }

  /** `trimStart`: the suffix left after dropping the leading run of white space. */
  function TrimStart(s: string): (r: string)
    ensures |r| <= |s|
    ensures r == [] || !IsSpace(r[0])
  {
    if s != [] && IsSpace(s[0]) then TrimStart(s[1..]) else s
  }

  /** `trimEnd`: the prefix left after dropping the trailing run of white space. */
  function TrimEnd(s: string): (r: string)
    ensures |r| <= |s|
    ensures forall i :: 0 <= i < |r| ==> r[i] == s[i]
    ensures r == [] || !IsSpace(r[|r| - 1])
  {
    if s != [] && IsSpace(s[|s| - 1]) then TrimEnd(s[..|s| - 1]) else s
  }

  /** `trim`: drops white space at both ends. */
  function Trim(s: string): (r: string)
    ensures Trimmed(r)
    ensures |r| <= |s|
  {
    TrimEnd(TrimStart(s))
  }

  /** `replace(/\s+/g, "_")`: every maximal run of white space becomes one underscore. */
  function CollapseSpace(s: string): (r: string)
    ensures NoSpace(r)
    ensures forall i :: 0 <= i < |r| ==> r[i] == '_' || r[i] in s
    decreases |s|
  {
    if s == [] then []
    else if IsSpace(s[0]) then
      var t := TrimStart(s);
      assert |t| < |s|;
      assert forall c :: c in t ==> c in s by {
        var p := TrimStartParts(s);
      }
      "_" + CollapseSpace(t)
    else [s[0]] + CollapseSpace(s[1..])
  }

  /** `replace(/_/g, " ")`: every underscore is shown as a space and every other
      character is kept in place. */
  function UnderscoresToSpaces(s: string): (r: string)
    ensures |r| == |s|
    ensures forall i :: 0 <= i < |s| ==> r[i] != '_'
    ensures forall i :: 0 <= i < |s| && s[i] == '_' ==> r[i] == ' '
    ensures forall i :: 0 <= i < |s| && s[i] != '_' ==> r[i] == s[i]
  {
    seq(|s|, i requires 0 <= i < |s| => if s[i] == '_' then ' ' else s[i])
  }

  // ---------------------------------------------------------------- lemmas

  lemma {:induction false} TrimStartOverSpace(a: string, t: string)
    requires AllSpace(a)
    requires t == [] || !IsSpace(t[0])
    ensures TrimStart(a + t) == t
    decreases |a|
  {
    if a != [] {
      assert (a + t)[1..] == a[1..] + t;
      TrimStartOverSpace(a[1..], t);
    }
  }

  lemma {:induction false} TrimEndOverSpace(t: string, b: string)
    requires AllSpace(b)
    requires t == [] || !IsSpace(t[|t| - 1])
    ensures TrimEnd(t + b) == t
    decreases |b|
  {
    if b != [] {
      assert (t + b)[..|t + b| - 1] == t + b[..|b| - 1];
      TrimEndOverSpace(t, b[..|b| - 1]);
    }
  }

  /** `trim` is determined by its defining property: strip any white-space
      wrapper off a trimmed middle and the middle is what remains. */
  lemma TrimUnique(a: string, m: string, b: string)
    requires AllSpace(a) && AllSpace(b) && Trimmed(m)
    ensures Trim(a + m + b) == m
  {
    if m == [] {
      assert a + m + b == a + b;
      assert AllSpace(a + b);
      TrimStartOverSpace(a + b, []);
      assert a + b + [] == a + b;
    } else {
      assert a + m + b == a + (m + b);
      TrimStartOverSpace(a, m + b);
      TrimEndOverSpace(m, b);
    }
  }

  lemma {:induction false} TrimStartParts(s: string) returns (p: string)
    ensures AllSpace(p) && s == p + TrimStart(s)
    decreases |s|
  {
    if s != [] && IsSpace(s[0]) {
      var p' := TrimStartParts(s[1..]);
      p := [s[0]] + p';
      assert s == [s[0]] + s[1..];
    } else {
      p := [];
    }
  }

  lemma {:induction false} TrimEndParts(s: string) returns (q: string)
    ensures AllSpace(q) && s == TrimEnd(s) + q
    decreases |s|
  {
    if s != [] && IsSpace(s[|s| - 1]) {
      var q' := TrimEndParts(s[..|s| - 1]);
      q := q' + [s[|s| - 1]];
      assert s == s[..|s| - 1] + [s[|s| - 1]];
    } else {
      q := [];
    }
  }

  /** `s` is its trimmed form wrapped in two runs of white space. */
  lemma TrimParts(s: string) returns (p: string, q: string)
    ensures AllSpace(p) && AllSpace(q)
    ensures s == p + Trim(s) + q
  {
    p := TrimStartParts(s);
    q := TrimEndParts(TrimStart(s));
  }

  /** Outer white space never changes the result of `trim`. */
  lemma TrimIgnoresOuterSpace(w1: string, s: string, w2: string)
    requires AllSpace(w1) && AllSpace(w2)
    ensures Trim(w1 + s + w2) == Trim(s)
  {
    var p, q := TrimParts(s);
    var m := Trim(s);
    assert w1 + s + w2 == (w1 + p) + m + (q + w2);
    AllSpaceConcat(w1, p);
    AllSpaceConcat(q, w2);
    TrimUnique(w1 + p, m, q + w2);
  }

  lemma AllSpaceConcat(x: string, y: string)
    requires AllSpace(x) && AllSpace(y)
    ensures AllSpace(x + y)
  {
    forall i | 0 <= i < |x + y|
      ensures IsSpace((x + y)[i])
    {
      if i < |x| { assert (x + y)[i] == x[i]; } else { assert (x + y)[i] == y[i - |x|]; }
    }
  }

  lemma TrimOfNoSpace(s: string)
    requires NoSpace(s)
    ensures Trim(s) == s
  {
    assert [] + s + [] == s;
    TrimUnique([], s, []);
  }

  lemma UpperOfNoLower(s: string)
    requires NoLower(s)
    ensures Upper(s) == s
  {
  }

  /** Text already free of white space passes through the run replacement unchanged. */
  lemma {:induction false} CollapseOfNoSpace(s: string)
    requires NoSpace(s)
    ensures CollapseSpace(s) == s
    decreases |s|
  {
    if s != [] {
      CollapseOfNoSpace(s[1..]);
      assert s == [s[0]] + s[1..];
    }
  }

  lemma LowerKeepsSpaces(s: string)
    ensures AllSpace(s) ==> AllSpace(Lower(s))
    ensures Trimmed(s) ==> Trimmed(Lower(s))
  {
  }

  /** Lower-casing before `trim` is the same as lower-casing after it. */
  lemma TrimOfLower(s: string)
    ensures Trim(Lower(s)) == Lower(Trim(s))
  {
    var p, q := TrimParts(s);
    var m := Trim(s);
    assert Lower(s) == Lower(p) + Lower(m) + Lower(q);
    LowerKeepsSpaces(p);
    LowerKeepsSpaces(m);
    LowerKeepsSpaces(q);
    TrimUnique(Lower(p), Lower(m), Lower(q));
  }

  lemma UpperKeepsSpaces(s: string)
    ensures |Upper(s)| == |s| && (s != [] <==> Upper(s) != [])
    ensures NoSpace(s) ==> NoSpace(Upper(s))
    ensures AllSpace(s) ==> AllSpace(Upper(s))
  {
  }

  /** The general step of the run replacement: a space-free prefix is kept, the
      maximal run of white space after it becomes one underscore, and the rest
      is replaced in the same way. With `CollapseOfNoSpace` for the last word,
      this fixes the result on every input. */
  lemma {:induction false} CollapseStep(a: string, w: string, b: string)
    requires NoSpace(a) && w != [] && AllSpace(w)
    requires b == [] || !IsSpace(b[0])
    ensures CollapseSpace(a + w + b) == a + "_" + CollapseSpace(b)
    decreases |a|
  {
    if a == [] {
      assert a + w + b == w + b;
      assert IsSpace((w + b)[0]);
      TrimStartOverSpace(w, b);
    } else {
      var s := a + w + b;
      assert s[1..] == a[1..] + w + b;
      assert !IsSpace(s[0]);
      CollapseStep(a[1..], w, b);
      assert a + "_" + CollapseSpace(b) == [a[0]] + (a[1..] + "_" + CollapseSpace(b));
    }
  }

  /** Two space-free words around a run of white space collapse to the words joined
      by one underscore. */
  lemma CollapseJoin(a: string, w: string, b: string)
    requires NoSpace(a) && NoSpace(b) && w != [] && AllSpace(w)
    ensures CollapseSpace(a + w + b) == a + "_" + b
  {
    CollapseStep(a, w, b);
    CollapseOfNoSpace(b);
  }

  /** The replacement is idempotent: its result holds no white space left to replace. */
  lemma CollapseIdempotent(s: string)
    ensures CollapseSpace(CollapseSpace(s)) == CollapseSpace(s)
  {
    CollapseOfNoSpace(CollapseSpace(s));
  }

  /** Text without underscores is shown unchanged. */
  lemma UnderscoresOfNone(s: string)
    requires forall i :: 0 <= i < |s| ==> s[i] != '_'
    ensures UnderscoresToSpaces(s) == s
  {
  }

  /** Showing underscores as spaces works piece by piece. */
  lemma UnderscoresConcat(a: string, b: string)
    ensures UnderscoresToSpaces(a + b) == UnderscoresToSpaces(a) + UnderscoresToSpaces(b)
  {
    var l, r := UnderscoresToSpaces(a + b), UnderscoresToSpaces(a) + UnderscoresToSpaces(b);
    forall i | 0 <= i < |l|
      ensures l[i] == r[i]
    {
      if i < |a| { assert (a + b)[i] == a[i]; } else { assert (a + b)[i] == b[i - |a|]; }
    }
  }

  lemma UpperOfLower(s: string)
    ensures Upper(Lower(s)) == Upper(s)
  {
  }
}
