/** The string operations the page logic uses: `trim`, `includes`, the first
    piece of `split`, and JavaScript's `s || null` on strings. */
module Text {
  import opened Options

  /** The characters that `String.prototype.trim` and the regular-expression
      class `\s` both treat as white space: ECMAScript's WhiteSpace (tab,
      vertical tab, form feed, space, no-break space, byte-order mark and the
      Unicode space separators) and LineTerminator sets. */
  predicate IsSpace(c: char) {
    || c == '\t' || c == '\n' || c == '\U{000B}' || c == '\U{000C}' || c == '\r'
    || c == ' ' || c == '\U{00A0}' || c == '\U{1680}'
    || ('\U{2000}' <= c <= '\U{200A}')
    || c == '\U{2028}' || c == '\U{2029}' || c == '\U{202F}' || c == '\U{205F}'
    || c == '\U{3000}' || c == '\U{FEFF}'
  }

  predicate AllSpace(s: string) {
    forall i :: 0 <= i < |s| ==> IsSpace(s[i])
  }

  /** No white space at either end. */
  predicate Trimmed(s: string) {
    s == [] || (!IsSpace(s[0]) && !IsSpace(s[|s| - 1]))
  }

  /** `r` is what is left of `s` once some white space is cut from each end. */
  ghost predicate InfixBetweenSpaces(r: string, s: string) {
    exists i :: 0 <= i <= |s| - |r| && s[i..i + |r|] == r && AllSpace(s[..i]) && AllSpace(s[i + |r|..])
  }

  /** `s` without its leading white space. */
  function TrimStart(s: string): (r: string)
    ensures |r| <= |s| && r == s[|s| - |r|..]
    ensures AllSpace(s[..|s| - |r|])
    ensures r == [] || !IsSpace(r[0])
  {
    if |s| > 0 && IsSpace(s[0]) then
      var r := TrimStart(s[1..]);
      assert s[..|s| - |r|] == [s[0]] + s[1..][..|s| - 1 - |r|];
      r
    else s
  }

  /** `s` without its trailing white space. */
  function TrimEnd(s: string): (r: string)
    ensures |r| <= |s| && r == s[..|r|]
    ensures AllSpace(s[|r|..])
    ensures r == [] || !IsSpace(r[|r| - 1])
  {
    if |s| > 0 && IsSpace(s[|s| - 1]) then
      var r := TrimEnd(s[..|s| - 1]);
      assert s[|r|..] == s[..|s| - 1][|r|..] + [s[|s| - 1]];
      r
    else s
  }

  /** `s.trim()`. */
  function Trim(s: string): (r: string)
    ensures Trimmed(r)
    ensures InfixBetweenSpaces(r, s)
  {
    var t := TrimStart(s);
    var r := TrimEnd(t);
    InfixWitness(r, s, |s| - |t|);
    r
  }

  lemma InfixWitness(r: string, s: string, i: int)
    requires 0 <= i <= |s| && AllSpace(s[..i])
    requires |r| <= |s| - i && r == s[i..][..|r|] && AllSpace(s[i..][|r|..])
    ensures InfixBetweenSpaces(r, s)
  {
    assert s[i..i + |r|] == r;
    assert s[i + |r|..] == s[i..][|r|..];
  }

  lemma SpaceBefore(s: string, i: int, k: int)
    requires 0 <= k < i <= |s| && AllSpace(s[..i])
    ensures IsSpace(s[k])
  {
    assert s[..i][k] == s[k];
  }

  lemma SpaceAfter(s: string, i: int, k: int)
    requires 0 <= i <= k < |s| && AllSpace(s[i..])
    ensures IsSpace(s[k])
  {
    assert s[i..][k - i] == s[k];
  }

  /** Only one position of `s` holds a non-space character with nothing but
      white space before it. */
  lemma FirstNonSpaceUnique(s: string, i: int, j: int)
    requires 0 <= i < |s| && 0 <= j < |s|
    requires AllSpace(s[..i]) && !IsSpace(s[i])
    requires AllSpace(s[..j]) && !IsSpace(s[j])
    ensures i == j
  {
    if i < j { SpaceBefore(s, j, i); }
    if j < i { SpaceBefore(s, i, j); }
  }

  /** Only one position of `s` holds a non-space character with nothing but
      white space after it. */
  lemma LastNonSpaceUnique(s: string, i: int, j: int)
    requires 0 <= i < |s| && 0 <= j < |s|
    requires AllSpace(s[i + 1..]) && !IsSpace(s[i])
    requires AllSpace(s[j + 1..]) && !IsSpace(s[j])
    ensures i == j
  {
    if i < j { SpaceAfter(s, i + 1, j); }
    if j < i { SpaceAfter(s, j + 1, i); }
  }

  /** A non-empty trimmed infix starts and ends with non-space characters of `s`. */
  lemma InfixEnds(r: string, s: string, i: int)
    requires r != [] && Trimmed(r)
    requires 0 <= i <= |s| - |r| && s[i..i + |r|] == r
    ensures !IsSpace(s[i]) && !IsSpace(s[i + |r| - 1])
  {
    assert s[i] == r[0];
    assert s[i + |r| - 1] == r[|r| - 1];
  }

  /** An empty trimmed infix means `s` is all white space. */
  lemma EmptyInfixAllSpace(s: string, i: int, k: int)
    requires 0 <= i <= |s| && AllSpace(s[..i]) && AllSpace(s[i..])
    requires 0 <= k < |s|
    ensures IsSpace(s[k])
  {
    if k < i { SpaceBefore(s, i, k); } else { SpaceAfter(s, i, k); }
  }

  /** Two non-empty trimmed infixes with only white space around them start
      and end at the same positions of `s`. */
  lemma TrimUniqueNonEmpty(r1: string, r2: string, s: string, i1: int, i2: int)
    requires r1 != [] && Trimmed(r1) && 0 <= i1 <= |s| - |r1| && s[i1..i1 + |r1|] == r1
    requires AllSpace(s[..i1]) && AllSpace(s[i1 + |r1|..])
    requires r2 != [] && Trimmed(r2) && 0 <= i2 <= |s| - |r2| && s[i2..i2 + |r2|] == r2
    requires AllSpace(s[..i2]) && AllSpace(s[i2 + |r2|..])
    ensures r1 == r2
  {
    InfixEnds(r1, s, i1);
    InfixEnds(r2, s, i2);
    FirstNonSpaceUnique(s, i1, i2);
    LastNonSpaceUnique(s, i1 + |r1| - 1, i2 + |r2| - 1);
  }

  /** A string with no white space at its ends is the only such infix of
      itself and any white-space padding: `Trim` is fully determined by its
      contract. */
  lemma TrimUnique(r1: string, r2: string, s: string)
    requires Trimmed(r1) && InfixBetweenSpaces(r1, s)
    requires Trimmed(r2) && InfixBetweenSpaces(r2, s)
    ensures r1 == r2
  {
    var i1 :| 0 <= i1 <= |s| - |r1| && s[i1..i1 + |r1|] == r1 && AllSpace(s[..i1]) && AllSpace(s[i1 + |r1|..]);
    var i2 :| 0 <= i2 <= |s| - |r2| && s[i2..i2 + |r2|] == r2 && AllSpace(s[..i2]) && AllSpace(s[i2 + |r2|..]);
    if r1 != [] && r2 != [] {
      TrimUniqueNonEmpty(r1, r2, s, i1, i2);
    } else if r1 != [] {
      InfixEnds(r1, s, i1);
      EmptyInfixAllSpace(s, i2, i1);
    } else if r2 != [] {
      InfixEnds(r2, s, i2);
      EmptyInfixAllSpace(s, i1, i2);
    }
  }

  /** Trimming twice is trimming once. */
  lemma TrimIdempotent(s: string)
    ensures Trim(Trim(s)) == Trim(s)
  {
    var t := Trim(s);
    assert t[0..0 + |t|] == t && t[..0] == [] && t[|t|..] == [];
    assert InfixBetweenSpaces(t, t);
    TrimUnique(Trim(t), t, t);
  }

  /** Leading white space makes no difference to `TrimStart`. */
  lemma {:induction false} TrimStartSkipsSpace(w: string, s: string)
    requires AllSpace(w)
    ensures TrimStart(w + s) == TrimStart(s)
    decreases |w|
  {
    if w != [] {
      assert (w + s)[0] == w[0];
      assert (w + s)[1..] == w[1..] + s;
      TrimStartSkipsSpace(w[1..], s);
    } else {
      assert w + s == s;
    }
  }

  /** Cutting the leading white space first changes nothing about `Trim`. */
  lemma TrimAfterTrimStart(s: string)
    ensures Trim(TrimStart(s)) == Trim(s)
  {
    var t := TrimStart(s);
    assert TrimStart(t) == t;
  }

  /** `TrimStart` empties exactly the all-white-space strings. */
  lemma TrimStartEmptyIffAllSpace(s: string)
    ensures TrimStart(s) == [] <==> AllSpace(s)
  {
    var t := TrimStart(s);
    if t != [] {
      assert s[|s| - |t|] == t[0];
    } else {
      assert s[..|s|] == s;
    }
  }

  /** `Trim` empties exactly the all-white-space strings. */
  lemma TrimEmptyIffAllSpace(s: string)
    ensures Trim(s) == [] <==> AllSpace(s)
  {
    TrimStartEmptyIffAllSpace(s);
    var t := TrimStart(s);
    if t != [] {
      assert !IsSpace(t[0]);
    }
  }

  /** JavaScript's `s || null` on a string: the empty string is falsy. */
  function OrNull(s: string): (r: Option<string>)
    ensures r.None? <==> s == []
    ensures r.Some? ==> r.value == s
  {
    if s == [] then None else Some(s)
  }

  /** `p` occurs in `s` at position `i`. */
  predicate OccursAt(s: string, p: string, i: int) {
    0 <= i && i + |p| <= |s| && s[i..i + |p|] == p
  }

  /** `s.includes(p)`, searching from the left. */
  function Includes(s: string, p: string): (r: bool)
    decreases |s|
  {
    if |p| > |s| then false
    else if s[..|p|] == p then true
    else if |s| == 0 then false
    else Includes(s[1..], p)
  }

  /** `Includes` holds exactly when `p` occurs somewhere in `s`. */
  lemma {:induction false} IncludesIffOccurs(s: string, p: string)
    ensures Includes(s, p) <==> exists i :: OccursAt(s, p, i)
    decreases |s|
  {
    if |p| > |s| {
    } else if s[..|p|] == p {
      assert OccursAt(s, p, 0);
    } else if |s| == 0 {
    } else {
      IncludesIffOccurs(s[1..], p);
      if Includes(s, p) {
        var i :| OccursAt(s[1..], p, i);
        OccursShift(s, p, i);
      } else {
        forall i | OccursAt(s, p, i)
          ensures false
        {
          OccursUnshift(s, p, i);
        }
      }
    }
  }

  lemma OccursShift(s: string, p: string, i: int)
    requires |s| > 0 && OccursAt(s[1..], p, i)
    ensures OccursAt(s, p, i + 1)
  {
    assert s[1..][i..i + |p|] == s[i + 1..i + 1 + |p|];
  }

  lemma OccursUnshift(s: string, p: string, i: int)
    requires |s| > 0 && |p| <= |s| && s[..|p|] != p && OccursAt(s, p, i)
    ensures OccursAt(s[1..], p, i - 1)
  {
    assert i != 0;
    assert s[1..][i - 1..i - 1 + |p|] == s[i..i + |p|];
  }

  /** `s.split(c)[0]`: the part of `s` before the first `c`, or all of `s`. */
  function BeforeFirst(s: string, c: char): (r: string)
    ensures |r| <= |s| && r == s[..|r|]
    ensures c !in r
    ensures |r| < |s| ==> s[|r|] == c
  {
    if |s| == 0 || s[0] == c then [] else [s[0]] + BeforeFirst(s[1..], c)
  }
}
