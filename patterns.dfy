/** The two regular expressions of the node code, `\d+\.\d+\.\d+\.\d+` (an IPv4
    literal) and `\d+\.\d+` (a version number), both of the shape
    `\d+(\.\d+){g-1}`, and what `re.findall(...)[0]` returns for them. */
module Patterns {
  import opened PyValues

  /** A string matched by `\d+(\.\d+){g-1}`: g non-empty runs of digits separated
      by single dots, read one character at a time. */
  ghost predicate IsGroups(t: string, g: nat)
    decreases |t|
  {
    if t == [] || !IsDigit(t[0]) then false
    else if |t| == 1 then g == 1
    else if IsDigit(t[1]) then IsGroups(t[1..], g)
    else t[1] == '.' && g >= 2 && IsGroups(t[2..], g - 1)
  }

  /** A run of digits followed by nothing (one group) or by a dot and g-1 groups. */
  lemma {:induction false} GroupsOfRun(d: string, rest: string, g: nat)
    requires d != [] && AllDigits(d)
    requires (rest == [] && g == 1) || (g >= 2 && rest != [] && rest[0] == '.' && IsGroups(rest[1..], g - 1))
    ensures IsGroups(d + rest, g)
    decreases |d|
  {
    var t := d + rest;
    assert t[0] == d[0];
    if |d| > 1 {
      assert t[1..] == d[1..] + rest;
      assert t[1] == d[1];
      GroupsOfRun(d[1..], rest, g);
    } else if rest != [] {
      assert t[1] == rest[0];
      assert t[2..] == rest[1..];
    }
  }

  /** Where a match of g groups starting at i leaves its first run of digits. */
  lemma {:induction false} GroupsAt(s: string, i: nat, j: nat, g: nat)
    requires i <= j <= |s| && IsGroups(s[i..j], g)
    ensures RunEnd(s, i) > i
    ensures g == 1 ==> RunEnd(s, i) >= j
    ensures g != 1 ==> g >= 2 && RunEnd(s, i) < j && s[RunEnd(s, i)] == '.'
                       && IsGroups(s[RunEnd(s, i) + 1..j], g - 1)
    decreases j - i
  {
    var t := s[i..j];
    assert s[i] == t[0];
    if |t| > 1 {
      assert s[i + 1] == t[1];
      if IsDigit(t[1]) {
        assert t[1..] == s[i + 1..j];
        GroupsAt(s, i + 1, j, g);
      } else {
        assert t[2..] == s[i + 2..j];
      }
    }
  }

  ghost predicate IsDottedQuad(t: string) {
    IsGroups(t, 4)
  }

  /** End of the run of digits that starts at i (i itself when s[i] is not a digit). */
  function RunEnd(s: string, i: nat): (k: nat)
    requires i <= |s|
    ensures i <= k <= |s|
    ensures forall m :: i <= m < k ==> IsDigit(s[m])
    ensures k < |s| ==> !IsDigit(s[k])
    decreases |s| - i
  {
    if i < |s| && IsDigit(s[i]) then RunEnd(s, i + 1) else i
  }

  /** A digit run that stops at a non-digit is exactly the run RunEnd finds. */
  lemma RunEndExact(s: string, i: nat, k: nat)
    requires i <= k <= |s|
    requires forall m :: i <= m < k ==> IsDigit(s[m])
    requires k < |s| ==> !IsDigit(s[k])
    ensures RunEnd(s, i) == k
    decreases k - i
  {
    if i < k {
      RunEndExact(s, i + 1, k);
    }
  }

  /** The digits of a slice are digits of the string. */
  lemma SliceDigits(s: string, i: nat, k: nat)
    requires i <= k <= |s| && AllDigits(s[i..k])
    ensures forall m :: i <= m < k ==> IsDigit(s[m])
  {
    forall m | i <= m < k ensures IsDigit(s[m]) {
      assert s[i..k][m - i] == s[m];
    }
  }

  /** The regular-expression engine's attempt to match `\d+(\.\d+){g-1}` at
      position i: each `\d+` is greedy, and giving digits back never helps
      because a shorter run is followed by a digit, not by a dot. */
  function MatchGroups(s: string, i: nat, g: nat): (e: Option<nat>)
    requires i <= |s| && g >= 1
    ensures e.Some? ==> i < e.value <= |s| && IsGroups(s[i..e.value], g)
    ensures e.Some? ==> e.value == |s| || !IsDigit(s[e.value])
    decreases g
  {
    var k := RunEnd(s, i);
    if k == i then None
    else if g == 1 then
      assert AllDigits(s[i..k]) && s[i..k] + [] == s[i..k];
      GroupsOfRun(s[i..k], [], 1);
      Some(k)
    else if k < |s| && s[k] == '.' then
      match MatchGroups(s, k + 1, g - 1)
      case None => None
      case Some(e) =>
        assert AllDigits(s[i..k]) && s[i..e] == s[i..k] + s[k..e] && s[k..e][1..] == s[k + 1..e];
        GroupsOfRun(s[i..k], s[k..e], g);
        Some(e)
    else None
  }

  /** Whenever the pattern matches s[i..j], the engine's attempt at i succeeds
      and reaches at least j. */
  lemma {:induction false} MatchGroupsComplete(s: string, i: nat, j: nat, g: nat)
    requires i <= j <= |s| && g >= 1
    requires IsGroups(s[i..j], g)
    ensures MatchGroups(s, i, g).Some? && MatchGroups(s, i, g).value >= j
    decreases g
  {
    GroupsAt(s, i, j, g);
    if g > 1 {
      MatchGroupsComplete(s, RunEnd(s, i) + 1, j, g - 1);
    }
  }

  /** `re.findall(pattern, s)[0]` as a span: the match at the smallest starting
      position from `from` on, or None when there is none. */
  function FirstMatch(s: string, g: nat, from: nat): (r: Option<(nat, nat)>)
    requires g >= 1 && from <= |s|
    ensures r.Some? ==> from <= r.value.0 < r.value.1 <= |s|
    ensures r.Some? ==> MatchGroups(s, r.value.0, g) == Some(r.value.1)
    decreases |s| - from
  {
    match MatchGroups(s, from, g)
    case Some(e) => Some((from, e))
    case None => if from == |s| then None else FirstMatch(s, g, from + 1)
  }

  /** The first match starts no later than any place where the pattern matches,
      and there is a first match whenever the pattern matches anywhere. */
  lemma {:induction false} FirstMatchLeftmost(s: string, g: nat, from: nat, i: nat, j: nat)
    requires g >= 1 && from <= i <= j <= |s|
    requires IsGroups(s[i..j], g)
    ensures FirstMatch(s, g, from).Some? && FirstMatch(s, g, from).value.0 <= i
    decreases i - from
  {
    if MatchGroups(s, from, g).None? {
      if from == i {
        MatchGroupsComplete(s, i, j, g);
      }
      FirstMatchLeftmost(s, g, from + 1, i, j);
    }
  }

  /** `_ipMatchRegex.findall(s)[0]` when there is a match. */
  function FirstDottedQuad(s: string): Option<string> {
    match FirstMatch(s, 4, 0)
    case Some((i, e)) => Some(s[i..e])
    case None => None
  }

  ghost predicate HasDottedQuad(s: string) {
    exists i, j :: 0 <= i <= j <= |s| && IsDottedQuad(s[i..j])
  }

  /** FirstDottedQuad finds a dotted quad exactly when s holds one; it is the
      leftmost one, and it is not cut short inside its last number. */
  lemma FirstDottedQuadSpec(s: string)
    ensures FirstDottedQuad(s).Some? <==> HasDottedQuad(s)
    ensures FirstDottedQuad(s).Some? ==>
      exists i, e :: 0 <= i < e <= |s| && FirstDottedQuad(s).value == s[i..e]
        && IsDottedQuad(s[i..e]) && (e == |s| || !IsDigit(s[e]))
        && forall i', j' :: 0 <= i' <= j' <= |s| && IsDottedQuad(s[i'..j']) ==> i <= i'
  {
    var r := FirstMatch(s, 4, 0);
    if HasDottedQuad(s) {
      var i, j :| 0 <= i <= j <= |s| && IsDottedQuad(s[i..j]);
      FirstMatchLeftmost(s, 4, 0, i, j);
    }
    if r.Some? {
      var i, e := r.value.0, r.value.1;
      assert IsDottedQuad(s[i..e]);
      forall i', j' | 0 <= i' <= j' <= |s| && IsDottedQuad(s[i'..j']) ensures i <= i' {
        FirstMatchLeftmost(s, 4, 0, i', j');
      }
    }
  }

  // ---------------------------------------------------------------------
  // Version numbers

  /** A `major.minor` version, as `StrictVersion` reads the text `\d+\.\d+`. */
  datatype Version = Version(major: nat, minor: nat)

  /** `StrictVersion(findall('\d+\.\d+', out)[0])`, or None where Python's
      `[0]` raises IndexError because the output holds no version. */
  function FirstVersion(out: string): Option<Version> {
    match FirstMatch(out, 2, 0)
    case None => None
    case Some((i, e)) =>
      var k := RunEnd(out, i);
      Some(Version(DigitsValue(out[i..k]), DigitsValue(out[k + 1..e])))
  }

  /** `StrictVersion(a) < StrictVersion(b)`: numeric, major first, then minor. */
  predicate VersionBelow(a: Version, b: Version) {
    a.major < b.major || (a.major == b.major && a.minor < b.minor)
  }

  /** The text `major.minor` as a version command prints it. */
  function ShowVersion(v: Version): string {
    ShowNat(v.major) + "." + ShowNat(v.minor)
  }

  /** Reading the version back out of a command's output: when the text before
      it holds no digit and the text after it does not continue the number,
      FirstVersion returns exactly the version printed. */
  lemma FirstVersionOfOutput(prefix: string, v: Version, suffix: string)
    requires forall m :: 0 <= m < |prefix| ==> !IsDigit(prefix[m])
    requires suffix == [] || !IsDigit(suffix[0])
    ensures FirstVersion(prefix + ShowVersion(v) + suffix) == Some(v)
  {
    var a, b := ShowNat(v.major), ShowNat(v.minor);
    assert prefix + ShowVersion(v) + suffix == prefix + a + "." + b + suffix;
    FirstVersionOfText(prefix, a, b, suffix);
    ShowNatRoundTrip(v.major);
    ShowNatRoundTrip(v.minor);
  }

  /** Two runs of digits joined by a dot, with no digit before them and
      none right after, are read as that version. */
  lemma FirstVersionOfText(prefix: string, a: string, b: string, suffix: string)
    requires forall m :: 0 <= m < |prefix| ==> !IsDigit(prefix[m])
    requires a != [] && AllDigits(a) && b != [] && AllDigits(b)
    requires suffix == [] || !IsDigit(suffix[0])
    ensures FirstVersion(prefix + a + "." + b + suffix) == Some(Version(DigitsValue(a), DigitsValue(b)))
  {
    var s := prefix + a + "." + b + suffix;
    var p := |prefix|;
    var k := p + |a|;
    var e := k + 1 + |b|;
    assert s[..p] == prefix;
    assert s[p..k] == a;
    assert s[k] == '.';
    assert s[k + 1..e] == b;
    assert s[e..] == suffix;
    VersionSpanMatches(s, p, k, e);
    FirstMatchFrom(s, 2, p, e);
  }

  /** Digits on [p, k), a dot at k, digits on [k+1, e) and no digit at e:
      the engine matches `\d+\.\d+` at p up to e. */
  lemma VersionSpanMatches(s: string, p: nat, k: nat, e: nat)
    requires p < k && k + 1 < e <= |s| && s[k] == '.'
    requires AllDigits(s[p..k]) && AllDigits(s[k + 1..e])
    requires e < |s| ==> s[e..] != [] && !IsDigit(s[e..][0])
    requires forall m :: 0 <= m < p ==> !IsDigit(s[..p][m])
    ensures MatchGroups(s, p, 2) == Some(e) && RunEnd(s, p) == k
    ensures forall m :: 0 <= m < p ==> !IsDigit(s[m])
  {
    SliceDigits(s, p, k);
    SliceDigits(s, k + 1, e);
    assert e < |s| ==> s[e] == s[e..][0];
    RunEndExact(s, p, k);
    RunEndExact(s, k + 1, e);
    assert MatchGroups(s, k + 1, 1) == Some(e);
    forall m | 0 <= m < p ensures !IsDigit(s[m]) {
      assert s[m] == s[..p][m];
    }
  }

  /** When no earlier position starts a digit, the first match is the one at p. */
  lemma FirstMatchFrom(s: string, g: nat, p: nat, e: nat)
    requires g >= 1 && p <= |s|
    requires forall m :: 0 <= m < p ==> !IsDigit(s[m])
    requires MatchGroups(s, p, g) == Some(e)
    ensures FirstMatch(s, g, 0) == Some((p, e))
  {
    var from := p;
    while from > 0
      invariant 0 <= from <= p
      invariant FirstMatch(s, g, from) == Some((p, e))
    {
      from := from - 1;
      assert RunEnd(s, from) == from;
    }
  }
}
