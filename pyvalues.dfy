/** Python values and string operations that the cluster code relies on:
    None, truthiness, `'%s' %` formatting of numbers, `str.split()`,
    `' '.join(...)`, substring tests and `|` on integers. */
module PyValues {

  datatype Option<+T> = None | Some(value: T)

  /** Python truthiness of an optional string: both None and '' are false. */
  predicate Truthy(o: Option<string>) {
    o.Some? && o.value != ""
  }

  /** `'%s' % x` for an optional string: None is printed as "None". */
  function ShowOpt(o: Option<string>): string {
    if o.Some? then o.value else "None"
  }

  // ---------------------------------------------------------------------
  // Decimal digits

  predicate IsDigit(c: char) {
    '0' <= c <= '9'
  }

  predicate AllDigits(s: string) {
    forall i :: 0 <= i < |s| ==> IsDigit(s[i])
  }

  function DigitChar(d: nat): (c: char)
    requires d < 10
    ensures IsDigit(c)
  {
    ('0' as int + d) as char
  }

  /** `int(s)` for a string of decimal digits. */
  function DigitsValue(s: string): nat
    requires AllDigits(s)
    decreases |s|
  {
    if s == [] then 0
    else 10 * DigitsValue(s[..|s| - 1]) + (s[|s| - 1] as int - '0' as int)
  }

  /** `'%s' % n` for a natural number. */
  function ShowNat(n: nat): (s: string)
    ensures s != [] && AllDigits(s)
  {
    if n < 10 then [DigitChar(n)] else ShowNat(n / 10) + [DigitChar(n % 10)]
  }

  /** `'%s' % i` for any integer: a minus sign, then the digits. */
  function ShowInt(i: int): string {
    if i < 0 then "-" + ShowNat(-i) else ShowNat(i)
  }

  /** Reading back what ShowNat printed gives the number again. */
  lemma {:induction false} ShowNatRoundTrip(n: nat)
    ensures DigitsValue(ShowNat(n)) == n
  {
    if n >= 10 {
      var s := ShowNat(n);
      assert s[..|s| - 1] == ShowNat(n / 10);
      ShowNatRoundTrip(n / 10);
    }
  }

  // ---------------------------------------------------------------------
  // Substrings

  /** Python's `needle in hay` on strings. */
  predicate Contains(hay: string, needle: string)
    decreases |hay|
  {
    needle <= hay || (hay != [] && Contains(hay[1..], needle))
  }

  // ---------------------------------------------------------------------
  // Words: `s.split()` and `' '.join(ws)`

  /** The whitespace characters of Python 2 `str.split()`: space, \t, \n, \v, \f, \r. */
  predicate IsSpace(c: char) {
    c == ' ' || '\t' <= c <= '\r'
  }

  /** A word of `str.split()`: non-empty, without whitespace. */
  predicate IsWord(w: string) {
    w != [] && forall i :: 0 <= i < |w| ==> !IsSpace(w[i])
  }

  /** Length of the leading run of non-space characters. */
  function WordEnd(s: string): (k: nat)
    ensures k <= |s|
    ensures forall i :: 0 <= i < k ==> !IsSpace(s[i])
    ensures k < |s| ==> IsSpace(s[k])
  {
    if s == [] || IsSpace(s[0]) then 0 else 1 + WordEnd(s[1..])
  }

  /** `s.split()`: the maximal runs of non-space characters, in order. */
  function Words(s: string): (ws: seq<string>)
    ensures forall w :: w in ws ==> IsWord(w)
    decreases |s|
  {
    if s == [] then []
    else if IsSpace(s[0]) then Words(s[1..])
    else
      var k := WordEnd(s);
      [s[..k]] + Words(s[k..])
  }

  /** `sep.join(ws)`. */
  function JoinWith(ws: seq<string>, sep: string): string
    decreases |ws|
  {
    if ws == [] then ""
    else if |ws| == 1 then ws[0]
    else ws[0] + sep + JoinWith(ws[1..], sep)
  }

  lemma {:induction false} WordEndOfWord(w: string, t: string)
    requires forall i :: 0 <= i < |w| ==> !IsSpace(w[i])
    requires t == [] || IsSpace(t[0])
    ensures WordEnd(w + t) == |w|
  {
    if w != [] {
      assert (w + t)[1..] == w[1..] + t;
      WordEndOfWord(w[1..], t);
    } else {
      assert w + t == t;
    }
  }

  /** A word followed by whitespace (or nothing) is split off as the first word. */
  lemma WordsOfWordThen(w: string, rest: string)
    requires IsWord(w)
    requires rest == [] || IsSpace(rest[0])
    ensures Words(w + rest) == [w] + Words(rest)
  {
    var s := w + rest;
    WordEndOfWord(w, rest);
    assert s[..|w|] == w;
    assert s[|w|..] == rest;
    assert s[0] == w[0];
  }

  /** Splitting words joined by single spaces gives the words back; text
      after them that starts with whitespace is split separately. */
  lemma {:induction false} WordsOfJoin(ws: seq<string>, t: string)
    requires forall w :: w in ws ==> IsWord(w)
    requires t == [] || IsSpace(t[0])
    ensures Words(JoinWith(ws, " ") + t) == ws + Words(t)
    decreases |ws|
  {
    if ws == [] {
      assert JoinWith(ws, " ") + t == t;
    } else if |ws| == 1 {
      assert ws[0] in ws;
      WordsOfWordThen(ws[0], t);
    } else {
      var w := ws[0];
      assert w in ws;
      var tail := JoinWith(ws[1..], " ") + t;
      assert JoinWith(ws, " ") + t == w + (" " + tail);
      WordsOfWordThen(w, " " + tail);
      assert (" " + tail)[1..] == tail;
      WordsOfJoin(ws[1..], t);
      assert ws == [w] + ws[1..];
    }
  }

  // ---------------------------------------------------------------------
  // Python's `|` on (unbounded, two's-complement) integers

  function Abs(i: int): nat {
    if i < 0 then -i else i
  }

  /** `a | b` on Python integers; a negative integer has infinitely many leading ones.
      Dafny's `/` and `%` by 2 round towards minus infinity, as Python's `>>` and `& 1` do. */
  function PyOr(a: int, b: int): int
    decreases Abs(a) + Abs(b)
  {
    if a == 0 then b
    else if b == 0 then a
    else if a == -1 || b == -1 then -1
    else 2 * PyOr(a / 2, b / 2) + (if a % 2 == 1 || b % 2 == 1 then 1 else 0)
  }

  /** `a | b` is zero exactly when both operands are. */
  lemma {:induction false} PyOrZero(a: int, b: int)
    ensures PyOr(a, b) == 0 <==> a == 0 && b == 0
    decreases Abs(a) + Abs(b)
  {
    if a != 0 && b != 0 && a != -1 && b != -1 {
      PyOrZero(a / 2, b / 2);
    }
  }

  /** `result |= code` over a list of codes, starting from 0. */
  function OrAll(codes: seq<int>): int
    decreases |codes|
  {
    if codes == [] then 0 else PyOr(OrAll(codes[..|codes| - 1]), codes[|codes| - 1])
  }

  /** The accumulated `|` of exit codes is nonzero exactly when some code is. */
  lemma {:induction false} OrAllZero(codes: seq<int>)
    ensures OrAll(codes) == 0 <==> forall i :: 0 <= i < |codes| ==> codes[i] == 0
    decreases |codes|
  {
    if codes != [] {
      var init := codes[..|codes| - 1];
      OrAllZero(init);
      PyOrZero(OrAll(init), codes[|codes| - 1]);
      assert forall i :: 0 <= i < |init| ==> init[i] == codes[i];
    }
  }
}
