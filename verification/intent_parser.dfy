/** How the planner assistant reads a question (PlannerChatbot.jsx):
    `trim`, `toLowerCase`, the coordinate pattern
    `(-?\d+(?:\.\d+)?)\s*,\s*(-?\d+(?:\.\d+)?)` of `parseLatLon`, and the
    ordered keyword rules of `parseIntent`.

    The coordinate pattern is modelled by a deterministic scanner: at any
    start position, every greedy choice of the pattern is also the only one
    that can lead to a match (after a digit run, the pattern continues only
    with `.`, whitespace or `,`; after whitespace only with `,`, `-` or a
    digit), so backtracking never finds a match the scanner misses, and the
    leftmost start where the scanner succeeds is the one the regex reports. */
module IntentParser {
  import opened Common
  import opened LocalEngine

  // ------------------------------------------------------------ characters

  predicate IsDigit(c: char) { '0' <= c <= '9' }

  /** The characters matched by JavaScript's `\s` and removed by `trim`. */
  predicate IsSpace(c: char)
  {
    c == ' ' || c == '\t' || c == '\n' || c == '\U{000B}' || c == '\U{000C}' || c == '\r'
    || c == '\U{00A0}' || c == '\U{1680}' || ('\U{2000}' <= c <= '\U{200A}')
    || c == '\U{2028}' || c == '\U{2029}' || c == '\U{202F}' || c == '\U{205F}'
    || c == '\U{3000}' || c == '\U{FEFF}'
  }

  /** The value of a decimal digit (0 for any other character). */
  function DigitOf(c: char): (d: nat)
    ensures d <= 9
  {
    if IsDigit(c) then c as int - '0' as int else 0
  }

  // ----------------------------------------------------------------- trim

  /** The number of leading whitespace characters. */
  function LeadingSpaces(s: string): (n: nat)
    ensures n <= |s|
  {
    if s != [] && IsSpace(s[0]) then 1 + LeadingSpaces(s[1..]) else 0
  }

  /** The leading run is whitespace and stops at the first other character. */
  lemma {:induction false} LeadingSpacesSpec(s: string)
    ensures forall k :: 0 <= k < LeadingSpaces(s) ==> IsSpace(s[k])
    ensures LeadingSpaces(s) < |s| ==> !IsSpace(s[LeadingSpaces(s)])
  {
    if s != [] && IsSpace(s[0]) {
      LeadingSpacesSpec(s[1..]);
    }
  }

  /** The number of trailing whitespace characters. */
  function TrailingSpaces(s: string): (n: nat)
    ensures n <= |s|
  {
    if s != [] && IsSpace(s[|s| - 1]) then 1 + TrailingSpaces(s[..|s| - 1]) else 0
  }

  /** The trailing run is whitespace and stops at the last other character. */
  lemma {:induction false} TrailingSpacesSpec(s: string)
    ensures forall k :: |s| - TrailingSpaces(s) <= k < |s| ==> IsSpace(s[k])
    ensures TrailingSpaces(s) < |s| ==> !IsSpace(s[|s| - TrailingSpaces(s) - 1])
  {
    if s != [] && IsSpace(s[|s| - 1]) {
      TrailingSpacesSpec(s[..|s| - 1]);
    }
  }

  /** `String.prototype.trim`: the text without surrounding whitespace. */
  function Trim(s: string): string
  {
    var lead := LeadingSpaces(s);
    if lead == |s| then []
    else
      LeadingSpacesSpec(s);
      TrailingSpacesSpec(s);
      s[lead..|s| - TrailingSpaces(s)]
  }

  /** Trimming keeps a middle slice, drops only whitespace around it, and
      leaves no whitespace at either end. */
  lemma TrimShape(s: string)
    ensures var r := Trim(s);
            && (r == [] || (!IsSpace(r[0]) && !IsSpace(r[|r| - 1])))
            && (r == [] <==> forall k :: 0 <= k < |s| ==> IsSpace(s[k]))
            && exists i, j :: 0 <= i <= j <= |s| && r == s[i..j]
                 && (forall k :: 0 <= k < i ==> IsSpace(s[k]))
                 && (forall k :: j <= k < |s| ==> IsSpace(s[k]))
  {
    LeadingSpacesSpec(s);
    TrailingSpacesSpec(s);
    var lead := LeadingSpaces(s);
    if lead == |s| {
      assert s[lead..lead] == [];
    } else {
      assert !IsSpace(s[lead]);
      var trail := TrailingSpaces(s);
      assert s[lead..|s| - trail] == Trim(s);
    }
  }

  /** Trimming twice is trimming once. */
  lemma {:induction false} TrimIdempotent(s: string)
    ensures Trim(Trim(s)) == Trim(s)
  {
    var r := Trim(s);
    TrimShape(s);
    if r != [] {
      assert LeadingSpaces(r) == 0;
      assert TrailingSpaces(r) == 0;
      assert r[0..|r| - 0] == r;
    }
  }

  // ----------------------------------------------------------- lower case

  function LowerChar(c: char): char
  {
    if 'A' <= c <= 'Z' then (c as int + 32) as char else c
  }

  /** `String.prototype.toLowerCase` on the ASCII letters. */
  function Lower(s: string): (r: string)
    ensures |r| == |s|
    ensures forall k :: 0 <= k < |s| ==> r[k] == LowerChar(s[k])
    ensures forall k :: 0 <= k < |r| ==> !('A' <= r[k] <= 'Z')
  {
    seq(|s|, k requires 0 <= k < |s| => LowerChar(s[k]))
  }

  // ------------------------------------------------------------- numerals

  /** A match of `-?\d+(?:\.\d+)?`: a sign, the integer digits and the
      fraction digits (empty when there is no fractional part). */
  datatype Numeral = Numeral(negative: bool, whole: string, fraction: string)

  predicate AllDigits(d: string) { forall k :: 0 <= k < |d| ==> IsDigit(d[k]) }

  predicate ValidNumeral(a: Numeral)
  {
    a.whole != [] && AllDigits(a.whole) && AllDigits(a.fraction)
  }

  function Sign(negative: bool): string { if negative then "-" else "" }

  function FractionText(fraction: string): string { if fraction == [] then "" else "." + fraction }

  /** The text a numeral is written as. */
  function Text(a: Numeral): string
  {
    Sign(a.negative) + a.whole + FractionText(a.fraction)
  }

  function SignWidth(a: Numeral): nat { if a.negative then 1 else 0 }

  /** The position just after the integer digits. */
  function WholeEnd(a: Numeral): nat { SignWidth(a) + |a.whole| }

  /** The length of a numeral's text. */
  function Width(a: Numeral): nat
  {
    WholeEnd(a) + if a.fraction == [] then 0 else 1 + |a.fraction|
  }

  /** The width is the length of the numeral's text. */
  lemma WidthOfText(a: Numeral)
    ensures Width(a) == |Text(a)|
  {
  }

  /** The value of a digit string read as a whole number. */
  function WholeValue(d: string): nat
  {
    if d == [] then 0 else WholeValue(d[..|d| - 1]) * 10 + DigitOf(d[|d| - 1])
  }

  /** The value of a digit string read after a decimal point. */
  function FractionValue(d: string): real
  {
    if d == [] then 0.0 else (DigitOf(d[0]) as real + FractionValue(d[1..])) / 10.0
  }

  /** Fraction digits read after a point stay below one. */
  lemma {:induction false} FractionBounds(d: string)
    ensures 0.0 <= FractionValue(d) < 1.0
    decreases |d|
  {
    if d != [] {
      FractionBounds(d[1..]);
    }
  }

  /** `parseFloat` of a numeral's text. */
  function Value(a: Numeral): (v: real)
    ensures a.negative ==> v <= 0.0
    ensures !a.negative ==> v.Floor == WholeValue(a.whole)
    ensures a.negative ==> (-v).Floor == WholeValue(a.whole)
  {
    FractionBounds(a.fraction);
    var m := WholeValue(a.whole) as real + FractionValue(a.fraction);
    if a.negative then -m else m
  }

  /** Moving the point of a numeral one digit to the right multiplies its
      value by ten. */
  lemma ValueShift(a: Numeral)
    requires a.fraction != []
    ensures Value(Numeral(a.negative, a.whole + a.fraction[..1], a.fraction[1..])) == 10.0 * Value(a)
  {
    var w := a.whole + a.fraction[..1];
    assert w[..|w| - 1] == a.whole;
  }

  /** `v` with its decimal point moved `n` places to the right. */
  function Shift(v: real, n: nat): real
  {
    v * Pow10(n) as real
  }

  /** Moving the point `n + 1` places is moving it one place, then `n`. */
  lemma ShiftOnce(v: real, v2: real, n: nat)
    requires v2 == 10.0 * v
    ensures Shift(v, n + 1) == Shift(v2, n)
  {
  }

  /** `parseFloat` of a numeral with its point moved past every fraction
      digit is the signed whole number its digits spell without the point. */
  lemma {:induction false} ValueScaled(a: Numeral)
    ensures Shift(Value(a), |a.fraction|)
         == if a.negative then -(WholeValue(a.whole + a.fraction) as real) else WholeValue(a.whole + a.fraction) as real
    decreases |a.fraction|
  {
    if a.fraction == [] {
      assert a.whole + a.fraction == a.whole;
    } else {
      var b := Numeral(a.negative, a.whole + a.fraction[..1], a.fraction[1..]);
      ValueScaled(b);
      ValueShift(a);
      assert b.whole + b.fraction == a.whole + a.fraction;
      ShiftOnce(Value(a), Value(b), |b.fraction|);
    }
  }

  // -------------------------------------------------------------- scanner

  /** The length of the digit run starting at `i`. */
  function DigitsFrom(t: string, i: nat): (n: nat)
    requires i <= |t|
    ensures i + n <= |t|
    decreases |t| - i
  {
    if i < |t| && IsDigit(t[i]) then 1 + DigitsFrom(t, i + 1) else 0
  }

  /** The run is made of digits and stops at a non-digit or at the end. */
  lemma {:induction false} DigitsFromSpec(t: string, i: nat)
    requires i <= |t|
    ensures forall k :: i <= k < i + DigitsFrom(t, i) ==> IsDigit(t[k])
    ensures i + DigitsFrom(t, i) < |t| ==> !IsDigit(t[i + DigitsFrom(t, i)])
    decreases |t| - i
  {
    if i < |t| && IsDigit(t[i]) {
      DigitsFromSpec(t, i + 1);
    }
  }

  /** A run of `n` digits followed by a non-digit has length `n`. */
  lemma {:induction false} DigitsFromExact(t: string, i: nat, n: nat)
    requires i + n <= |t|
    requires forall k :: i <= k < i + n ==> IsDigit(t[k])
    requires i + n == |t| || !IsDigit(t[i + n])
    ensures DigitsFrom(t, i) == n
    decreases n
  {
    if n > 0 {
      DigitsFromExact(t, i + 1, n - 1);
    }
  }

  /** The length of the whitespace run starting at `i`. */
  function SpacesFrom(t: string, i: nat): (n: nat)
    requires i <= |t|
    ensures i + n <= |t|
    decreases |t| - i
  {
    if i < |t| && IsSpace(t[i]) then 1 + SpacesFrom(t, i + 1) else 0
  }

  /** A run of `n` whitespace characters followed by another character has length `n`. */
  lemma {:induction false} SpacesFromExact(t: string, i: nat, n: nat)
    requires i + n <= |t|
    requires forall k :: i <= k < i + n ==> IsSpace(t[k])
    requires i + n == |t| || !IsSpace(t[i + n])
    ensures SpacesFrom(t, i) == n
    decreases n
  {
    if n > 0 {
      SpacesFromExact(t, i + 1, n - 1);
    }
  }

  /** 1 when `t` starts with a minus sign, else 0. */
  function SignLength(t: string): nat
  {
    if t != [] && t[0] == '-' then 1 else 0
  }

  /** The number of fraction digits after a `.` at `e`, or 0 when no `\.\d` follows. */
  function FractionDigits(t: string, e: nat): (f: nat)
    requires e <= |t|
    ensures f > 0 <==> e + 1 < |t| && t[e] == '.' && IsDigit(t[e + 1])
    ensures f > 0 ==> e + 1 + f <= |t|
  {
    if e + 1 < |t| && t[e] == '.' && IsDigit(t[e + 1]) then DigitsFrom(t, e + 1) else 0
  }

  /** The numeral `-?\d+(?:\.\d+)?` matched at the start of `t`, if any,
      with the longest digit runs. */
  function ScanNumber(t: string): Option<Numeral>
  {
    var s0 := SignLength(t);
    var w := DigitsFrom(t, s0);
    if w == 0 then None
    else
      var e := s0 + w;
      Some(Numeral(s0 == 1, t[s0..e], FractionAt(t, e)))
  }

  /** The fraction digits after a `.` at `e`, empty when no `\.\d` follows. */
  function FractionAt(t: string, e: nat): string
    requires e <= |t|
  {
    var f := FractionDigits(t, e);
    if f > 0 then t[e + 1..e + 1 + f] else []
  }

  lemma FractionAtDigits(t: string, e: nat)
    requires e <= |t|
    ensures AllDigits(FractionAt(t, e))
  {
    if FractionDigits(t, e) > 0 {
      RunAllDigits(t, e + 1);
    }
  }

  /** What the scanner reads fits in `t`. */
  lemma ScanNumberWidth(t: string)
    requires ScanNumber(t).Some?
    ensures Width(ScanNumber(t).value) <= |t|
  {
  }

  /** A number is read exactly when a digit follows the optional minus sign. */
  lemma ScanNumberNone(t: string)
    ensures ScanNumber(t).None? <==> SignLength(t) == |t| || !IsDigit(t[SignLength(t)])
  {
  }

  /** What the scanner reads is a well-formed numeral whose text starts `t`. */
  lemma ScanNumberSound(t: string)
    requires ScanNumber(t).Some?
    ensures ValidNumeral(ScanNumber(t).value)
    ensures Text(ScanNumber(t).value) <= t
  {
    ScanNumberValid(t);
    ScanNumberPrefix(t);
  }

  lemma ScanNumberValid(t: string)
    requires ScanNumber(t).Some?
    ensures ValidNumeral(ScanNumber(t).value)
  {
    var s0 := SignLength(t);
    var e := s0 + DigitsFrom(t, s0);
    assert ScanNumber(t) == Some(Numeral(s0 == 1, t[s0..e], FractionAt(t, e)));
    RunAllDigits(t, s0);
    FractionAtDigits(t, e);
  }

  lemma ScanNumberPrefix(t: string)
    requires ScanNumber(t).Some?
    ensures Text(ScanNumber(t).value) <= t
  {
    var s0 := SignLength(t);
    var e := s0 + DigitsFrom(t, s0);
    var f := FractionDigits(t, e);
    assert ScanNumber(t) == Some(Numeral(s0 == 1, t[s0..e], FractionAt(t, e)));
    NumeralPrefix(t, s0, e, f);
  }

  /** The digit run starting at `i` is made of digits. */
  lemma RunAllDigits(t: string, i: nat)
    requires i <= |t|
    ensures AllDigits(t[i..i + DigitsFrom(t, i)])
  {
    DigitsFromSpec(t, i);
    var d := t[i..i + DigitsFrom(t, i)];
    forall k | 0 <= k < |d|
      ensures IsDigit(d[k])
    {
      assert d[k] == t[i + k];
    }
  }

  lemma {:induction false} NumeralPrefix(t: string, s0: nat, e: nat, f: nat)
    requires s0 == SignLength(t) && s0 < e <= |t|
    requires f > 0 ==> e + 1 + f <= |t| && t[e] == '.'
    ensures Text(Numeral(s0 == 1, t[s0..e], if f > 0 then t[e + 1..e + 1 + f] else [])) <= t
  {
    var frac := if f > 0 then t[e + 1..e + 1 + f] else [];
    var end := if f > 0 then e + 1 + f else e;
    assert t[..e] == t[..s0] + t[s0..e];
    assert t[..end] == t[..e] + t[e..end];
    assert t[..s0] == Sign(s0 == 1);
    if f > 0 {
      assert t[e..end] == "." + frac;
    }
    assert t[e..end] == FractionText(frac);
    assert Text(Numeral(s0 == 1, t[s0..e], frac)) == t[..end];
  }

  /** The two numerals of `a\s*,\s*b` matched at the start of `t`, if any. */
  function MatchPair(t: string): (r: Option<(Numeral, Numeral)>)
    ensures r.Some? ==> ScanNumber(t) == Some(r.value.0)
  {
    var first := ScanNumber(t);
    if first.None? then None
    else
      ScanNumberWidth(t);
      var k := SeparatorEnd(t, Width(first.value));
      if k.None? then None
      else
        var second := ScanNumber(t[k.value..]);
        if second.None? then None else Some((first.value, second.value))
  }

  /** `\s*,\s*` matched at `i`: the position after it, if it matches. */
  function SeparatorEnd(t: string, i: nat): (r: Option<nat>)
    requires i <= |t|
    ensures r.Some? ==> i < r.value <= |t|
  {
    var j := i + SpacesFrom(t, i);
    if j == |t| || t[j] != ',' then None else Some(j + 1 + SpacesFrom(t, j + 1))
  }

  /** The pattern tried at each start position of `t`, leftmost first. */
  function Attempts(t: string): (a: seq<Option<(Numeral, Numeral)>>)
    ensures |a| == |t| + 1
    ensures forall q :: 0 <= q <= |t| ==> a[q] == MatchPair(t[q..])
  {
    seq(|t| + 1, q requires 0 <= q <= |t| => MatchPair(t[q..]))
  }

  /** The first attempt at or after `from` that matched, with its position. */
  function FirstMatch<T>(attempts: seq<Option<T>>, from: nat): (r: Option<(nat, T)>)
    requires from <= |attempts|
    ensures r.Some? ==> from <= r.value.0 < |attempts| && attempts[r.value.0] == Some(r.value.1)
    ensures r.Some? ==> forall q :: from <= q < r.value.0 ==> attempts[q].None?
    ensures r.None? ==> forall q :: from <= q < |attempts| ==> attempts[q].None?
    decreases |attempts| - from
  {
    if from == |attempts| then None
    else if attempts[from].Some? then Some((from, attempts[from].value))
    else FirstMatch(attempts, from + 1)
  }

  /** `parseLatLon(t)`: the values of the leftmost coordinate pair in the text. */
  function ParseLatLon(t: string): (r: Option<LatLon>)
    ensures r.None? <==> forall q :: 0 <= q <= |t| ==> MatchPair(t[q..]).None?
    ensures r.Some? ==> exists q :: 0 <= q <= |t| && MatchPair(t[q..]).Some?
                          && (forall p :: 0 <= p < q ==> MatchPair(t[p..]).None?)
                          && r.value == LatLon(Value(MatchPair(t[q..]).value.0), Value(MatchPair(t[q..]).value.1))
  {
    var attempts := Attempts(t);
    var found := FirstMatch(attempts, 0);
    if found.None? then
      assert forall q :: 0 <= q <= |t| ==> attempts[q].None?;
      None
    else
      var q := found.value.0;
      assert attempts[q] == MatchPair(t[q..]);
      Some(LatLon(Value(found.value.1.0), Value(found.value.1.1)))
  }

  // ------------------------------------------------- parseLatLon round trip

  /** What may follow a numeral without extending it. */
  predicate Stops(rest: string)
  {
    rest == [] || (!IsDigit(rest[0]) && rest[0] != '.')
  }

  predicate AllSpace(ws: string) { forall k :: 0 <= k < |ws| ==> IsSpace(ws[k]) }

  /** `t` holds the text of `a` from its start up to position `end`, and
      what follows cannot extend the numeral. */
  predicate WrittenAt(t: string, a: Numeral, end: nat)
  {
    && ValidNumeral(a)
    && end == Width(a)
    && end <= |t|
    && (a.negative ==> t[0] == '-')
    && (forall k :: 0 <= k < |a.whole| ==> t[SignWidth(a) + k] == a.whole[k])
    && (a.fraction != [] ==> t[WholeEnd(a)] == '.')
    && (forall k :: 0 <= k < |a.fraction| ==> t[WholeEnd(a) + 1 + k] == a.fraction[k])
    && (end < |t| ==> !IsDigit(t[end]) && t[end] != '.')
  }

  lemma {:induction false} WholeRead(t: string, a: Numeral, end: nat)
    requires WrittenAt(t, a, end)
    ensures SignLength(t) == SignWidth(a)
    ensures DigitsFrom(t, SignWidth(a)) == |a.whole|
    ensures t[SignWidth(a)..WholeEnd(a)] == a.whole
  {
    var s0 := SignWidth(a);
    var e := WholeEnd(a);
    assert t[s0 + 0] == a.whole[0];
    forall k | s0 <= k < e
      ensures IsDigit(t[k])
    {
      assert t[s0 + (k - s0)] == a.whole[k - s0];
    }
    assert e < end ==> t[e] == '.';
    DigitsFromExact(t, s0, |a.whole|);
    assert t[s0..e] == a.whole;
  }

  lemma {:induction false} FractionRead(t: string, a: Numeral, end: nat)
    requires WrittenAt(t, a, end)
    ensures FractionDigits(t, WholeEnd(a)) == |a.fraction|
    ensures a.fraction != [] ==> t[WholeEnd(a) + 1..WholeEnd(a) + 1 + |a.fraction|] == a.fraction
  {
    var e := WholeEnd(a);
    var f := |a.fraction|;
    if a.fraction == [] {
      assert e == end;
    } else {
      assert t[e + 1 + 0] == a.fraction[0];
      forall k | e + 1 <= k < e + 1 + f
        ensures IsDigit(t[k])
      {
        assert t[e + 1 + (k - e - 1)] == a.fraction[k - e - 1];
      }
      DigitsFromExact(t, e + 1, f);
      assert t[e + 1..e + 1 + f] == a.fraction;
    }
  }

  lemma {:induction false} ScanNumberAt(t: string, a: Numeral, end: nat)
    requires WrittenAt(t, a, end)
    ensures ScanNumber(t) == Some(a)
  {
    WholeRead(t, a, end);
    FractionRead(t, a, end);
    var s0 := SignLength(t);
    var e := s0 + DigitsFrom(t, s0);
    assert e == WholeEnd(a);
    assert FractionAt(t, e) == a.fraction;
    assert Numeral(s0 == 1, t[s0..e], a.fraction) == a;
  }

  /** The scanner reads back exactly the numeral that was written. */
  lemma {:induction false} ScanNumberOfText(a: Numeral, rest: string)
    requires ValidNumeral(a) && Stops(rest)
    ensures ScanNumber(Text(a) + rest) == Some(a)
  {
    var t := Text(a) + rest;
    var s0 := SignWidth(a);
    var e := WholeEnd(a);
    var end := |Text(a)|;
    assert Text(a) == Sign(a.negative) + a.whole + FractionText(a.fraction);
    assert |Sign(a.negative)| == s0;
    forall k | 0 <= k < |a.whole|
      ensures t[s0 + k] == a.whole[k]
    {
      assert t[s0 + k] == Text(a)[s0 + k];
    }
    if a.fraction != [] {
      forall k | 0 <= k < |a.fraction|
        ensures t[e + 1 + k] == a.fraction[k]
      {
        assert t[e + 1 + k] == Text(a)[e + 1 + k];
      }
      assert t[e] == Text(a)[e];
    }
    if end < |t| {
      assert t[end] == rest[0];
    }
    ScanNumberAt(t, a, end);
  }

  /** Where the separator of `x ws1 , ws2 y` lies in the text. */
  lemma {:induction false} PairLayout(x: string, ws1: string, ws2: string, y: string)
    requires AllSpace(ws1) && AllSpace(ws2) && y != [] && !IsSpace(y[0])
    ensures forall k :: |x| <= k < |x| + |ws1| ==> IsSpace((x + ws1 + "," + ws2 + y)[k])
    ensures (x + ws1 + "," + ws2 + y)[|x| + |ws1|] == ','
    ensures forall k :: |x| + |ws1| + 1 <= k < |x| + |ws1| + 1 + |ws2| ==> IsSpace((x + ws1 + "," + ws2 + y)[k])
    ensures |x| + |ws1| + 1 + |ws2| < |x + ws1 + "," + ws2 + y|
    ensures (x + ws1 + "," + ws2 + y)[|x| + |ws1| + 1 + |ws2|..] == y
  {
    var sep := ws1 + "," + ws2;
    var t := x + ws1 + "," + ws2 + y;
    assert t == x + sep + y;
    var j := |x| + |ws1|;
    forall k | |x| <= k < j
      ensures IsSpace(t[k])
    {
      assert t[k] == sep[k - |x|] == ws1[k - |x|];
    }
    assert t[j] == sep[|ws1|] == ',';
    forall k | j + 1 <= k < j + 1 + |ws2|
      ensures IsSpace(t[k])
    {
      assert t[k] == sep[k - |x|] == ws2[k - j - 1];
    }
    MiddleOfConcat(x, sep, y);
  }

  /** The pair pattern on a text laid out as numeral, spaces, comma, spaces, numeral. */
  lemma {:induction false} MatchPairAt(t: string, a: Numeral, b: Numeral, j: nat, k0: nat)
    requires ScanNumber(t) == Some(a) && Width(a) <= j < k0 < |t|
    requires forall k :: Width(a) <= k < j ==> IsSpace(t[k])
    requires t[j] == ','
    requires forall k :: j + 1 <= k < k0 ==> IsSpace(t[k])
    requires ScanNumber(t[k0..]) == Some(b)
    ensures MatchPair(t) == Some((a, b))
  {
    SeparatorAt(t, Width(a), j, k0);
  }

  /** Spaces, a comma and spaces between `i` and `k0` make the separator. */
  lemma SeparatorAt(t: string, i: nat, j: nat, k0: nat)
    requires i <= j < k0 <= |t|
    requires forall k :: i <= k < j ==> IsSpace(t[k])
    requires t[j] == ','
    requires forall k :: j + 1 <= k < k0 ==> IsSpace(t[k])
    requires k0 < |t| ==> !IsSpace(t[k0])
    ensures SeparatorEnd(t, i) == Some(k0)
  {
    SpacesFromExact(t, i, j - i);
    SpacesFromExact(t, j + 1, k0 - j - 1);
  }

  lemma ConcatAssoc(p: string, u: string, v: string)
    ensures p + (u + v) == p + u + v
  {
  }

  lemma PairTail(x: string, ws1: string, ws2: string, y: string)
    ensures x + ws1 + "," + ws2 + y == x + (ws1 + "," + ws2 + y)
  {
  }

  /** A numeral's text starts with a minus sign or a digit. */
  lemma NumeralStart(b: Numeral, rest: string)
    requires ValidNumeral(b)
    ensures Text(b) + rest != [] && ((Text(b) + rest)[0] == '-' || IsDigit((Text(b) + rest)[0]))
  {
    assert (Text(b) + rest)[0] == Text(b)[0];
    if !b.negative {
      assert Text(b)[0] == b.whole[0];
    }
  }

  /** The pair pattern reads back the two numerals around the comma. */
  lemma {:induction false} MatchPairOfText(a: Numeral, ws1: string, ws2: string, b: Numeral, rest: string)
    requires ValidNumeral(a) && ValidNumeral(b) && AllSpace(ws1) && AllSpace(ws2) && Stops(rest)
    ensures MatchPair(Text(a) + ws1 + "," + ws2 + Text(b) + rest) == Some((a, b))
  {
    var x := Text(a);
    var y := Text(b) + rest;
    var t := x + ws1 + "," + ws2 + y;
    ConcatAssoc(x + ws1 + "," + ws2, Text(b), rest);
    NumeralStart(b, rest);
    PairLayout(x, ws1, ws2, y);
    var tail := ws1 + "," + ws2 + y;
    PairTail(x, ws1, ws2, y);
    assert tail[0] == ',' || IsSpace(tail[0]);
    ScanNumberOfText(a, tail);
    ScanNumberOfText(b, rest);
    MatchPairAt(t, a, b, |x| + |ws1|, |x| + |ws1| + 1 + |ws2|);
  }

  /** A coordinate written after text holding no digit and no minus sign is
      the one `parseLatLon` returns. */
  lemma {:induction false} ParseLatLonRoundTrip(pre: string, a: Numeral, ws1: string, ws2: string,
                                                 b: Numeral, rest: string)
    requires forall k :: 0 <= k < |pre| ==> !IsDigit(pre[k]) && pre[k] != '-'
    requires ValidNumeral(a) && ValidNumeral(b) && AllSpace(ws1) && AllSpace(ws2) && Stops(rest)
    ensures ParseLatLon(pre + Text(a) + ws1 + "," + ws2 + Text(b) + rest) == Some(LatLon(Value(a), Value(b)))
  {
    var body := Text(a) + ws1 + "," + ws2 + Text(b) + rest;
    var t := pre + body;
    PrefixAssoc(pre, Text(a), ws1, ws2, Text(b), rest);
    MatchPairOfText(a, ws1, ws2, b, rest);
    assert t[|pre|..] == body;
    NoPairInPrefix(pre, body);
    ParseLatLonAt(t, |pre|);
  }

  lemma PrefixAssoc(pre: string, x: string, ws1: string, ws2: string, y: string, rest: string)
    ensures pre + (x + ws1 + "," + ws2 + y + rest) == pre + x + ws1 + "," + ws2 + y + rest
  {
  }

  /** No pair starts inside a prefix without digits or minus signs. */
  lemma NoPairInPrefix(pre: string, body: string)
    requires forall k :: 0 <= k < |pre| ==> !IsDigit(pre[k]) && pre[k] != '-'
    ensures forall q :: 0 <= q < |pre| ==> MatchPair((pre + body)[q..]).None?
  {
    forall q | 0 <= q < |pre|
      ensures MatchPair((pre + body)[q..]).None?
    {
      var u := (pre + body)[q..];
      assert u[0] == pre[q];
      ScanNumberNone(u);
    }
  }

  /** The pair found at `q` with none before it is the one parsed. */
  lemma ParseLatLonAt(t: string, q: nat)
    requires q <= |t| && MatchPair(t[q..]).Some?
    requires forall p :: 0 <= p < q ==> MatchPair(t[p..]).None?
    ensures ParseLatLon(t) == Some(LatLon(Value(MatchPair(t[q..]).value.0), Value(MatchPair(t[q..]).value.1)))
  {
    var attempts := Attempts(t);
    FirstMatchAt(attempts, 0, q);
  }

  /** The first attempt that matched is found. */
  lemma {:induction false} FirstMatchAt<T>(attempts: seq<Option<T>>, from: nat, q: nat)
    requires from <= q < |attempts| && attempts[q].Some?
    requires forall p :: from <= p < q ==> attempts[p].None?
    ensures FirstMatch(attempts, from) == Some((q, attempts[q].value))
    decreases q - from
  {
    if from < q {
      FirstMatchAt(attempts, from + 1, q);
    }
  }

  /** A text without digits holds no coordinate. */
  lemma {:induction false} NoDigitsNoCoordinate(t: string)
    requires forall k :: 0 <= k < |t| ==> !IsDigit(t[k])
    ensures ParseLatLon(t) == None
  {
    forall q | 0 <= q <= |t|
      ensures MatchPair(t[q..]).None?
    {
      var u := t[q..];
      if SignLength(u) < |u| {
        assert u[SignLength(u)] == t[q + SignLength(u)];
      }
    }
  }

  // ------------------------------------------------------------- intents

  datatype IntentKind =
    | AirHotspots | AirTimeseries | WaterSampling | GreenspaceCover | AreasComparison
    | Exposure | SpatialAnalysis | Greeting | Thanks | Help | General

  /** The intent with the coordinate it carries (`c` in the source, only for
      the three kinds that use one). */
  datatype Intent = Intent(kind: IntentKind, c: Option<LatLon>)

  /** The position of each rule in the order `parseIntent` tries them. */
  function Priority(k: IntentKind): nat
  {
    match k
    case AirHotspots => 0
    case AirTimeseries => 1
    case WaterSampling => 2
    case GreenspaceCover => 3
    case AreasComparison => 4
    case Exposure => 5
    case SpatialAnalysis => 6
    case Greeting => 7
    case Thanks => 8
    case Help => 9
    case General => 10
  }

  /** The keyword test of each rule, on the lower-cased text and the
      coordinate found in it. */
  predicate Fires(k: IntentKind, s: string, c: Option<LatLon>)
  {
    match k
    case AirHotspots => Contains(s, "hotspot") || Contains(s, "air quality")
    case AirTimeseries => Contains(s, "air") && (Contains(s, "timeseries") || c.Some?)
    case WaterSampling =>
      Contains(s, "water") && (Contains(s, "site") || Contains(s, "sampling") || Contains(s, "quality"))
    case GreenspaceCover => Contains(s, "greenspace") || Contains(s, "green space")
    case AreasComparison => Contains(s, "compare") || Contains(s, "comparison")
    case Exposure => Contains(s, "exposure") || Contains(s, "risk")
    case SpatialAnalysis => Contains(s, "spatial") || Contains(s, "map") || Contains(s, "area analysis")
    case Greeting => Contains(s, "hello") || Contains(s, "hi") || Contains(s, "hey")
    case Thanks => Contains(s, "thank") || Contains(s, "thanks")
    case Help => Contains(s, "help")
    case General => true
  }

  predicate UsesCoordinate(k: IntentKind)
  {
    k == AirTimeseries || k == GreenspaceCover || k == Exposure
  }

  /** The rule chain of `parseIntent` on the lower-cased text `s` and the
      coordinate `c`: the first rule whose keywords occur decides. */
  function Classify(s: string, c: Option<LatLon>): (k: IntentKind)
    ensures Fires(k, s, c)
    ensures forall j :: Priority(j) < Priority(k) ==> !Fires(j, s, c)
  {
    if Contains(s, "hotspot") || Contains(s, "air quality") then AirHotspots
    else if Contains(s, "air") && (Contains(s, "timeseries") || c.Some?) then AirTimeseries
    else if Contains(s, "water") && (Contains(s, "site") || Contains(s, "sampling") || Contains(s, "quality"))
    then WaterSampling
    else if Contains(s, "greenspace") || Contains(s, "green space") then GreenspaceCover
    else if Contains(s, "compare") || Contains(s, "comparison") then AreasComparison
    else if Contains(s, "exposure") || Contains(s, "risk") then Exposure
    else if Contains(s, "spatial") || Contains(s, "map") || Contains(s, "area analysis") then SpatialAnalysis
    else if Contains(s, "hello") || Contains(s, "hi") || Contains(s, "hey") then Greeting
    else if Contains(s, "thank") || Contains(s, "thanks") then Thanks
    else if Contains(s, "help") then Help
    else General
  }

  /** `parseIntent(t)`: the intent of the lower-cased text, carrying the
      coordinate of the original text for the kinds that use one. */
  function ParseIntent(t: string): (r: Intent)
    ensures r.c.Some? ==> UsesCoordinate(r.kind)
  {
    var c := ParseLatLon(t);
    var k := Classify(Lower(t), c);
    Intent(k, if UsesCoordinate(k) then c else None)
  }

  /** The intent is the first rule, in the source's order, whose keywords
      occur in the lower-cased text; only the coordinate kinds carry the
      coordinate found in the original text. */
  lemma ParseIntentFirstMatch(t: string)
    ensures Fires(ParseIntent(t).kind, Lower(t), ParseLatLon(t))
    ensures forall k :: Priority(k) < Priority(ParseIntent(t).kind) ==> !Fires(k, Lower(t), ParseLatLon(t))
    ensures ParseIntent(t).c == if UsesCoordinate(ParseIntent(t).kind) then ParseLatLon(t) else None
  {
    var k := Classify(Lower(t), ParseLatLon(t));
    assert ParseIntent(t).kind == k;
  }

  /** Exactly one intent satisfies the first-match characterisation. */
  lemma {:induction false} FirstMatchUnique(s: string, c: Option<LatLon>, k1: IntentKind, k2: IntentKind)
    requires Fires(k1, s, c) && forall k :: Priority(k) < Priority(k1) ==> !Fires(k, s, c)
    requires Fires(k2, s, c) && forall k :: Priority(k) < Priority(k2) ==> !Fires(k, s, c)
    ensures k1 == k2
  {
    assert Priority(k1) == Priority(k2);
  }

  /** The greeting rule looks for `hi` anywhere in the text, so a question
      that merely contains a word such as "this" is answered as a greeting. */
  lemma GreetingInsideWord()
    ensures ParseIntent("what is this?").kind == Greeting
  {
    var t := "what is this?";
    assert Lower(t) == t by {
      forall k | 0 <= k < |t| ensures Lower(t)[k] == t[k] { }
    }
    NoDigitsNoCoordinate(t);
    ClassifyThis(t);
  }

  lemma ClassifyThis(t: string)
    requires t == "what is this?"
    ensures Classify(t, None) == Greeting
  {
    AirRulesSilent(t);
    TopicRulesSilent(t);
    MapRulesSilent(t);
    assert OccursAt(t, "hi", 9);
    OccurrenceContained(t, "hi", 9);
  }

  /** The characters "what is this?" is written with. */
  const ThisLetters: set<char> := {'w', 'h', 'a', 't', ' ', 'i', 's', '?'}

  /** A keyword with a letter that "what is this?" lacks does not occur in it. */
  lemma ThisSilent(t: string, sub: string, k: nat)
    requires t == "what is this?"
    requires k < |sub| && sub[k] !in ThisLetters
    ensures !Contains(t, sub)
  {
    assert forall j :: 0 <= j < |t| ==> t[j] in ThisLetters;
    LetterOutsideNotContained(t, ThisLetters, sub, k);
  }

  lemma AirRulesSilent(t: string)
    requires t == "what is this?"
    ensures !Contains(t, "hotspot") && !Contains(t, "air quality")
    ensures !Contains(t, "air") && !Contains(t, "water")
  {
    ThisSilent(t, "hotspot", 4);
    ThisSilent(t, "air quality", 2);
    ThisSilent(t, "air", 2);
    ThisSilent(t, "water", 4);
  }

  lemma TopicRulesSilent(t: string)
    requires t == "what is this?"
    ensures !Contains(t, "greenspace") && !Contains(t, "green space")
    ensures !Contains(t, "compare") && !Contains(t, "comparison")
    ensures !Contains(t, "exposure") && !Contains(t, "risk")
  {
    GreenspaceRulesSilent(t);
    ComparisonRulesSilent(t);
    ExposureRulesSilent(t);
  }

  lemma GreenspaceRulesSilent(t: string)
    requires t == "what is this?"
    ensures !Contains(t, "greenspace") && !Contains(t, "green space")
  {
    ThisSilent(t, "greenspace", 0);
    ThisSilent(t, "green space", 0);
  }

  lemma ComparisonRulesSilent(t: string)
    requires t == "what is this?"
    ensures !Contains(t, "compare") && !Contains(t, "comparison")
  {
    ThisSilent(t, "compare", 0);
    ThisSilent(t, "comparison", 0);
  }

  lemma ExposureRulesSilent(t: string)
    requires t == "what is this?"
    ensures !Contains(t, "exposure") && !Contains(t, "risk")
  {
    ThisSilent(t, "exposure", 1);
    ThisSilent(t, "risk", 0);
  }

  lemma MapRulesSilent(t: string)
    requires t == "what is this?"
    ensures !Contains(t, "spatial") && !Contains(t, "map") && !Contains(t, "area analysis")
  {
    ThisSilent(t, "spatial", 1);
    ThisSilent(t, "map", 0);
    ThisSilent(t, "area analysis", 1);
  }

  /** Rules are tried in order, so a comparison question about water quality
      is answered with the water sampling sites, not the area comparison. */
  lemma WaterBeforeComparison()
    ensures ParseIntent("compare water quality").kind == WaterSampling
  {
    var t := "compare water quality";
    assert Lower(t) == t by {
      forall k | 0 <= k < |t| ensures Lower(t)[k] == t[k] { }
    }
    NoDigitsNoCoordinate(t);
    ClassifyWaterQuestion(t);
  }

  lemma ClassifyWaterQuestion(t: string)
    requires t == "compare water quality"
    ensures Classify(t, None) == WaterSampling
  {
    AirRulesSilentOnWater(t);
    WaterRuleFires(t);
  }

  lemma WaterRuleFires(t: string)
    requires t == "compare water quality"
    ensures Contains(t, "water") && Contains(t, "quality")
  {
    assert OccursAt(t, "water", 8);
    OccurrenceContained(t, "water", 8);
    assert OccursAt(t, "quality", 14);
    OccurrenceContained(t, "quality", 14);
  }

  lemma AirRulesSilentOnWater(t: string)
    requires t == "compare water quality"
    ensures !Contains(t, "hotspot") && !Contains(t, "air quality") && !Contains(t, "air")
  {
    NoHInWaterQuestion(t);
    NoAiInWaterQuestion(t, "air quality");
    NoAiInWaterQuestion(t, "air");
  }

  lemma NoHInWaterQuestion(t: string)
    requires t == "compare water quality"
    ensures !Contains(t, "hotspot")
  {
    MissingCharNotContained(t, "hotspot", 0);
  }

  /** "compare water quality" never has an `i` right after an `a`. */
  lemma NoAiInWaterQuestion(t: string, sub: string)
    requires t == "compare water quality"
    requires 2 <= |sub| && sub[0] == 'a' && sub[1] == 'i'
    ensures !Contains(t, sub)
  {
    MissingPairNotContained(t, sub, 0);
  }

  /** Text mentioning a hotspot is always answered with the hotspot list,
      whatever else it asks. */
  lemma HotspotAlwaysWins(t: string)
    requires Contains(Lower(t), "hotspot")
    ensures ParseIntent(t).kind == AirHotspots
  {
    var r := ParseIntent(t);
    ParseIntentFirstMatch(t);
    FirstMatchUnique(Lower(t), ParseLatLon(t), r.kind, AirHotspots);
  }
}
