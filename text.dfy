/** String operations the core relies on: JavaScript's `startsWith`, `substring`
    and `toLowerCase`, plus the decimal numerals and segment escaping used by the
    token and hash encodings of the `Crypto` module. */
module Text {
  import opened Outcomes

  /** `s.startsWith(prefix)`. */
  predicate StartsWith(s: string, prefix: string) {
    |prefix| <= |s| && s[..|prefix|] == prefix
  }

  /** `s.substring(start)` for a non-negative `start`: the characters from `start`
      on, or the empty string when `start` lies past the end. */
  function Substring(s: string, start: nat): string {
    if start <= |s| then s[start..] else ""
  }

  lemma SubstringAfterPrefix(s: string, prefix: string)
    requires StartsWith(s, prefix)
    ensures s == prefix + Substring(s, |prefix|)
  {
  }

  // ---------------------------------------------------------------------------
  // Case folding

  predicate IsUpper(c: char) {
    'A' <= c <= 'Z'
  }

  /** Lower-case one character. Only the ASCII letters are folded. */
  function LowerChar(c: char): (r: char)
    ensures !IsUpper(r)
    ensures IsUpper(c) ==> r as int == c as int + 32
    ensures !IsUpper(c) ==> r == c
  {
    if IsUpper(c) then (c as int + 32) as char else c
  }

  /** `s.toLowerCase()`: every character folded, nothing added or dropped. */
  function Lower(s: string): (r: string)
    ensures |r| == |s|
    ensures forall i :: 0 <= i < |s| ==> r[i] == LowerChar(s[i])
  {
    if s == [] then [] else [LowerChar(s[0])] + Lower(s[1..])
  }

  predicate IsLower(s: string) {
    forall i :: 0 <= i < |s| ==> !IsUpper(s[i])
  }

  /** Lower-casing yields a lower-case string and leaves one unchanged. */
  lemma LowerFixesLower(s: string)
    ensures IsLower(Lower(s))
    ensures IsLower(s) ==> Lower(s) == s
  {
  }

  lemma LowerIdempotent(s: string)
    ensures Lower(Lower(s)) == Lower(s)
  {
    LowerFixesLower(s);
    LowerFixesLower(Lower(s));
  }

  // ---------------------------------------------------------------------------
  // Decimal numerals

  predicate IsDigit(c: char) {
    '0' <= c <= '9'
  }

  predicate AllDigits(s: string) {
    forall i :: 0 <= i < |s| ==> IsDigit(s[i])
  }

  function DigitChar(d: nat): (c: char)
    requires d < 10
    ensures IsDigit(c)
  {
    ('0' as int + d) as char
  }

  function DigitValue(c: char): (d: nat)
    requires IsDigit(c)
    ensures d < 10
  {
    c as int - '0' as int
  }

  /** The decimal numeral of `n`, without leading zeros. */
  function Decimal(n: nat): (r: string)
    ensures r != [] && AllDigits(r)
    decreases n
  {
    if n < 10 then [DigitChar(n)] else Decimal(n / 10) + [DigitChar(n % 10)]
  }

  /** The number a string of digits denotes. */
  function DigitsValue(s: string): nat
    requires AllDigits(s)
    decreases |s|
  {
    if s == [] then 0 else DigitsValue(s[..|s| - 1]) * 10 + DigitValue(s[|s| - 1])
  }

  /** Reads a decimal numeral; anything but a non-empty run of digits is refused. */
  function ParseDecimal(s: string): Option<nat> {
    if s != [] && AllDigits(s) then Some(DigitsValue(s)) else None
  }

  lemma {:induction false} DecimalValue(n: nat)
    ensures DigitsValue(Decimal(n)) == n
    decreases n
  {
    var r := Decimal(n);
    if n >= 10 {
      DecimalValue(n / 10);
      assert r[..|r| - 1] == Decimal(n / 10);
      assert DigitValue(r[|r| - 1]) == n % 10;
    }
  }

  lemma ParseDecimalInverts(n: nat)
    ensures ParseDecimal(Decimal(n)) == Some(n)
  {
    DecimalValue(n);
  }

  // ---------------------------------------------------------------------------
  // Segments: text joined by '.' with '.' and '\' escaped inside each part

  const Separator: char := '.'
  const EscapeMark: char := '\\'

  /** The escaped form of `s`: a `Separator` or an `EscapeMark` is preceded by an `EscapeMark`. */
  function Escape(s: string): string {
    if s == [] then []
    else (if s[0] == Separator || s[0] == EscapeMark then [EscapeMark, s[0]] else [s[0]]) + Escape(s[1..])
  }

  /** What follows a segment: nothing at the end of the text, or a separator and the rest. */
  function Tail(rest: Option<string>): string {
    match rest
    case None => ""
    case Some(t) => [Separator] + t
  }

  /** Reads one segment: the unescaped characters up to the first unescaped
      separator, and the text after that separator (`None` when the text ends first). */
  function ReadSegment(t: string): (r: (string, Option<string>))
    ensures r.1.Some? ==> |r.1.value| < |t|
    decreases |t|
  {
    if t == [] then ([], None)
    else if t[0] == Separator then ([], Some(t[1..]))
    else if t[0] == EscapeMark && |t| >= 2 then
      var (s, rest) := ReadSegment(t[2..]);
      ([t[1]] + s, rest)
    else
      var (s, rest) := ReadSegment(t[1..]);
      ([t[0]] + s, rest)
  }

  /** Text without a separator is one unterminated segment: nothing follows it. */
  lemma {:induction false} ReadSegmentUnterminated(t: string)
    requires Separator !in t
    ensures ReadSegment(t).1 == None
    decreases |t|
  {
    if t == [] {
    } else if t[0] == EscapeMark && |t| >= 2 {
      assert forall c :: c in t[2..] ==> c in t;
      ReadSegmentUnterminated(t[2..]);
    } else {
      assert forall c :: c in t[1..] ==> c in t;
      ReadSegmentUnterminated(t[1..]);
    }
  }

  /** Reading past one plain character. */
  lemma ReadSegmentPlain(c: char, u: string)
    requires c != Separator && c != EscapeMark
    ensures ReadSegment([c] + u) == ([c] + ReadSegment(u).0, ReadSegment(u).1)
  {
    assert ([c] + u)[1..] == u;
  }

  /** Reading past one escaped character. */
  lemma ReadSegmentEscaped(c: char, u: string)
    ensures ReadSegment([EscapeMark, c] + u) == ([c] + ReadSegment(u).0, ReadSegment(u).1)
  {
    assert ([EscapeMark, c] + u)[2..] == u;
  }

  /** The escaped form of a non-empty string: its first character's escape, then the rest's. */
  lemma EscapeFirst(s: string, rest: Option<string>)
    requires s != []
    ensures Escape(s) + Tail(rest) ==
      (if s[0] == Separator || s[0] == EscapeMark then [EscapeMark, s[0]] else [s[0]]) + (Escape(s[1..]) + Tail(rest))
  {
  }

  /** Reading an escaped segment gives back the segment and exactly what followed it. */
  lemma {:induction false} ReadEscaped(s: string, rest: Option<string>)
    ensures ReadSegment(Escape(s) + Tail(rest)) == (s, rest)
    decreases |s|
  {
    if s != [] {
      var u := Escape(s[1..]) + Tail(rest);
      ReadEscaped(s[1..], rest);
      EscapeFirst(s, rest);
      if s[0] == Separator || s[0] == EscapeMark {
        ReadSegmentEscaped(s[0], u);
      } else {
        ReadSegmentPlain(s[0], u);
      }
      assert [s[0]] + s[1..] == s;
    } else if rest.Some? {
      assert Escape(s) + Tail(rest) == [Separator] + rest.value;
      assert ([Separator] + rest.value)[1..] == rest.value;
    }
  }
}
