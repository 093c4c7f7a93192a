/** The parts of Go's `strings`, `strconv` and `unicode` packages that the
    exporter relies on, stated over Dafny strings (a `char` stands for a Go
    rune). */
module GoStrings {

  /** unicode.IsSpace: the characters with the Unicode White_Space property. */
  predicate IsSpace(c: char) {
    c == ' ' || c == '\t' || c == '\n' || c == '\U{B}' || c == '\U{C}' || c == '\r'
    || c == '\U{85}' || c == '\U{A0}' || c == '\U{1680}'
    || ('\U{2000}' <= c <= '\U{200A}')
    || c == '\U{2028}' || c == '\U{2029}' || c == '\U{202F}' || c == '\U{205F}' || c == '\U{3000}'
  }

  predicate IsDigit(c: char) { '0' <= c <= '9' }

  /** unicode.IsLetter, restricted to the ASCII letters. */
  predicate IsLetter(c: char) { ('a' <= c <= 'z') || ('A' <= c <= 'Z') }

  predicate SpaceFree(w: string) { forall i :: 0 <= i < |w| ==> !IsSpace(w[i]) }

  /** Number of occurrences of `c` in `s`. */
  function Count(s: string, c: char): nat {
    if s == [] then 0 else (if s[0] == c then 1 else 0) + Count(s[1..], c)
  }

  /** strings.Join. */
  function Join(parts: seq<string>, sep: string): string {
    if |parts| == 0 then ""
    else if |parts| == 1 then parts[0]
    else parts[0] + sep + Join(parts[1..], sep)
  }

  /** strings.Split with a one-character separator: the pieces between the
      separators, an empty input giving one empty piece. */
  function Split(s: string, sep: char): (pieces: seq<string>)
    ensures |pieces| >= 1
  {
    if s == [] then [""]
    else
      var rest := Split(s[1..], sep);
      if s[0] == sep then [""] + rest else [[s[0]] + rest[0]] + rest[1..]
  }

  /** Split yields one more piece than there are separators. */
  lemma {:induction false} SplitCount(s: string, sep: char)
    ensures |Split(s, sep)| == Count(s, sep) + 1
  {
    if s != [] { SplitCount(s[1..], sep); }
  }

  /** No piece of a Split contains the separator. */
  lemma {:induction false} SplitPiecesFree(s: string, sep: char)
    ensures forall k, i :: 0 <= k < |Split(s, sep)| && 0 <= i < |Split(s, sep)[k]| ==> Split(s, sep)[k][i] != sep
  {
    if s != [] {
      SplitPiecesFree(s[1..], sep);
      var rest := Split(s[1..], sep);
      if s[0] != sep {
        var p := Split(s, sep);
        assert p[0] == [s[0]] + rest[0];
        forall k, i | 0 <= k < |p| && 0 <= i < |p[k]| ensures p[k][i] != sep {
          if k == 0 {
            if i > 0 { assert p[0][i] == rest[0][i - 1]; }
          } else {
            assert p[k] == rest[k];
          }
        }
      }
    }
  }

  /** Joining the pieces of a Split with the separator gives back the input. */
  lemma {:induction false} SplitJoin(s: string, sep: char)
    ensures Join(Split(s, sep), [sep]) == s
  {
    if s != [] {
      SplitJoin(s[1..], sep);
      var rest := Split(s[1..], sep);
      if s[0] == sep {
        assert Join([""] + rest, [sep]) == "" + [sep] + Join(rest, [sep]);
      } else {
        var p := [[s[0]] + rest[0]] + rest[1..];
        if |rest| == 1 {
          assert p == [[s[0]] + rest[0]];
        } else {
          assert p[1..] == rest[1..];
          assert Join(rest, [sep]) == rest[0] + [sep] + Join(rest[1..], [sep]);
        }
      }
    }
  }

  /** A string without the separator splits into itself. */
  lemma {:induction false} SplitNoSep(s: string, sep: char)
    requires sep !in s
    ensures Split(s, sep) == [s]
  {
    if s != [] {
      assert s[0] != sep;
      assert s[1..] == [] || sep !in s[1..];
      SplitNoSep(s[1..], sep);
      assert [s[0]] + s[1..] == s;
    }
  }

  /** Splitting at one separator splits each side on its own. */
  lemma {:induction false} SplitConcat(a: string, b: string, sep: char)
    ensures Split(a + [sep] + b, sep) == Split(a, sep) + Split(b, sep)
  {
    if a == [] {
      assert (a + [sep] + b)[1..] == b;
    } else {
      assert (a + [sep] + b)[1..] == a[1..] + [sep] + b;
      SplitConcat(a[1..], b, sep);
    }
  }

  /** Splitting a join of separator-free pieces gives back the pieces. */
  lemma {:induction false} JoinSplit(parts: seq<string>, sep: char)
    requires |parts| >= 1
    requires forall k :: 0 <= k < |parts| ==> sep !in parts[k]
    ensures Split(Join(parts, [sep]), sep) == parts
  {
    if |parts| == 1 {
      SplitNoSep(parts[0], sep);
    } else {
      JoinSplit(parts[1..], sep);
      SplitConcat(parts[0], Join(parts[1..], [sep]), sep);
      SplitNoSep(parts[0], sep);
      assert parts == [parts[0]] + parts[1..];
    }
  }

  /** `sub` occurs in `s` starting at index `j`. */
  predicate OccursAt(s: string, sub: string, j: int) {
    0 <= j <= |s| - |sub| && s[j..j + |sub|] == sub
  }

  /** The index of the first occurrence of `sub` in `s`, or -1 (strings.Index). */
  function Index(s: string, sub: string): (r: int)
    ensures r >= -1
    ensures r >= 0 ==> OccursAt(s, sub, r)
    ensures r >= 0 ==> forall j :: 0 <= j < r ==> !OccursAt(s, sub, j)
    ensures r < 0 ==> forall j :: !OccursAt(s, sub, j)
  {
    if |s| < |sub| then -1
    else if s[..|sub|] == sub then 0
    else
      var k := Index(s[1..], sub);
      assert forall j :: 1 <= j ==> (OccursAt(s, sub, j) <==> OccursAt(s[1..], sub, j - 1));
      if k < 0 then -1 else k + 1
  }

  /** strings.Contains. */
  predicate Contains(s: string, sub: string) { Index(s, sub) >= 0 }

  /** strings.Split with a non-empty separator string. */
  function SplitOn(s: string, sep: string): (pieces: seq<string>)
    requires sep != ""
    ensures |pieces| >= 1
    ensures pieces[0] == if Contains(s, sep) then s[..Index(s, sep)] else s
    ensures |pieces| >= 2 <==> Contains(s, sep)
    decreases |s|
  {
    var i := Index(s, sep);
    if i < 0 then [s] else [s[..i]] + SplitOn(s[i + |sep|..], sep)
  }

  /** strings.HasSuffix. */
  predicate HasSuffix(s: string, suffix: string) {
    |suffix| <= |s| && s[|s| - |suffix|..] == suffix
  }

  /** strings.Replace(s, string(from), to, -1) for a one-character pattern. */
  function ReplaceChar(s: string, from: char, to: string): (r: string)
    ensures |to| == 1 ==> |r| == |s| && forall i :: 0 <= i < |s| ==> r[i] == (if s[i] == from then to[0] else s[i])
    ensures from !in to ==> from !in r
    ensures to == [] ==> |r| == |s| - Count(s, from)
  {
    if s == [] then ""
    else (if s[0] == from then to else [s[0]]) + ReplaceChar(s[1..], from, to)
  }

  /** Length of the leading run of non-space characters. */
  function WordLength(s: string): (n: nat)
    ensures n <= |s| && SpaceFree(s[..n]) && (n == |s| || IsSpace(s[n]))
  {
    if s == [] || IsSpace(s[0]) then 0 else 1 + WordLength(s[1..])
  }

  /** strings.Fields: the maximal runs of non-space characters. */
  function Fields(s: string): (ws: seq<string>)
    ensures forall k :: 0 <= k < |ws| ==> ws[k] != [] && SpaceFree(ws[k])
  {
    if s == [] then []
    else if IsSpace(s[0]) then Fields(s[1..])
    else var n := WordLength(s); [s[..n]] + Fields(s[n..])
  }

  /** strings.TrimSpace. */
  function TrimSpace(s: string): (r: string)
    ensures r == [] || (!IsSpace(r[0]) && !IsSpace(r[|r| - 1]))
    ensures |r| <= |s|
    decreases |s|
  {
    if s == [] then ""
    else if IsSpace(s[0]) then TrimSpace(s[1..])
    else if IsSpace(s[|s| - 1]) then TrimSpace(s[..|s| - 1])
    else s
  }

  // ---- strconv ----------------------------------------------------------

  /** The decimal value of a string of digits. */
  function DigitsValue(ds: string): nat
    requires forall i :: 0 <= i < |ds| ==> IsDigit(ds[i])
  {
    if ds == [] then 0
    else
      assert IsDigit(ds[|ds| - 1]);
      10 * DigitsValue(ds[..|ds| - 1]) + (ds[|ds| - 1] as int - '0' as int)
  }

  predicate AllDigits(ds: string) { forall i :: 0 <= i < |ds| ==> IsDigit(ds[i]) }

  const MinInt64: int := -0x8000_0000_0000_0000
  const MaxInt64: int := 0x7FFF_FFFF_FFFF_FFFF

  /** strconv.Atoi on a 64-bit platform: an optional sign, at least one decimal
      digit, and a value that fits in an int64. */
  function Atoi(s: string): (r: Option<int>)
    ensures r.Some? ==> MinInt64 <= r.value <= MaxInt64
    ensures r.Some? ==> s != [] && (IsDigit(s[0]) || s[0] == '+' || s[0] == '-')
  {
    var neg := s != [] && s[0] == '-';
    var body := if s != [] && (s[0] == '-' || s[0] == '+') then s[1..] else s;
    if body == [] || !AllDigits(body) then None
    else
      var v: int := if neg then -(DigitsValue(body) as int) else DigitsValue(body);
      if MinInt64 <= v <= MaxInt64 then Some(v) else None
  }

  /** A decimal number `mantissa * 10^exponent`. */
  datatype Decimal = Decimal(mantissa: int, exponent: int)

  /** An optionally signed, non-empty digit string, as an exponent. */
  function ParseExponent(s: string): Option<int> {
    var neg := s != [] && s[0] == '-';
    var body := if s != [] && (s[0] == '-' || s[0] == '+') then s[1..] else s;
    if body == [] || !AllDigits(body) then None
    else Some(if neg then -(DigitsValue(body) as int) else DigitsValue(body))
  }

  /** The scanning loop of strconv.ParseFloat over an unsigned decimal
      literal: `mant` holds the digits read so far, `digits` their number,
      `frac` how many of them follow the point. The literal ends at the end
      of the input or at an exponent, and needs at least one digit. */
  function ScanDecimal(s: string, mant: nat, digits: nat, frac: nat, sawDot: bool): Option<Decimal>
    decreases |s|
  {
    if s == [] then
      if digits == 0 then None else Some(Decimal(mant, -(frac as int)))
    else if IsDigit(s[0]) then
      ScanDecimal(s[1..], 10 * mant + (s[0] as int - '0' as int), digits + 1, if sawDot then frac + 1 else frac, sawDot)
    else if s[0] == '.' && !sawDot then
      ScanDecimal(s[1..], mant, digits, frac, true)
    else if (s[0] == 'e' || s[0] == 'E') && digits > 0 then
      match ParseExponent(s[1..])
      case Some(e) => Some(Decimal(mant, e - frac))
      case None => None
    else None
  }

  /** strconv.ParseFloat on decimal literals: an optional sign, digits with an
      optional fraction (at least one digit in all) and an optional exponent. */
  function ParseFloat(s: string): (r: Option<Decimal>)
    ensures r.Some? ==> s != []
  {
    var neg := s != [] && s[0] == '-';
    var body := if s != [] && (s[0] == '-' || s[0] == '+') then s[1..] else s;
    match ScanDecimal(body, 0, 0, 0, false)
    case Some(d) => Some(if neg then Decimal(-d.mantissa, d.exponent) else d)
    case None => None
  }

  function Pow10(n: nat): (p: nat)
    ensures p >= 1
  {
    if n == 0 then 1 else 10 * Pow10(n - 1)
  }

  /** Shifting a digit in front of a scaled value. */
  lemma ShiftDigit(m: int, d: int, p: int)
    ensures (10 * m + d) * p == m * (10 * p) + d * p
  {
  }

  /** Reading a digit string from the front gives its value from the back. */
  lemma {:induction false} DigitsValueFront(ds: string)
    requires ds != [] && AllDigits(ds)
    ensures DigitsValue(ds) == (ds[0] as int - '0' as int) * Pow10(|ds| - 1) + DigitsValue(ds[1..])
    decreases |ds|
  {
    if |ds| > 1 {
      var init := ds[..|ds| - 1];
      DigitsValueFront(init);
      assert init[1..] == ds[1..][..|ds[1..]| - 1];
      assert ds[1..][|ds[1..]| - 1] == ds[|ds| - 1];
      assert init[0] == ds[0];
      ShiftAppend(DigitsValue(ds), ds[0] as int - '0' as int, Pow10(|ds| - 2), DigitsValue(init[1..]), ds[|ds| - 1] as int - '0' as int);
    } else {
      assert ds[..0] == [];
      assert ds[1..] == [];
    }
  }

  lemma ShiftAppend(v: int, d: int, p: int, x: int, last: int)
    requires v == 10 * (d * p + x) + last
    ensures v == d * (10 * p) + (10 * x + last)
  {
  }

  /** Scanning plain digits shifts them into the mantissa. */
  lemma {:induction false} ScanDigits(ds: string, mant: nat, digits: nat)
    requires AllDigits(ds)
    ensures ScanDecimal(ds, mant, digits, 0, false) ==
      if digits + |ds| == 0 then None else Some(Decimal(mant * Pow10(|ds|) + DigitsValue(ds), 0))
    decreases |ds|
  {
    if ds != [] {
      var d := ds[0] as int - '0' as int;
      assert IsDigit(ds[0]);
      ScanDigits(ds[1..], 10 * mant + d, digits + 1);
      DigitsValueFront(ds);
      ShiftDigit(mant, d, Pow10(|ds| - 1));
    }
  }

  /** A non-empty string of digits parses to its own value. */
  lemma ParseFloatDigits(ds: string)
    requires ds != [] && AllDigits(ds)
    ensures ParseFloat(ds) == Some(Decimal(DigitsValue(ds), 0))
  {
    assert IsDigit(ds[0]);
    ScanDigits(ds, 0, 0);
  }

  datatype Option<T> = None | Some(value: T)

  /** A Go `(value, error)` pair: the value, or the error's message. */
  datatype Result<T> = Ok(value: T) | Err(message: string)
}
