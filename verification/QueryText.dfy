/** The text formats a signature is written in: hex, decimal with a sign, and URL query text, each with
    the reader the SDK uses for it. */
module QueryText {
  import opened Json
  import opened Decimal

  newtype Byte = x: int | 0 <= x < 256

  /* ---------- hex ---------- */

  const HEX_DIGITS := "0123456789abcdef"

  function HexByte(b: Byte): string {
    [HEX_DIGITS[b as int / 16], HEX_DIGITS[b as int % 16]]
  }

  function Hex(bytes: seq<Byte>): (r: string)
    ensures |r| == 2 * |bytes|
    ensures forall i :: 0 <= i < |r| ==> r[i] in HEX_DIGITS
  {
    if bytes == [] then "" else HexByte(bytes[0]) + Hex(bytes[1..])
  }

  /** A byte is read back from its two digits, the high one first. */
  predicate ReadsAsByte(high: char, low: char, b: Byte) {
    && HexValue(high).Some? && HexValue(low).Some? && !('A' <= high <= 'F') && !('A' <= low <= 'F')
    && b as int == 16 * HexValue(high).value + HexValue(low).value
  }

  lemma HexDigitReads(i: nat)
    requires i < 16
    ensures HexValue(HEX_DIGITS[i]) == Some(i) && !('A' <= HEX_DIGITS[i] <= 'F')
  {
  }

  lemma HexByteReads(b: Byte)
    ensures ReadsAsByte(HexByte(b)[0], HexByte(b)[1], b)
  {
    HexDigitReads(b as int / 16);
    HexDigitReads(b as int % 16);
  }

  lemma {:induction false} HexReadsBack(bytes: seq<Byte>, i: nat)
    requires i < |bytes|
    ensures ReadsAsByte(Hex(bytes)[2 * i], Hex(bytes)[2 * i + 1], bytes[i])
  {
    assert Hex(bytes) == HexByte(bytes[0]) + Hex(bytes[1..]);
    if i == 0 {
      HexByteReads(bytes[0]);
    } else {
      HexReadsBack(bytes[1..], i - 1);
      assert bytes[i] == bytes[1..][i - 1];
      assert Hex(bytes)[2 * i] == Hex(bytes[1..])[2 * (i - 1)];
      assert Hex(bytes)[2 * i + 1] == Hex(bytes[1..])[2 * (i - 1) + 1];
    }
  }

  lemma HexDigitsDiffer(i: nat, j: nat)
    requires i < 16 && j < 16 && HEX_DIGITS[i] == HEX_DIGITS[j]
    ensures i == j
  {
  }

  lemma {:induction false} HexInjective(a: seq<Byte>, b: seq<Byte>)
    requires Hex(a) == Hex(b)
    ensures a == b
  {
    assert |Hex(a)| == 2 * |a| && |Hex(b)| == 2 * |b|;
    if a != [] {
      HexDigitsDiffer(a[0] as int / 16, b[0] as int / 16) by {
        assert Hex(a)[0] == HEX_DIGITS[a[0] as int / 16] && Hex(b)[0] == HEX_DIGITS[b[0] as int / 16];
      }
      HexDigitsDiffer(a[0] as int % 16, b[0] as int % 16) by {
        assert Hex(a)[1] == HEX_DIGITS[a[0] as int % 16] && Hex(b)[1] == HEX_DIGITS[b[0] as int % 16];
      }
      assert Hex(a)[2..] == Hex(a[1..]) && Hex(b)[2..] == Hex(b[1..]);
      HexInjective(a[1..], b[1..]);
    }
  }

  /* ---------- decimal ---------- */

  const INT64_MIN: int := -0x8000_0000_0000_0000
  const INT64_MAX: int := 0x7fff_ffff_ffff_ffff

  predicate Int64(n: int) { INT64_MIN <= n <= INT64_MAX }

  /** `strconv.Atoi`: an optional sign, at least one digit, leading zeros allowed, in the range of an int. */
  function Atoi(s: string): Option<int> {
    var digits := if s != "" && (s[0] == '-' || s[0] == '+') then s[1..] else s;
    if digits == "" || !Digits(digits) then None
    else
      var n := if s[0] == '-' then 0 - Undec(digits) as int else Undec(digits) as int;
      if Int64(n) then Some(n) else None
  }

  lemma AtoiPlain(digits: string)
    requires digits != "" && Digits(digits) && Int64(Undec(digits))
    ensures Atoi(digits) == Some(Undec(digits))
  {
    assert IsDigit(digits[0]);
  }

  lemma AtoiMinus(digits: string)
    requires digits != "" && Digits(digits) && Int64(0 - Undec(digits))
    ensures Atoi("-" + digits) == Some(0 - Undec(digits))
  {
    assert ("-" + digits)[1..] == digits;
  }

  /** A plus sign is read over; no digits, any other sign, and numbers too large are errors. */
  lemma AtoiSigns(digits: string)
    requires Digits(digits)
    ensures digits != "" && Int64(Undec(digits)) ==> Atoi("+" + digits) == Some(Undec(digits))
    ensures digits == "" ==> Atoi(digits) == None && Atoi("-" + digits) == None && Atoi("+" + digits) == None
    ensures digits != "" && !Int64(Undec(digits)) ==> Atoi(digits) == None && Atoi("+" + digits) == None
  {
    assert ("-" + digits)[1..] == digits && ("+" + digits)[1..] == digits;
    if digits != "" {
      assert IsDigit(digits[0]);
    }
  }

  lemma AtoiReadsDecimal(n: int)
    requires Int64(n)
    ensures Atoi(SignedDec(n)) == Some(n)
  {
    if n < 0 {
      UndecDec(-n);
      AtoiMinus(Dec(-n));
    } else {
      UndecDec(n);
      AtoiPlain(Dec(n));
    }
  }

  /* ---------- query text ---------- */

  /** `strings.Cut`: what is before and after the first separator, everything and nothing without one. */
  function Cut(s: string, sep: char): (r: (string, string))
    ensures |r.0| + |r.1| <= |s| && (s != "" ==> |r.1| < |s|)
  {
    if s == "" then ("", "")
    else if s[0] == sep then ("", s[1..])
    else
      var rest := Cut(s[1..], sep);
      ([s[0]] + rest.0, rest.1)
  }

  lemma {:induction false} CutAtSeparator(a: string, sep: char, b: string)
    requires sep !in a
    ensures Cut(a + [sep] + b, sep) == (a, b)
  {
    if a != "" {
      assert (a + [sep] + b)[1..] == a[1..] + [sep] + b;
      CutAtSeparator(a[1..], sep, b);
      assert [a[0]] + a[1..] == a;
    }
  }

  lemma {:induction false} CutWithoutSeparator(a: string, sep: char)
    requires sep !in a
    ensures Cut(a, sep) == (a, "")
  {
    if a != "" {
      CutWithoutSeparator(a[1..], sep);
      assert [a[0]] + a[1..] == a;
    }
  }

  function HexValue(c: char): Option<int> {
    if '0' <= c <= '9' then Some((c - '0') as int)
    else if 'a' <= c <= 'f' then Some((c - 'a') as int + 10)
    else if 'A' <= c <= 'F' then Some((c - 'A') as int + 10)
    else None
  }

  /** `url.QueryUnescape` on text of bytes. */
  function Unescape(s: string): Option<string> {
    if s == "" then Some("")
    else if s[0] == '%' then
      if |s| < 3 || HexValue(s[1]).None? || HexValue(s[2]).None? then None
      else
        match Unescape(s[3..])
        case Some(rest) => Some([(16 * HexValue(s[1]).value + HexValue(s[2]).value) as char] + rest)
        case None => None
    else
      match Unescape(s[1..])
      case Some(rest) => Some([if s[0] == '+' then ' ' else s[0]] + rest)
      case None => None
  }

  lemma {:induction false} UnescapePlain(s: string)
    requires '%' !in s && '+' !in s
    ensures Unescape(s) == Some(s)
  {
    if s != "" {
      UnescapePlain(s[1..]);
      assert [s[0]] + s[1..] == s;
    }
  }

  type Values = map<string, seq<string>>

  function Adding(values: Values, key: string, value: string): Values {
    values[key := (if key in values then values[key] else []) + [value]]
  }

  /** `url.ParseQuery`, with None for an error anywhere in the text. */
  function ParseQuery(q: string, values: Values := map[]): Option<Values>
    decreases |q|
  {
    if q == "" then Some(values)
    else
      var (pair, rest) := Cut(q, '&');
      if ';' in pair then None
      else if pair == "" then ParseQuery(rest, values)
      else
        var (key, value) := Cut(pair, '=');
        var k, v := Unescape(key), Unescape(value);
        if k.None? || v.None? then None else ParseQuery(rest, Adding(values, k.value, v.value))
  }

  /** `Values.Get`: the first value, or nothing. */
  function Get(values: Values, key: string): string {
    if key in values && values[key] != [] then values[key][0] else ""
  }

  /** Text that query syntax does not touch. */
  predicate Plain(s: string) {
    forall i :: 0 <= i < |s| ==> s[i] !in "&;=%+"
  }

  lemma ParsePair(key: string, value: string, rest: string, values: Values)
    requires Plain(key) && Plain(value) && key != ""
    ensures ParseQuery(key + "=" + value + "&" + rest, values) == ParseQuery(rest, Adding(values, key, value))
  {
    var pair := key + "=" + value;
    assert pair != "" && ';' !in pair && '&' !in pair;
    CutAtSeparator(pair, '&', rest);
    assert key + "=" + value + "&" + rest == pair + ['&'] + rest;
    CutAtSeparator(key, '=', value);
    UnescapePlain(key);
    UnescapePlain(value);
  }

  lemma ParseLastPair(key: string, value: string, values: Values)
    requires Plain(key) && Plain(value) && key != ""
    ensures ParseQuery(key + "=" + value, values) == Some(Adding(values, key, value))
  {
    var pair := key + "=" + value;
    assert pair != "" && ';' !in pair && '&' !in pair;
    CutWithoutSeparator(pair, '&');
    CutAtSeparator(key, '=', value);
    UnescapePlain(key);
    UnescapePlain(value);
  }

  lemma BothAdded(key1: string, value1: string, key2: string, value2: string)
    requires key1 != key2
    ensures Adding(Adding(map[], key1, value1), key2, value2) == map[key1 := [value1], key2 := [value2]]
  {
    assert [] + [value1] == [value1] && [] + [value2] == [value2];
    var one := Adding(map[], key1, value1);
    assert one == map[key1 := [value1]] && key2 !in one;
  }

  /** Two plain fields read back as they were written. */
  lemma ParseTwoPairs(key1: string, value1: string, key2: string, value2: string)
    requires Plain(key1) && Plain(value1) && Plain(key2) && Plain(value2) && key1 != "" && key2 != "" && key1 != key2
    ensures ParseQuery(key1 + "=" + value1 + "&" + (key2 + "=" + value2))
      == Some(map[key1 := [value1], key2 := [value2]])
  {
    ParsePair(key1, value1, key2 + "=" + value2, map[]);
    ParseLastPair(key2, value2, Adding(map[], key1, value1));
    BothAdded(key1, value1, key2, value2);
  }
}
