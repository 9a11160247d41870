/**
 * Byte strings as Rust sees a `&str`: the sequence of its UTF-8 bytes.
 * Holds the `u8` type, ASCII literals, `str::split` on a one-byte separator,
 * and `u8::from_str_radix`.
 */
module Bytes {
  import opened Wrappers

  /** Rust's `u8`. */
  newtype u8 = x: int | 0 <= x < 256

  const PLUS: u8 := 43   // '+'
  const COMMA: u8 := 44  // ','
  const COLON: u8 := 58  // ':'
  const HASH: u8 := 35   // '#'

  /** All bytes are ASCII (below 0x80). */
  predicate IsAscii(s: seq<u8>) {
    forall i | 0 <= i < |s| :: s[i] < 128
  }

  /**
   * Rust's `str::is_char_boundary` on the UTF-8 bytes: the ends are boundaries,
   * and so is every position whose byte is not a continuation byte (0b10xxxxxx).
   */
  predicate IsCharBoundary(s: seq<u8>, i: nat) {
    i == 0 || i == |s| || (i < |s| && !(128 <= s[i] < 192))
  }

  /** The pieces of `parts` glued back together with `sep` between them. */
  function Join(parts: seq<seq<u8>>, sep: u8): seq<u8>
    requires |parts| >= 1
    decreases |parts|
  {
    if |parts| == 1 then parts[0] else parts[0] + [sep] + Join(parts[1..], sep)
  }

  /**
   * Rust's `str::split` with a one-byte separator: the maximal runs between
   * separators, so there is always at least one piece ("" gives [""]).
   */
  function Split(s: seq<u8>, sep: u8): (parts: seq<seq<u8>>)
    ensures |parts| >= 1
    ensures forall i | 0 <= i < |parts| :: sep !in parts[i]
    ensures Join(parts, sep) == s
    decreases |s|
  {
    if |s| == 0 then [[]]
    else
      var rest := Split(s[1..], sep);
      if s[0] == sep then
        assert s == [sep] + s[1..];
        [[]] + rest
      else
        var parts := [[s[0]] + rest[0]] + rest[1..];
        assert parts[1..] == rest[1..];
        parts
  }

  /** Splitting a join of separator-free pieces gives the pieces back. */
  lemma {:induction false} SplitJoin(parts: seq<seq<u8>>, sep: u8)
    requires |parts| >= 1
    requires forall i | 0 <= i < |parts| :: sep !in parts[i]
    ensures Split(Join(parts, sep), sep) == parts
    decreases |parts|, |parts[0]|, 1
  {
    if |parts[0]| > 0 {
      SplitJoinLongHead(parts, sep);
    } else if |parts| > 1 {
      SplitJoinEmptyHead(parts, sep);
    }
  }

  /** The step of `SplitJoin` that moves the first byte of a non-empty first piece. */
  lemma {:induction false} SplitJoinLongHead(parts: seq<seq<u8>>, sep: u8)
    requires |parts| >= 1 && |parts[0]| > 0
    requires forall i | 0 <= i < |parts| :: sep !in parts[i]
    ensures Split(Join(parts, sep), sep) == parts
    decreases |parts|, |parts[0]|, 0
  {
    var p := parts[0];
    var tail := [p[1..]] + parts[1..];
    assert sep !in tail[0];
    forall i | 0 <= i < |tail| ensures sep !in tail[i] {
      if i > 0 { assert tail[i] == parts[i]; }
    }
    SplitJoin(tail, sep);
    assert tail[1..] == parts[1..];
    assert Join(parts, sep)[1..] == Join(tail, sep);
    assert p == [p[0]] + p[1..];
  }

  /** The step of `SplitJoin` that drops an empty first piece and its separator. */
  lemma {:induction false} SplitJoinEmptyHead(parts: seq<seq<u8>>, sep: u8)
    requires |parts| > 1 && parts[0] == []
    requires forall i | 0 <= i < |parts| :: sep !in parts[i]
    ensures Split(Join(parts, sep), sep) == parts
    decreases |parts|, |parts[0]|, 0
  {
    assert sep !in parts[1..][0];
    forall i | 0 <= i < |parts| - 1 ensures sep !in parts[1..][i] {
      assert parts[1..][i] == parts[i + 1];
    }
    SplitJoin(parts[1..], sep);
    assert Join(parts, sep)[1..] == Join(parts[1..], sep);
    assert parts == [[]] + parts[1..];
  }

  /** The value of one byte as a digit in `radix`, as Rust's `char::to_digit`. */
  function DigitValue(b: u8, radix: nat): (d: Option<nat>)
    ensures d.Some? ==> d.value < radix
  {
    var v :=
      if 48 <= b <= 57 then b as int - 48         // '0'..='9'
      else if 97 <= b <= 122 then b as int - 87   // 'a'..='z'
      else if 65 <= b <= 90 then b as int - 55    // 'A'..='Z'
      else 36;
    if v < radix then Some(v) else None
  }

  /** The value of a digit string, most significant digit first; None if a byte is no digit. */
  function DigitsValue(ds: seq<u8>, radix: nat): Option<nat>
    decreases |ds|
  {
    if ds == [] then Some(0)
    else
      match DigitsValue(ds[..|ds| - 1], radix)
      case None => None
      case Some(v) =>
        match DigitValue(ds[|ds| - 1], radix)
        case None => None
        case Some(d) => Some(v * radix + d)
  }

  /**
   * Rust's `u8::from_str_radix` (and `str::parse::<u8>` for radix 10): an
   * optional leading '+', then at least one digit, and a value below 256.
   * The empty string, a lone '+', a '-' sign, a stray byte and an overflow
   * are all errors.
   */
  function ParseU8(s: seq<u8>, radix: nat): (r: Option<u8>)
    ensures r.Some? ==> |Unsigned(s)| > 0
    ensures r.Some? ==> forall i | 0 <= i < |Unsigned(s)| :: DigitValue(Unsigned(s)[i], radix).Some?
    ensures r.Some? ==> DigitsValue(Unsigned(s), radix) == Some(r.value as nat)
    ensures |Unsigned(s)| > 0 && DigitsValue(Unsigned(s), radix).Some? && DigitsValue(Unsigned(s), radix).value < 256 ==>
              r.Some?
  {
    var digits := Unsigned(s);
    if |digits| == 0 then None
    else
      match DigitsValue(digits, radix)
      case Some(v) =>
        DigitsValueAllDigits(digits, radix);
        if v < 256 then Some(v as u8) else None
      case None => None
  }

  /** What follows an optional leading '+': the bytes that must all be digits. */
  function Unsigned(s: seq<u8>): (digits: seq<u8>)
    ensures digits == s || (|s| > 0 && s[0] == PLUS && digits == s[1..])
  {
    if |s| > 0 && s[0] == PLUS then s[1..] else s
  }

  /** A digit string has a value exactly when each of its bytes is a digit. */
  lemma {:induction false} DigitsValueAllDigits(ds: seq<u8>, radix: nat)
    ensures DigitsValue(ds, radix).Some? <==> forall i | 0 <= i < |ds| :: DigitValue(ds[i], radix).Some?
    decreases |ds|
  {
    if ds != [] {
      var init := ds[..|ds| - 1];
      DigitsValueAllDigits(init, radix);
      assert forall i | 0 <= i < |init| :: init[i] == ds[i];
    }
  }

  /** The lower-case hexadecimal digit for `d`. */
  function HexDigit(d: nat): (b: u8)
    requires d < 16
    ensures DigitValue(b, 16) == Some(d)
  {
    if d < 10 then (48 + d) as u8 else (87 + d) as u8
  }

  /** The decimal digit for `d`. */
  function DecimalDigit(d: nat): (b: u8)
    requires d < 10
    ensures DigitValue(b, 10) == Some(d)
  {
    (48 + d) as u8
  }

  /** Two lower-case hexadecimal digits, as `format!("{:02x}", x)`. */
  function Hex2(x: u8): (s: seq<u8>)
    ensures |s| == 2 && IsAscii(s)
  {
    [HexDigit(x as nat / 16), HexDigit(x as nat % 16)]
  }

  /** The decimal form of `x` without leading zeros, as `x.to_string()`. */
  function Decimal(x: u8): (s: seq<u8>)
    ensures 1 <= |s| <= 3 && IsAscii(s)
  {
    var n := x as nat;
    if n < 10 then [DecimalDigit(n)]
    else if n < 100 then [DecimalDigit(n / 10), DecimalDigit(n % 10)]
    else [DecimalDigit(n / 100), DecimalDigit(n / 10 % 10), DecimalDigit(n % 10)]
  }

  /** Two lower-case hexadecimal digits read back as the byte they were written from. */
  lemma ParseHex2(x: u8)
    ensures ParseU8(Hex2(x), 16) == Some(x)
  {
    var s := Hex2(x);
    assert s[..1][..0] == [];
    assert DigitsValue(s[..1], 16) == Some(x as nat / 16);
    assert s[..|s| - 1] == s[..1];
  }

  /** A byte's decimal digits read back as the byte. */
  lemma ParseDecimal(x: u8)
    ensures ParseU8(Decimal(x), 10) == Some(x)
  {
    var s := Decimal(x);
    var n := x as nat;
    assert s[..0] == [];
    if n < 10 {
      assert DigitsValue(s, 10) == Some(n);
    } else if n < 100 {
      assert s[..1][..0] == [];
      assert DigitsValue(s[..1], 10) == Some(n / 10);
      assert DigitsValue(s, 10) == Some(n / 10 * 10 + n % 10);
    } else {
      ParseThreeDigits(x);
    }
  }

  /** `ParseDecimal` for the bytes with three decimal digits. */
  lemma ParseThreeDigits(x: u8)
    requires x >= 100
    ensures DigitsValue(Decimal(x), 10) == Some(x as nat)
  {
    var s := Decimal(x);
    var n := x as nat;
    assert s[..2][..1] == s[..1] && s[..1][..0] == [];
    assert DigitsValue(s[..1], 10) == Some(n / 100);
    assert DigitsValue(s[..2], 10) == Some(n / 100 * 10 + n / 10 % 10);
    assert DigitsValue(s, 10) == Some((n / 100 * 10 + n / 10 % 10) * 10 + n % 10);
  }

  /** The edges of `u8` parsing: no digits, a sign, the largest value and the first overflow. */
  lemma ParseU8Edges()
    ensures ParseU8([], 10) == None                        // ""
    ensures ParseU8([PLUS], 10) == None                    // "+"
    ensures ParseU8([PLUS, 0x37], 10) == Some(7)           // "+7"
    ensures ParseU8([0x2d, 0x31], 10) == None              // "-1"
    ensures ParseU8([0x32, 0x35, 0x35], 10) == Some(255)   // "255"
    ensures ParseU8([0x32, 0x35, 0x36], 10) == None        // "256"
    ensures ParseU8([0x46, 0x66], 16) == Some(255)         // "Ff"
  {
    assert [PLUS, 0x37][1..] == [0x37];
    assert [0x37][..0] == [];
    assert DigitsValue([0x2d], 10) == None;
    assert [0x2d, 0x31][..1] == [0x2d];
    var s := [0x32, 0x35, 0x35];
    assert s[..2] == [0x32, 0x35] && s[..2][..1] == [0x32] && s[..2][..1][..0] == [];
    assert DigitsValue(s, 10) == Some(255);
    var t := [0x32, 0x35, 0x36];
    assert t[..2] == [0x32, 0x35] && t[..2][..1] == [0x32];
    assert DigitsValue(t, 10) == Some(256);
    var h := [0x46, 0x66];
    assert h[..1] == [0x46] && h[..1][..0] == [];
    assert DigitsValue(h, 16) == Some(255);
  }
}
