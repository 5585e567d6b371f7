/** Base-10 int64 text, as the statistics path reads it with
    strconv.ParseInt(s, 10, 64) and writes it with strconv.FormatInt(x, 10)
    (fmt.Sprint of an int64 prints the same text). */
module Decimal {
  import opened Common

  const MaxUint64: int := 0xffff_ffff_ffff_ffff
  /** 1 << 63: the magnitude bound ParseInt checks for a 64-bit result. */
  const Int64Cutoff: int := 0x8000_0000_0000_0000

  predicate IsDigit(c: char) {
    '0' <= c <= '9'
  }

  function DigitValue(c: char): (d: nat)
    requires IsDigit(c)
    ensures d < 10
  {
    c as int - '0' as int
  }

  function DigitChar(d: nat): (c: char)
    requires d < 10
    ensures IsDigit(c) && DigitValue(c) == d
  {
    (d + '0' as int) as char
  }

  /** Outcome of scanning the digits of an unsigned number. */
  datatype Scan = Scanned(n: nat) | ScanFailed(kind: NumErrorKind)

  /** The digit loop of strconv.ParseUint(s, 10, 64), read left to right: the
      first character that is not a decimal digit is a syntax error, and a
      running value that exceeds 2^64 - 1 is a range error, whichever comes
      first. Written over prefixes, so that an error in a prefix wins. */
  function ScanUint(s: string): (r: Scan)
    ensures r.Scanned? ==> r.n <= MaxUint64
    decreases |s|
  {
    if s == [] then Scanned(0)
    else
      match ScanUint(s[..|s| - 1])
      case ScanFailed(kind) => ScanFailed(kind)
      case Scanned(n) =>
        var c := s[|s| - 1];
        if !IsDigit(c) then ScanFailed(ErrSyntax)
        else if n * 10 + DigitValue(c) > MaxUint64 then ScanFailed(ErrRange)
        else Scanned(n * 10 + DigitValue(c))
  }

  datatype Parsed = ParsedInt(value: Int64) | ParseError(error: NumError)

  /** strconv.ParseInt(s, 10, 64): an optional '+' or '-', then at least one
      decimal digit; the magnitude must fit a signed 64-bit integer. Every
      error names "ParseInt" and the whole input text. */
  function ParseInt(s: string): (r: Parsed)
    ensures r.ParseError? ==> r.error.func == "ParseInt" && r.error.num == s
    ensures s == "" ==> r.ParseError?
  {
    if s == "" then ParseError(NumError("ParseInt", s, ErrSyntax))
    else
      var neg := s[0] == '-';
      var body := if s[0] == '+' || s[0] == '-' then s[1..] else s;
      if body == "" then ParseError(NumError("ParseInt", s, ErrSyntax))
      else
        match ScanUint(body)
        case ScanFailed(kind) => ParseError(NumError("ParseInt", s, kind))
        case Scanned(un) =>
          if !neg && un >= Int64Cutoff then ParseError(NumError("ParseInt", s, ErrRange))
          else if neg && un > Int64Cutoff then ParseError(NumError("ParseInt", s, ErrRange))
          else ParsedInt(if neg then -(un as int) else un)
  }

  /** The shortest decimal digits of n, most significant first. */
  function Digits(n: nat): (s: string)
    ensures |s| > 0
    ensures forall i :: 0 <= i < |s| ==> IsDigit(s[i])
    decreases n
  {
    if n < 10 then [DigitChar(n)] else Digits(n / 10) + [DigitChar(n % 10)]
  }

  /** strconv.FormatInt(x, 10): a '-' for negative numbers, then the digits
      of the magnitude with no leading zero. */
  function FormatInt(x: Int64): (s: string)
    ensures |s| > 0
    ensures s[0] == '-' <==> x < 0
  {
    if x < 0 then "-" + Digits(-(x as int)) else Digits(x)
  }

  /** Scanning the digits printed for n gives n back. */
  lemma {:induction false} ScanDigits(n: nat)
    requires n <= MaxUint64
    ensures ScanUint(Digits(n)) == Scanned(n)
    decreases n
  {
    if n >= 10 {
      var s := Digits(n);
      ScanDigits(n / 10);
      assert s[..|s| - 1] == Digits(n / 10);
      assert s[|s| - 1] == DigitChar(n % 10);
    }
  }

  /** Round trip: the text FormatInt prints for an int64 parses back to it. */
  lemma ParseFormat(x: Int64)
    ensures ParseInt(FormatInt(x)) == ParsedInt(x)
  {
    var s := FormatInt(x);
    if x < 0 {
      assert s[1..] == Digits(-(x as int));
      ScanDigits(-(x as int));
    } else {
      ScanDigits(x);
    }
  }

  /** FormatInt never prints two texts for one value nor one text for two
      values. */
  lemma FormatIntInjective(x: Int64, y: Int64)
    requires FormatInt(x) == FormatInt(y)
    ensures x == y
  {
    ParseFormat(x);
    ParseFormat(y);
  }
}
