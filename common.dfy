// Shared value types and the string helpers the Go code takes from the
// standard library (strings.Split, strings.Join, strings.Index,
// strings.Contains, strings.HasPrefix, strconv.Itoa, strconv.Atoi,
// fmt's %d and %x, strings.ToLower).

module Common {

  datatype Option<T> = None | Some(value: T)

  /** A Go `(T, error)` pair: either a value or an error message. */
  datatype Result<T> = Ok(value: T) | Err(msg: string)

  // ---------------------------------------------------------------------
  // Prefixes and substrings
  // ---------------------------------------------------------------------

  /** strings.HasPrefix(s, p) */
  predicate IsPrefix(p: string, s: string)
  {
    |p| <= |s| && s[..|p|] == p
  }

  /** `sub` occurs in `s` at position `j`. */
  predicate OccursAt(s: string, sub: string, j: int)
  {
    0 <= j && j + |sub| <= |s| && s[j..j + |sub|] == sub
  }

  /** The first position at or after `from` at which `sub` occurs in `s`. */
  function IndexFrom(s: string, sub: string, from: nat): (r: Option<nat>)
    ensures r.Some? ==> from <= r.value && OccursAt(s, sub, r.value)
    ensures r.Some? ==> forall j :: from <= j < r.value ==> !OccursAt(s, sub, j)
    ensures r.None? ==> forall j :: from <= j ==> !OccursAt(s, sub, j)
    decreases |s| - from
  {
    if from + |sub| > |s| then None
    else if s[from..from + |sub|] == sub then Some(from)
    else IndexFrom(s, sub, from + 1)
  }

  /** strings.Index(s, sub), with -1 written as None. */
  function IndexOf(s: string, sub: string): (r: Option<nat>)
    ensures r.Some? ==> OccursAt(s, sub, r.value)
    ensures r.Some? ==> forall j :: 0 <= j < r.value ==> !OccursAt(s, sub, j)
    ensures r.None? ==> forall j :: !OccursAt(s, sub, j)
  {
    IndexFrom(s, sub, 0)
  }

  /** strings.Contains(s, sub) */
  predicate Contains(s: string, sub: string)
  {
    IndexOf(s, sub).Some?
  }

  /** A prefix is in particular a substring (at position 0). */
  lemma PrefixIsContained(p: string, s: string)
    requires IsPrefix(p, s)
    ensures Contains(s, p)
  {
    assert OccursAt(s, p, 0);
  }

  // ---------------------------------------------------------------------
  // Splitting and joining on one separator character
  // ---------------------------------------------------------------------

  /** strings.Split(s, string(sep)); like Go, Split("", sep) == [""]. */
  function Split(s: string, sep: char): (r: seq<string>)
    ensures |r| >= 1
    ensures forall i :: 0 <= i < |r| ==> sep !in r[i]
  {
    if s == [] then [[]]
    else
      var rest := Split(s[1..], sep);
      if s[0] == sep then [[]] + rest
      else [[s[0]] + rest[0]] + rest[1..]
  }

  /** strings.Join(parts, string(sep)) */
  function Join(parts: seq<string>, sep: char): string
  {
    if |parts| == 0 then []
    else if |parts| == 1 then parts[0]
    else parts[0] + [sep] + Join(parts[1..], sep)
  }

  /** strings.Join(parts, sep) for a separator of several characters. */
  function JoinWith(parts: seq<string>, sep: string): string
  {
    if |parts| == 0 then []
    else if |parts| == 1 then parts[0]
    else parts[0] + sep + JoinWith(parts[1..], sep)
  }

  /** Joining a list with one more piece at the end adds the separator and that piece. */
  lemma {:induction false} JoinSnoc(parts: seq<string>, x: string, sep: char)
    requires |parts| >= 1
    ensures Join(parts + [x], sep) == Join(parts, sep) + [sep] + x
  {
    if |parts| == 1 {
      assert (parts + [x])[1..] == [x];
    } else {
      JoinSnoc(parts[1..], x, sep);
      assert (parts + [x])[1..] == parts[1..] + [x];
    }
  }

  lemma {:induction false} SplitNoSep(x: string, sep: char)
    requires sep !in x
    ensures Split(x, sep) == [x]
  {
    if x != [] {
      SplitNoSep(x[1..], sep);
      assert [x[0]] + x[1..] == x;
    }
  }

  lemma {:induction false} SplitAfterPiece(x: string, y: string, sep: char)
    requires sep !in x
    ensures Split(x + [sep] + y, sep) == [x] + Split(y, sep)
  {
    var s := x + [sep] + y;
    if x == [] {
      assert s[1..] == y;
    } else {
      assert s[1..] == x[1..] + [sep] + y;
      SplitAfterPiece(x[1..], y, sep);
      assert [x[0]] + x[1..] == x;
    }
  }

  /** Splitting a joined list gives the list back when no piece holds the separator. */
  lemma {:induction false} SplitJoin(parts: seq<string>, sep: char)
    requires |parts| >= 1
    requires forall i :: 0 <= i < |parts| ==> sep !in parts[i]
    ensures Split(Join(parts, sep), sep) == parts
  {
    if |parts| == 1 {
      SplitNoSep(parts[0], sep);
    } else {
      SplitJoin(parts[1..], sep);
      SplitAfterPiece(parts[0], Join(parts[1..], sep), sep);
      assert [parts[0]] + parts[1..] == parts;
    }
  }

  /** Joining the pieces of a split gives the string back. */
  lemma {:induction false} JoinSplit(s: string, sep: char)
    ensures Join(Split(s, sep), sep) == s
  {
    if s != [] {
      JoinSplit(s[1..], sep);
      var rest := Split(s[1..], sep);
      if s[0] != sep {
        if |rest| == 1 {
          assert [s[0]] + s[1..] == s;
        } else {
          assert Join(rest, sep) == rest[0] + [sep] + Join(rest[1..], sep);
          assert s == [s[0]] + s[1..];
        }
      }
    }
  }

  // ---------------------------------------------------------------------
  // Decimal and hexadecimal numbers (strconv.Itoa, strconv.Atoi, %d, %x)
  // ---------------------------------------------------------------------

  predicate IsDigit(c: char) { '0' <= c <= '9' }

  predicate AllDigits(s: string) { forall i :: 0 <= i < |s| ==> IsDigit(s[i]) }

  function DigitChar(d: nat): (c: char)
    requires d < 10
  {
    ((d + '0' as int) as char)
  }

  /** The decimal digits of `n` without leading zeros (`%d` of a non-negative int). */
  function NatToDec(n: nat): (r: string)
    ensures |r| >= 1 && AllDigits(r)
    ensures n >= 10 <==> |r| >= 2
    decreases n
  {
    if n < 10 then [DigitChar(n)] else NatToDec(n / 10) + [DigitChar(n % 10)]
  }

  /** strconv.Itoa / `%d` */
  function IntToDec(i: int): string
  {
    if i < 0 then "-" + NatToDec(-i) else NatToDec(i)
  }

  function DigitsValue(s: string): nat
    requires AllDigits(s)
  {
    if s == [] then 0
    else DigitsValue(s[..|s| - 1]) * 10 + (s[|s| - 1] as int - '0' as int)
  }

  /** A run of one or more decimal digits read as a number. */
  function ParseNat(s: string): (r: Option<nat>)
    ensures r.Some? <==> (|s| >= 1 && AllDigits(s))
  {
    if |s| >= 1 && AllDigits(s) then Some(DigitsValue(s)) else None
  }

  /** The range of Go's `int` on the 64-bit platforms the daemon runs on. */
  const MinInt64: int := -0x8000_0000_0000_0000
  const MaxInt64: int := 0x7FFF_FFFF_FFFF_FFFF

  predicate InInt64(i: int)
  {
    MinInt64 <= i <= MaxInt64
  }

  /** The syntax strconv.Atoi accepts, read as an unbounded number: an optional sign, then digits. */
  function ParseDec(s: string): (r: Option<int>)
    ensures |s| == 0 ==> r.None?
    ensures |s| >= 1 && AllDigits(s) ==> r == Some(DigitsValue(s) as int)
  {
    if |s| >= 1 && (s[0] == '-' || s[0] == '+') then
      match ParseNat(s[1..])
      case None => None
      case Some(n) =>
        var v: int := if s[0] == '-' then -(n as int) else n;
        Some(v)
    else
      match ParseNat(s)
      case None => None
      case Some(n) => Some(n)
  }

  const MaxUint64: int := 0xFFFF_FFFF_FFFF_FFFF

  /** The digits a string starts with. */
  function DigitRun(u: string): (d: string)
    ensures |d| <= |u| && d == u[..|d|] && AllDigits(d)
    ensures |d| < |u| ==> !IsDigit(u[|d|])
    ensures AllDigits(u) ==> d == u
  {
    if u == [] || !IsDigit(u[0]) then [] else [u[0]] + DigitRun(u[1..])
  }

  /** How strconv.Atoi ends: a number, a syntax error, or a range error with the bound it returns. */
  datatype AtoiOutcome = Parsed(value: int) | InvalidSyntax | OutOfRange(bound: int)

  /**
   * strconv.Atoi on a 64-bit platform. After an optional sign, digits are
   * read left to right: once they exceed 2^64 - 1 the range error is
   * reported at once, even if a non-digit follows; otherwise a non-digit
   * (or nothing at all) is a syntax error, and a value outside int64 a
   * range error carrying the bound of its sign.
   */
  function AtoiOutcomeOf(s: string): (r: AtoiOutcome)
    ensures r.Parsed? <==> ParseDec(s).Some? && InInt64(ParseDec(s).value)
    ensures r.Parsed? ==> r.value == ParseDec(s).value
    ensures ParseDec(s).Some? && !InInt64(ParseDec(s).value) ==>
      r == OutOfRange(if ParseDec(s).value < 0 then MinInt64 else MaxInt64)
    ensures r.OutOfRange? ==> r.bound == MinInt64 || r.bound == MaxInt64
  {
    var signed := |s| >= 1 && (s[0] == '-' || s[0] == '+');
    var neg := signed && s[0] == '-';
    var u := if signed then s[1..] else s;
    var bound := if neg then MinInt64 else MaxInt64;
    if u == [] then InvalidSyntax
    else
      var d := DigitRun(u);
      if DigitsValue(d) > MaxUint64 then OutOfRange(bound)
      else if |d| < |u| then InvalidSyntax
      else
        assert d == u;
        var v: int := if neg then -(DigitsValue(u) as int) else DigitsValue(u);
        if InInt64(v) then Parsed(v) else OutOfRange(bound)
  }

  /** strconv.Atoi's number, or None where it returns an error. */
  function Atoi(s: string): (r: Option<int>)
    ensures r.Some? <==> ParseDec(s).Some? && InInt64(ParseDec(s).value)
    ensures r.Some? ==> r.value == ParseDec(s).value
  {
    match AtoiOutcomeOf(s)
    case Parsed(v) => Some(v)
    case _ => None
  }

  /**
   * What strconv.Atoi returns beside its error, for callers that drop the
   * error: the number, the bound for one out of range, 0 for bad syntax.
   */
  function AtoiValue(s: string): (r: int)
    ensures InInt64(r)
    ensures Atoi(s).Some? ==> r == Atoi(s).value
    ensures ParseDec(s).Some? && ParseDec(s).value > MaxInt64 ==> r == MaxInt64
    ensures ParseDec(s).Some? && ParseDec(s).value < MinInt64 ==> r == MinInt64
  {
    match AtoiOutcomeOf(s)
    case Parsed(v) => v
    case InvalidSyntax => 0
    case OutOfRange(b) => b
  }

  /** The error strconv.Atoi reports, with the input written as strconv.Quote writes it. */
  function AtoiError(s: string): string
  {
    if AtoiOutcomeOf(s).OutOfRange? then "strconv.Atoi: parsing " + Quote(s) + ": value out of range"
    else "strconv.Atoi: parsing " + Quote(s) + ": invalid syntax"
  }

  lemma {:induction false} DecValue(n: nat)
    ensures DigitsValue(NatToDec(n)) == n
    decreases n
  {
    if n >= 10 {
      DecValue(n / 10);
      var s := NatToDec(n);
      assert s[..|s| - 1] == NatToDec(n / 10);
    }
  }

  /** Decimal printing loses nothing: the digits strconv.Itoa writes read back as the number. */
  lemma ParseIntToDec(i: int)
    ensures ParseDec(IntToDec(i)) == Some(i)
  {
    if i < 0 {
      var digits := NatToDec(-i);
      DecValue(-i);
      assert ("-" + digits)[0] == '-' && ("-" + digits)[1..] == digits;
      assert ParseNat(digits) == Some(-i);
    } else {
      DecValue(i);
    }
  }

  /** strconv.Atoi reads back what strconv.Itoa wrote, for every 64-bit int. */
  lemma AtoiIntToDec(i: int)
    requires InInt64(i)
    ensures Atoi(IntToDec(i)) == Some(i)
  {
    ParseIntToDec(i);
  }

  /** Beyond 64 bits strconv.Itoa's output no longer reads back: Atoi fails with the range error. */
  lemma AtoiOutOfRange(i: int)
    requires !InInt64(i)
    ensures Atoi(IntToDec(i)).None?
    ensures AtoiError(IntToDec(i)) == "strconv.Atoi: parsing " + ("\"" + IntToDec(i) + "\"") + ": value out of range"
  {
    ParseIntToDec(i);
    QuoteDec(i);
  }

  /** Distinct numbers print as distinct decimal strings. */
  lemma DecInjective(a: nat, b: nat)
    requires NatToDec(a) == NatToDec(b)
    ensures a == b
  {
    DecValue(a);
    DecValue(b);
  }

  function HexChar(d: nat): (c: char)
    requires d < 16
  {
    "0123456789abcdef"[d]
  }

  /** `%x` of a non-negative int: lower-case hexadecimal digits. */
  function NatToHex(n: nat): (r: string)
    ensures |r| >= 1
    ensures n >= 16 <==> |r| >= 2
    decreases n
  {
    if n < 16 then [HexChar(n)] else NatToHex(n / 16) + [HexChar(n % 16)]
  }

  function HexDigitValue(c: char): Option<nat>
  {
    if '0' <= c <= '9' then Some(c as int - '0' as int)
    else if 'a' <= c <= 'f' then Some(c as int - 'a' as int + 10)
    else if 'A' <= c <= 'F' then Some(c as int - 'A' as int + 10)
    else None
  }

  /** Reads hexadecimal digits, as QEMU reads a `0x`-prefixed bus address. */
  function ParseHex(s: string): Option<nat>
  {
    if s == [] then None
    else if |s| == 1 then HexDigitValue(s[0])
    else
      match (ParseHex(s[..|s| - 1]), HexDigitValue(s[|s| - 1]))
      case (Some(hi), Some(lo)) => Some(hi * 16 + lo)
      case _ => None
  }

  lemma {:induction false} HexRoundTrip(n: nat)
    ensures ParseHex(NatToHex(n)) == Some(n)
    decreases n
  {
    if n < 16 {
      HexDigitRoundTrip(n);
    } else {
      HexRoundTrip(n / 16);
      HexDigitRoundTrip(n % 16);
      var s, hi, lo := NatToHex(n), NatToHex(n / 16), HexChar(n % 16);
      assert s == hi + [lo];
      assert s[..|s| - 1] == hi && s[|s| - 1] == lo;
      assert n / 16 * 16 + n % 16 == n;
    }
  }

  /** A hexadecimal digit reads back as its value. */
  lemma HexDigitRoundTrip(d: nat)
    requires d < 16
    ensures HexDigitValue(HexChar(d)) == Some(d)
  {
  }

  // ---------------------------------------------------------------------
  // strconv.Quote
  // ---------------------------------------------------------------------

  /** The letter of Go's one-letter escape for a control character, if it has one. */
  function ShortEscape(c: char): Option<char>
  {
    match c as int
    case 7 => Some('a')
    case 8 => Some('b')
    case 9 => Some('t')
    case 10 => Some('n')
    case 11 => Some('v')
    case 12 => Some('f')
    case 13 => Some('r')
    case _ => None
  }

  /** The control character a one-letter escape stands for. */
  function ShortUnescape(e: char): Option<char>
  {
    match e
    case 'a' => Some(7 as char)
    case 'b' => Some(8 as char)
    case 't' => Some(9 as char)
    case 'n' => Some(10 as char)
    case 'v' => Some(11 as char)
    case 'f' => Some(12 as char)
    case 'r' => Some(13 as char)
    case _ => None
  }

  /**
   * strconv's escaping of one character inside double quotes: the quote
   * and the backslash get a backslash, printable ASCII stays, the seven
   * control characters with a letter get it, the other ASCII control
   * characters become `\x` and two lower-case hex digits. Characters
   * beyond ASCII are taken as printable.
   */
  function QuoteChar(c: char): string
  {
    if c == '"' || c == '\\' then ['\\', c]
    else if ' ' <= c < 127 as char || c as int >= 128 then [c]
    else if ShortEscape(c).Some? then ['\\', ShortEscape(c).value]
    else ['\\', 'x', HexChar(c as int / 16), HexChar(c as int % 16)]
  }

  function QuoteBody(s: string): string
  {
    if s == [] then [] else QuoteChar(s[0]) + QuoteBody(s[1..])
  }

  /** strconv.Quote, the `%q` verb on a string. */
  function Quote(s: string): string
  {
    "\"" + QuoteBody(s) + "\""
  }

  function ConsOpt(c: char, r: Option<string>): Option<string>
  {
    if r.Some? then Some([c] + r.value) else None
  }

  /** Reads back the escapes QuoteBody writes (strconv.Unquote's rules for them). */
  function UnquoteBody(q: string): Option<string>
    decreases |q|
  {
    if q == [] then Some([])
    else if q[0] == '"' then None
    else if q[0] != '\\' then ConsOpt(q[0], UnquoteBody(q[1..]))
    else if |q| < 2 then None
    else if q[1] == '"' || q[1] == '\\' then ConsOpt(q[1], UnquoteBody(q[2..]))
    else if ShortUnescape(q[1]).Some? then ConsOpt(ShortUnescape(q[1]).value, UnquoteBody(q[2..]))
    else if q[1] == 'x' && |q| >= 4 && HexDigitValue(q[2]).Some? && HexDigitValue(q[3]).Some? then
      var v := HexDigitValue(q[2]).value * 16 + HexDigitValue(q[3]).value;
      if v < 256 then ConsOpt(v as char, UnquoteBody(q[4..])) else None
    else None
  }

  /** Text of digits and minus signs is quoted as it stands. */
  lemma {:induction false} QuotePlain(s: string)
    requires forall i :: 0 <= i < |s| ==> IsDigit(s[i]) || s[i] == '-'
    ensures QuoteBody(s) == s
    decreases |s|
  {
    if s != [] {
      QuotePlain(s[1..]);
      assert s == [s[0]] + s[1..];
    }
  }

  /** strconv.Quote leaves a decimal number as it is, between the quotes. */
  lemma QuoteDec(i: int)
    ensures Quote(IntToDec(i)) == "\"" + IntToDec(i) + "\""
  {
    var s := IntToDec(i);
    assert forall k :: 0 <= k < |s| ==> IsDigit(s[k]) || s[k] == '-';
    QuotePlain(s);
  }

  /** Reading back one escaped character, then the rest. */
  lemma UnquoteChar(c: char, rest: string)
    ensures UnquoteBody(QuoteChar(c) + rest) == ConsOpt(c, UnquoteBody(rest))
  {
    var q := QuoteChar(c) + rest;
    if c == '"' || c == '\\' {
      assert q[2..] == rest;
    } else if ' ' <= c < 127 as char || c as int >= 128 {
      assert q[1..] == rest;
    } else if ShortEscape(c).Some? {
      assert q[2..] == rest;
    } else {
      HexDigitRoundTrip(c as int / 16);
      HexDigitRoundTrip(c as int % 16);
      assert q[4..] == rest;
    }
  }

  /** strconv.Unquote reads back what strconv.Quote wrote. */
  lemma {:induction false} QuoteRoundTrip(s: string)
    ensures UnquoteBody(QuoteBody(s)) == Some(s)
    decreases |s|
  {
    if s != [] {
      QuoteRoundTrip(s[1..]);
      UnquoteChar(s[0], QuoteBody(s[1..]));
      assert [s[0]] + s[1..] == s;
    }
  }

  /** strings.ToLower restricted to ASCII letters. */
  function ToLower(s: string): (r: string)
    ensures |r| == |s|
    ensures forall i :: 0 <= i < |s| ==> (if 'A' <= s[i] <= 'Z' then r[i] as int == s[i] as int + 32 else r[i] == s[i])
  {
    if s == [] then []
    else
      var c := s[0];
      [if 'A' <= c <= 'Z' then (c as int + 32) as char else c] + ToLower(s[1..])
  }

  /** Replaces every occurrence of the character `c` by the string `rep`. */
  function ReplaceChar(s: string, c: char, rep: string): string
  {
    if s == [] then []
    else (if s[0] == c then rep else [s[0]]) + ReplaceChar(s[1..], c, rep)
  }

  // ---------------------------------------------------------------------
  // Enumerations of a map's keys (Go map iteration order is unspecified)
  // ---------------------------------------------------------------------

  predicate Distinct<T(==)>(xs: seq<T>)
  {
    forall i, j :: 0 <= i < j < |xs| ==> xs[i] != xs[j]
  }

  /** `xs` lists every element of `s` exactly once, in some order. */
  predicate Enumerates<T(==)>(xs: seq<T>, s: set<T>)
  {
    Distinct(xs) && (forall i :: 0 <= i < |xs| ==> xs[i] in s) && (forall x :: x in s ==> x in xs)
  }

  lemma {:induction false} EnumerationSize<T>(xs: seq<T>, s: set<T>)
    requires Enumerates(xs, s)
    ensures |xs| == |s|
  {
    if xs == [] {
      assert s == {};
    } else {
      var rest := s - {xs[0]};
      assert Enumerates(xs[1..], rest) by {
        forall x | x in rest ensures x in xs[1..] {
          var k :| 0 <= k < |xs| && xs[k] == x;
          assert k != 0;
          assert xs[1..][k - 1] == x;
        }
        forall i | 0 <= i < |xs[1..]| ensures xs[1..][i] in rest {
          assert xs[1..][i] == xs[i + 1];
          assert xs[0] != xs[i + 1];
        }
      }
      EnumerationSize(xs[1..], rest);
    }
  }
}
