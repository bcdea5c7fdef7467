/**
 * Decoding of Lua string literals into byte strings, as the parser's `Str` helper does it:
 * short strings ("..." and '...') have their escapes decoded, long strings ([==[...]==]) are
 * taken verbatim. The decoder follows the code, not the Lua 5.2 manual: there is no `\x` or
 * `\z`, a decimal escape keeps only the low 8 bits of its value, and a backslash before any
 * other character just drops the backslash.
 */
module Str {
  import opened Wrappers
  import opened Bytes

  /** What the JVM would throw. */
  datatype StrError =
    | IndexOutOfBounds      // reading the char after a trailing backslash
    | SubstringOutOfBounds  // `substring` with an empty or inverted range

  predicate IsDigit(c: char) {
    '0' <= c <= '9'
  }

  function DigitValue(c: char): (d: nat)
    requires IsDigit(c)
    ensures d <= 9
  {
    c as int - '0' as int
  }

  predicate AllDigits(ds: string) {
    forall k :: 0 <= k < |ds| ==> IsDigit(ds[k])
  }

  /** The value of a run of decimal digits, read left to right as `d = d * 10 + digit`. */
  function DecimalValue(ds: string): (v: nat)
    requires AllDigits(ds)
  {
    if |ds| == 0 then 0 else DecimalValue(ds[..|ds| - 1]) * 10 + DigitValue(ds[|ds| - 1])
  }

  /**
   * How many chars a decimal escape takes when its first digit is t[0]: that digit and then
   * greedily at most two more.
   */
  function DecimalLength(t: string): (n: nat)
    requires |t| > 0 && IsDigit(t[0])
    ensures 1 <= n <= 3 && n <= |t|
    ensures AllDigits(t[..n])
    ensures n < 3 && n < |t| ==> !IsDigit(t[n])
  {
    if |t| > 1 && IsDigit(t[1]) then
      if |t| > 2 && IsDigit(t[2]) then 3 else 2
    else 1
  }

  /** The one-letter escapes the decoder knows, with the byte each stands for. */
  function NamedEscape(e: char): Option<Byte> {
    match e
    case 'a' => Some(7)
    case 'b' => Some(8)
    case 'f' => Some(12)
    case 'n' => Some(10)
    case 'r' => Some(13)
    case 't' => Some(9)
    case 'v' => Some(11)
    case '"' => Some(34)
    case '\'' => Some(39)
    case '\\' => Some(92)
    case _ => None
  }

  /** The byte a backslash followed by the non-digit e stands for: a named escape, or e itself. */
  function EscapeByte(e: char): Byte {
    match NamedEscape(e)
    case Some(b) => b
    case None => LowByte(e as nat)
  }

  /** Prefix a successful decoding with more bytes; a failure stays a failure. */
  function Prepend(bs: seq<Byte>, r: Result<seq<Byte>, StrError>): Result<seq<Byte>, StrError> {
    match r
    case Success(rest) => Success(bs + rest)
    case Failure(e) => Failure(e)
  }

  /** One byte per char, the char's low 8 bits: what the decoder does with plain text. */
  function LowBytes(s: string): (r: seq<Byte>)
    ensures |r| == |s|
    ensures forall k :: 0 <= k < |s| ==> r[k] as int == s[k] as int % 256
  {
    seq(|s|, k requires 0 <= k < |s| => LowByte(s[k] as nat))
  }

  /**
   * The bytes a short-string body decodes to: the specification of `Unquote`, one escape or
   * plain char at a time from the front.
   */
  function Unquoted(s: string): (r: Result<seq<Byte>, StrError>)
    ensures r.Failure? ==> r.error == IndexOutOfBounds
    ensures '\\' !in s ==> r.Success? && |r.value| == |s|
    decreases |s|
  {
    if |s| == 0 then Success([])
    else if s[0] != '\\' then Prepend([LowByte(s[0] as nat)], Unquoted(s[1..]))
    else if |s| == 1 then Failure(IndexOutOfBounds)
    else if IsDigit(s[1]) then
      var n := DecimalLength(s[1..]);
      Prepend([LowByte(DecimalValue(s[1..1 + n]))], Unquoted(s[1 + n..]))
    else Prepend([EscapeByte(s[1])], Unquoted(s[2..]))
  }

  lemma PrependAssoc(buf: seq<Byte>, b: Byte, r: Result<seq<Byte>, StrError>)
    ensures Prepend(buf, Prepend([b], r)) == Prepend(buf + [b], r)
  {
    if r.Success? {
      assert buf + ([b] + r.value) == (buf + [b]) + r.value;
    }
  }

  /** Unfolding of `Unquoted` at a plain char. */
  lemma UnquotedPlainAt(s: string, i: nat)
    requires i < |s| && s[i] != '\\'
    ensures Unquoted(s[i..]) == Prepend([LowByte(s[i] as nat)], Unquoted(s[i + 1..]))
  {
    assert s[i..][1..] == s[i + 1..];
  }

  /** Unfolding of `Unquoted` at a backslash followed by a char that is not a digit. */
  lemma UnquotedEscapeAt(s: string, i: nat)
    requires i + 1 < |s| && s[i] == '\\' && !IsDigit(s[i + 1])
    ensures Unquoted(s[i..]) == Prepend([EscapeByte(s[i + 1])], Unquoted(s[i + 2..]))
  {
    assert s[i..][2..] == s[i + 2..];
  }

  /** Unfolding of `Unquoted` at a decimal escape that ends before index e. */
  lemma UnquotedDecimalAt(s: string, i: nat, e: nat)
    requires i + 1 < |s| && s[i] == '\\' && IsDigit(s[i + 1])
    requires e == i + 1 + DecimalLength(s[i + 1..])
    ensures Unquoted(s[i..]) == Prepend([LowByte(DecimalValue(s[i + 1..e]))], Unquoted(s[e..]))
  {
    var t := s[i..];
    var n := DecimalLength(t[1..]);
    assert t[1..] == s[i + 1..];
    assert t[1..1 + n] == s[i + 1..e];
    assert t[1 + n..] == s[e..];
  }

  /** Reading one more digit of a decimal escape. */
  lemma DecimalValueSnoc(s: string, a: nat, b: nat)
    requires a <= b < |s| && AllDigits(s[a..b]) && IsDigit(s[b])
    ensures AllDigits(s[a..b + 1])
    ensures DecimalValue(s[a..b + 1]) == DecimalValue(s[a..b]) * 10 + DigitValue(s[b])
  {
    assert s[a..b + 1][..b - a] == s[a..b];
  }

  /** Where the digit loop stops is where `DecimalLength` says the escape ends. */
  lemma DecimalLoopEnd(s: string, first: nat, i: nat)
    requires first < i <= |s| && i <= first + 3 && AllDigits(s[first..i])
    requires i == |s| || i == first + 3 || !IsDigit(s[i])
    ensures i == first + DecimalLength(s[first..])
  {
    var t := s[first..];
    assert forall k :: 0 <= k < i - first ==> t[k] == s[first..i][k];
  }

  /**
   * The digit loop of a decimal escape whose first digit is at `first`: it reads that digit and
   * at most two more, and returns their value and the index after them.
   */
  method ReadDecimal(s: string, first: nat) returns (d: nat, i: nat)
    requires first < |s| && IsDigit(s[first])
    ensures i == first + DecimalLength(s[first..])
    ensures AllDigits(s[first..i]) && d == DecimalValue(s[first..i])
  {
    var n := |s|;
    d := DigitValue(s[first]);
    i := first + 1;
    var j := 0;
    assert s[first..i] == [s[first]];
    while i < n && j < 2 && IsDigit(s[i])
      invariant first + 1 <= i <= n && i == first + 1 + j && j <= 2
      invariant AllDigits(s[first..i])
      invariant d == DecimalValue(s[first..i])
      decreases n - i
    {
      DecimalValueSnoc(s, first, i);
      d := d * 10 + DigitValue(s[i]);
      i := i + 1;
      j := j + 1;
    }
    DecimalLoopEnd(s, first, i);
  }

  /**
   * The decoding loop: an index walks the chars and every iteration appends exactly one byte
   * to the output buffer.
   */
  method Unquote(s: string) returns (r: Result<seq<Byte>, StrError>)
    ensures r == Unquoted(s)
  {
    var buf: seq<Byte> := [];
    var n := |s|;
    var i := 0;
    assert s[i..] == s;
    assert Prepend(buf, Unquoted(s)) == Unquoted(s) by {
      match Unquoted(s) case Success(v) => assert buf + v == v; case Failure(_) =>
    }
    while i < n
      invariant 0 <= i <= n
      invariant Prepend(buf, Unquoted(s[i..])) == Unquoted(s)
      decreases n - i
    {
      // The code also tests `i < n` here, which always holds inside the loop.
      if s[i] == '\\' {
        i := i + 1;
        if i >= n {
          assert s[i - 1..] == ['\\'];
          return Failure(IndexOutOfBounds);
        }
        var e := s[i];
        if IsDigit(e) {
          ghost var first := i;
          var d;
          d, i := ReadDecimal(s, i);
          UnquotedDecimalAt(s, first - 1, i);
          PrependAssoc(buf, LowByte(d), Unquoted(s[i..]));
          buf := buf + [LowByte(d)];
          continue;
        }
        // A named escape, or any other char standing for itself.
        UnquotedEscapeAt(s, i - 1);
        PrependAssoc(buf, EscapeByte(e), Unquoted(s[i + 1..]));
        buf := buf + [EscapeByte(e)];
      } else {
        UnquotedPlainAt(s, i);
        PrependAssoc(buf, LowByte(s[i] as nat), Unquoted(s[i + 1..]));
        buf := buf + [LowByte(s[i] as nat)];
      }
      i := i + 1;
    }
    assert Unquoted(s[n..]) == Success([]);
    assert buf + [] == buf;
    r := Success(buf);
  }

  /** Plain text decodes char by char into the chars' low 8 bits, whatever follows it. */
  lemma {:induction false} UnquotedPlainPrefix(p: string, t: string)
    requires '\\' !in p
    ensures Unquoted(p + t) == Prepend(LowBytes(p), Unquoted(t))
  {
    if |p| == 0 {
      assert p + t == t;
      match Unquoted(t) case Success(v) => assert [] + v == v; case Failure(_) =>
    } else {
      assert (p + t)[1..] == p[1..] + t;
      UnquotedPlainPrefix(p[1..], t);
      assert LowBytes(p) == [LowByte(p[0] as nat)] + LowBytes(p[1..]);
      match Unquoted(t)
      case Success(v) =>
        assert [LowByte(p[0] as nat)] + (LowBytes(p[1..]) + v) == LowBytes(p) + v;
      case Failure(_) =>
    }
  }

  /** A string with no backslash decodes to exactly one byte per char: the char's low 8 bits. */
  lemma UnquotedNoBackslash(s: string)
    requires '\\' !in s
    ensures Unquoted(s) == Success(LowBytes(s))
  {
    UnquotedPlainPrefix(s, []);
    assert s + [] == s;
    assert LowBytes(s) + [] == LowBytes(s);
  }

  /**
   * Every step consumes at least one char and emits exactly one byte, so the output is never
   * longer than the input; an escape consumes at least two chars, so a decoded string that
   * contains a backslash is strictly shorter than its source.
   */
  lemma {:induction false} UnquotedLength(s: string)
    requires Unquoted(s).Success?
    ensures |Unquoted(s).value| <= |s|
    ensures '\\' in s ==> |Unquoted(s).value| < |s|
    decreases |s|
  {
    if |s| > 0 {
      if s[0] != '\\' {
        UnquotedLength(s[1..]);
        assert '\\' in s ==> '\\' in s[1..];
      } else if IsDigit(s[1]) {
        UnquotedLength(s[1 + DecimalLength(s[1..])..]);
      } else {
        UnquotedLength(s[2..]);
      }
    }
  }

  /** A backslash and a non-digit at the front of the text decode to one byte. */
  lemma EscapeAtFront(e: char, t: string)
    requires !IsDigit(e)
    ensures Unquoted([ '\\', e] + t) == Prepend([EscapeByte(e)], Unquoted(t))
  {
    UnquotedEscapeAt([ '\\', e] + t, 0);
    assert ([ '\\', e] + t)[0..] == [ '\\', e] + t;
    assert ([ '\\', e] + t)[2..] == t;
  }

  /**
   * The bell, backspace, form-feed and vertical-tab escapes each consume two chars and emit one
   * fixed byte.
   */
  lemma ControlEscapes(t: string)
    ensures Unquoted([ '\\', 'a'] + t) == Prepend([7], Unquoted(t))
    ensures Unquoted([ '\\', 'b'] + t) == Prepend([8], Unquoted(t))
    ensures Unquoted([ '\\', 'f'] + t) == Prepend([12], Unquoted(t))
    ensures Unquoted([ '\\', 'v'] + t) == Prepend([11], Unquoted(t))
  {
    assert EscapeByte('a') == 7 && EscapeByte('b') == 8 && EscapeByte('f') == 12 && EscapeByte('v') == 11;
    EscapeAtFront('a', t);
    EscapeAtFront('b', t);
    EscapeAtFront('f', t);
    EscapeAtFront('v', t);
  }

  /** The newline, carriage-return and tab escapes each consume two chars and emit one byte. */
  lemma LineEscapes(t: string)
    ensures Unquoted([ '\\', 'n'] + t) == Prepend([10], Unquoted(t))
    ensures Unquoted([ '\\', 'r'] + t) == Prepend([13], Unquoted(t))
    ensures Unquoted([ '\\', 't'] + t) == Prepend([9], Unquoted(t))
  {
    assert EscapeByte('n') == 10 && EscapeByte('r') == 13 && EscapeByte('t') == 9;
    EscapeAtFront('n', t);
    EscapeAtFront('r', t);
    EscapeAtFront('t', t);
  }

  /** The quote and backslash escapes consume two chars and emit the quoted char. */
  lemma QuoteEscapes(t: string)
    ensures Unquoted([ '\\', '"'] + t) == Prepend([34], Unquoted(t))
    ensures Unquoted([ '\\', '\''] + t) == Prepend([39], Unquoted(t))
    ensures Unquoted([ '\\', '\\'] + t) == Prepend([92], Unquoted(t))
  {
    assert EscapeByte('"') == 34 && EscapeByte('\'') == 39 && EscapeByte('\\') == 92;
    EscapeAtFront('"', t);
    EscapeAtFront('\'', t);
    EscapeAtFront('\\', t);
  }

  /**
   * Any other non-digit after a backslash stands for itself: the backslash is dropped, so
   * `\x` decodes to `x` (there are no hexadecimal escapes).
   */
  lemma OtherEscape(e: char, t: string)
    requires !IsDigit(e) && NamedEscape(e).None?
    ensures Unquoted([ '\\', e] + t) == Prepend([LowByte(e as nat)], Unquoted(t))
  {
    EscapeAtFront(e, t);
  }

  /**
   * A decimal escape is its first digit and greedily at most two more, and emits the low 8 bits
   * of the value: the digits must be followed by a non-digit, by the end, or be three already.
   */
  lemma DecimalEscape(ds: string, t: string)
    requires 1 <= |ds| <= 3 && AllDigits(ds)
    requires |ds| == 3 || t == [] || !IsDigit(t[0])
    ensures Unquoted([ '\\'] + ds + t) == Prepend([LowByte(DecimalValue(ds))], Unquoted(t))
  {
    var s := [ '\\'] + ds + t;
    assert s[1..] == ds + t;
    DecimalLoopEnd(s, 1, 1 + |ds|);
    UnquotedDecimalAt(s, 0, 1 + |ds|);
    assert s[0..] == s;
    assert s[1..1 + |ds|] == ds;
    assert s[1 + |ds|..] == t;
  }

  /** A fourth digit is not part of the escape: it decodes as an ordinary char. */
  lemma FourthDigitIsPlain(ds: string, d: char, t: string)
    requires |ds| == 3 && AllDigits(ds) && IsDigit(d)
    ensures Unquoted([ '\\'] + ds + [d] + t)
         == Prepend([LowByte(DecimalValue(ds)), LowByte(d as nat)], Unquoted(t))
  {
    var v := LowByte(DecimalValue(ds));
    assert [ '\\'] + ds + [d] + t == [ '\\'] + ds + ([d] + t);
    DecimalEscape(ds, [d] + t);
    UnquotedPlainAt([d] + t, 0);
    assert ([d] + t)[0..] == [d] + t;
    assert ([d] + t)[1..] == t;
    assert Unquoted([d] + t) == Prepend([LowByte(d as nat)], Unquoted(t));
    PrependAssoc([v], LowByte(d as nat), Unquoted(t));
    assert [v] + [LowByte(d as nat)] == [v, LowByte(d as nat)];
  }

  /** A decimal escape alone. */
  lemma DecimalEscapeAlone(ds: string)
    requires 1 <= |ds| <= 3 && AllDigits(ds)
    ensures Unquoted([ '\\'] + ds) == Success([LowByte(DecimalValue(ds))])
  {
    DecimalEscape(ds, "");
    assert [ '\\'] + ds + "" == [ '\\'] + ds;
    assert [LowByte(DecimalValue(ds))] + [] == [LowByte(DecimalValue(ds))];
  }

  /** A decimal escape on concrete text: `\65` is the byte 65. */
  lemma DecimalEscapeExample()
    ensures Unquoted("\\65") == Success([65])
  {
    DecimalEscapeAlone("65");
    assert [ '\\'] + "65" == "\\65";
    assert DecimalValue("65") == 65 by { assert "65"[..1] == "6" && "6"[..0] == ""; }
  }

  /** A decimal escape above 255 keeps only its low byte: `\256` is 0. */
  lemma DecimalEscapeWrapsToZero()
    ensures Unquoted("\\256") == Success([0])
  {
    DecimalEscapeAlone("256");
    assert [ '\\'] + "256" == "\\256";
    assert DecimalValue("256") == 256 by { assert "256"[..2] == "25" && "25"[..1] == "2" && "2"[..0] == ""; }
  }

  /** Likewise `\300` is 300 - 256 = 44. */
  lemma DecimalEscapeWrapsAround()
    ensures Unquoted("\\300") == Success([44])
  {
    DecimalEscapeAlone("300");
    assert [ '\\'] + "300" == "\\300";
    assert DecimalValue("300") == 300 by { assert "300"[..2] == "30" && "30"[..1] == "3" && "3"[..0] == ""; }
  }

  /** `\0659` is the escape `\065` followed by the plain char `9`. */
  lemma FourthDigitExample()
    ensures Unquoted("\\0659") == Success([65, 57])
  {
    FourthDigitIsPlain("065", '9', "");
    assert [ '\\'] + "065" + ['9'] + "" == "\\0659";
    assert DecimalValue("065") == 65 by { assert "065"[..2] == "06" && "06"[..1] == "0" && "0"[..0] == ""; }
    var bs: seq<Byte> := [65, 57];
    assert bs + [] == bs;
  }

  /**
   * A backslash as the last char makes the decoder read one char past the end of its input
   * (the code's guard `i < n` is always true there), which the JVM reports as an error: once
   * everything before it decodes, whatever it holds, the whole input fails.
   */
  lemma {:induction false} TrailingBackslash(p: string)
    requires Unquoted(p).Success?
    ensures Unquoted(p + "\\") == Failure(IndexOutOfBounds)
    decreases |p|
  {
    var s := p + "\\";
    if |p| == 0 {
      assert s == "\\";
    } else if p[0] != '\\' {
      assert Unquoted(p[1..]).Success?;
      TrailingBackslash(p[1..]);
      assert s[1..] == p[1..] + "\\";
    } else if IsDigit(p[1]) {
      TrailingBackslashAfterDecimal(p);
    } else {
      assert Unquoted(p[2..]).Success?;
      TrailingBackslash(p[2..]);
      assert s[2..] == p[2..] + "\\";
    }
  }

  /** The decimal-escape step of `TrailingBackslash`. */
  lemma {:induction false} TrailingBackslashAfterDecimal(p: string)
    requires |p| > 1 && p[0] == '\\' && IsDigit(p[1]) && Unquoted(p).Success?
    ensures Unquoted(p + "\\") == Failure(IndexOutOfBounds)
    decreases |p|, 0
  {
    var s := p + "\\";
    var n := DecimalLength(p[1..]);
    assert 1 + n <= |p|;
    assert Unquoted(p[1 + n..]).Success?;
    TrailingBackslash(p[1 + n..]);
    assert s[1..] == p[1..] + "\\";
    DecimalLengthExtended(p[1..], "\\");
    assert s[1..1 + n] == p[1..1 + n];
    assert s[1 + n..] == p[1 + n..] + "\\";
  }

  /** Chars after an escape's last digit do not change where the escape ends. */
  lemma DecimalLengthExtended(t: string, u: string)
    requires |t| > 0 && IsDigit(t[0])
    requires |u| > 0 && !IsDigit(u[0])
    ensures DecimalLength(t + u) == DecimalLength(t)
  {
  }

  // Short strings

  /** `quoteString`: the literal without its first and last char (the quotes), unquoted. */
  function QuoteString(image: string): (r: Result<seq<Byte>, StrError>)
    ensures |image| < 2 ==> r == Failure(SubstringOutOfBounds)
    ensures r.Success? ==> |r.value| <= |image| - 2
  {
    if |image| < 2 then Failure(SubstringOutOfBounds)
    else
      var body := image[1..|image| - 1];
      if Unquoted(body).Success? then UnquotedLength(body); Unquoted(body)
      else Unquoted(body)
  }

  /** `charString`: the same steps as `quoteString`, for literals written with single quotes. */
  function CharString(image: string): (r: Result<seq<Byte>, StrError>)
    ensures |image| < 2 ==> r == Failure(SubstringOutOfBounds)
    ensures r.Success? ==> |r.value| <= |image| - 2
  {
    if |image| < 2 then Failure(SubstringOutOfBounds)
    else
      var body := image[1..|image| - 1];
      if Unquoted(body).Success? then UnquotedLength(body); Unquoted(body)
      else Unquoted(body)
  }

  /**
   * Both short-string forms strip one char at each end, whatever those chars are, and decode
   * what is between them.
   */
  lemma ShortStringDelimiters(open: char, body: string, close: char)
    ensures QuoteString([open] + body + [close]) == Unquoted(body)
    ensures CharString([open] + body + [close]) == Unquoted(body)
    ensures QuoteString([open] + body + [close]) == CharString([open] + body + [close])
  {
    assert ([open] + body + [close])[1..|body| + 1] == body;
  }

  lemma QuoteStringAgreesWithCharString(image: string)
    ensures QuoteString(image) == CharString(image)
  {
  }

  // Long strings

  /**
   * `String.indexOf(c, from)`: the first index at or after `from` (a negative `from` counts
   * as 0) holding c, or -1.
   */
  function IndexOf(s: string, c: char, from: int): (r: int)
    ensures -1 <= r < |s|
    ensures r == -1 ==> forall k :: 0 <= k < |s| && from <= k ==> s[k] != c
    ensures r >= 0 ==> from <= r && s[r] == c && forall k :: 0 <= k < r && from <= k ==> s[k] != c
    decreases |s| - from
  {
    if from < 0 then IndexOf(s, c, 0)
    else if from >= |s| then -1
    else if s[from] == c then from
    else IndexOf(s, c, from + 1)
  }

  /**
   * `iso88591bytes`: one byte per char; a char that ISO-8859-1 cannot represent becomes the
   * encoder's replacement byte `?`.
   */
  function Iso88591Bytes(s: string): (r: seq<Byte>)
    ensures |r| == |s|
    ensures forall k :: 0 <= k < |s| && s[k] as int <= 255 ==> r[k] as int == s[k] as int
    ensures forall k :: 0 <= k < |s| && s[k] as int > 255 ==> r[k] as int == '?' as int
  {
    seq(|s|, k requires 0 <= k < |s| => if s[k] as int <= 255 then s[k] as int as Byte else '?' as int as Byte)
  }

  /**
   * `longString`: k chars are cut from each end, where k is one past the index of the second
   * `[`; what remains is encoded as it is, without decoding escapes.
   */
  function LongString(image: string): (r: Result<seq<Byte>, StrError>)
    ensures r.Failure? ==> r.error == SubstringOutOfBounds
    ensures r.Success? ==> |r.value| <= |image| && (|image| - |r.value|) % 2 == 0
    ensures '[' !in image ==> r == Success(Iso88591Bytes(image))
  {
    var i := IndexOf(image, '[', IndexOf(image, '[', 0) + 1) + 1;
    assert '[' !in image ==> i == 0 && image[i..|image| - i] == image;
    if i > |image| - i then Failure(SubstringOutOfBounds)
    else Success(Iso88591Bytes(image[i..|image| - i]))
  }

  /** s without its first k and its last k chars. */
  function Trimmed(s: string, k: nat): string
    requires k <= |s| - k
  {
    s[k..|s| - k]
  }

  /** A long string is the image with the same number of chars cut from each end, encoded. */
  lemma LongStringCutsBothEnds(image: string)
    requires LongString(image).Success?
    ensures exists k: nat :: k <= |image| - k && LongString(image).value == Iso88591Bytes(Trimmed(image, k))
  {
    var k := IndexOf(image, '[', IndexOf(image, '[', 0) + 1) + 1;
    assert LongString(image) == Success(Iso88591Bytes(Trimmed(image, k)));
  }

  /** n equals signs: the level of a long bracket. */
  function Level(n: nat): (r: string)
    ensures |r| == n && forall k :: 0 <= k < n ==> r[k] == '='
  {
    seq(n, _ => '=')
  }

  /** A long string of any level yields its body's chars, with no escape decoding. */
  lemma LongStringBody(level: nat, body: string)
    ensures LongString("[" + Level(level) + "[" + body + "]" + Level(level) + "]")
         == Success(Iso88591Bytes(body))
  {
    var image := "[" + Level(level) + "[" + body + "]" + Level(level) + "]";
    assert IndexOf(image, '[', 0) == 0 by {
      assert image[0] == '[';
    }
    assert IndexOf(image, '[', 1) == level + 1 by {
      assert image[level + 1] == '[';
      assert forall k :: 1 <= k <= level ==> image[k] == '=';
    }
    assert image[level + 2..|image| - (level + 2)] == body;
  }

  /** The level-two half of `LongStringExamples`. */
  lemma LongStringLevelTwo()
    ensures LongString("[==[abc]==]") == Success([97, 98, 99])
  {
    LongStringBody(2, "abc");
    assert Level(2) == "==";
    assert "[" + Level(2) + "[" + "abc" + "]" + Level(2) + "]" == "[==[abc]==]";
    var abc := Iso88591Bytes("abc");
    assert abc[0] == 97 && abc[1] == 98 && abc[2] == 99;
    assert abc == [97, 98, 99];
  }

  /** `[==[abc]==]` is the three bytes of abc, and `[[a\nb]]` keeps its backslash. */
  lemma LongStringExamples()
    ensures LongString("[==[abc]==]") == Success([97, 98, 99])
    ensures LongString("[[a\\nb]]") == Success([97, 92, 110, 98])
  {
    LongStringLevelTwo();
    LongStringBody(0, "a\\nb");
    assert Level(0) == "";
    assert "[" + Level(0) + "[" + "a\\nb" + "]" + Level(0) + "]" == "[[a\\nb]]";
    var anb := Iso88591Bytes("a\\nb");
    assert anb[0] == 97 && anb[1] == 92 && anb[2] == 110 && anb[3] == 98;
    assert anb == [97, 92, 110, 98];
  }

  /** On Latin-1 text without backslashes, long and short strings give the same bytes. */
  lemma LongAndShortAgreeOnPlainLatin1(body: string)
    requires '\\' !in body
    requires forall k :: 0 <= k < |body| ==> body[k] as int <= 255
    ensures Unquoted(body) == Success(Iso88591Bytes(body))
  {
    UnquotedNoBackslash(body);
    var low, latin := LowBytes(body), Iso88591Bytes(body);
    forall k | 0 <= k < |body| ensures low[k] == latin[k] {
      LowByteOfByte(body[k] as nat);
    }
    assert low == latin;
  }
}
