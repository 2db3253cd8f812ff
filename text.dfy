/**
 * Text utilities shared by the encoders: delimiter doubling and the reader that
 * undoes it, decimal rendering of integers and its parser, and joining lines.
 */
module Text {

  datatype Option<T> = None | Some(value: T)

  // ---------------------------------------------------------------------------
  // Doubling a delimiter (Python's s.replace(q, q + q))
  // ---------------------------------------------------------------------------

  /** `s` with every occurrence of the delimiter `q` written twice. */
  function Doubled(s: string, q: char): string
  {
    if |s| == 0 then []
    else (if s[0] == q then [q, q] else [s[0]]) + Doubled(s[1..], q)
  }

  /** Doubling leaves a text without the delimiter unchanged. */
  lemma {:induction false} DoubledWithoutDelimiter(s: string, q: char)
    requires q !in s
    ensures Doubled(s, q) == s
    decreases |s|
  {
    if |s| > 0 {
      assert q !in s[1..] by {
        forall i | 0 <= i < |s[1..]| ensures s[1..][i] != q {
          assert s[1..][i] == s[i + 1];
        }
      }
      DoubledWithoutDelimiter(s[1..], q);
      assert s == [s[0]] + s[1..];
    }
  }

  /** Doubling distributes over concatenation. */
  lemma {:induction false} DoubledAppend(a: string, b: string, q: char)
    ensures Doubled(a + b, q) == Doubled(a, q) + Doubled(b, q)
    decreases |a|
  {
    if |a| > 0 {
      DoubledAppend(a[1..], b, q);
      assert (a + b)[1..] == a[1..] + b;
    } else {
      assert a + b == b;
    }
  }

  /** A text with one delimiter gets exactly that delimiter doubled. */
  lemma DoubledOne(a: string, b: string, q: char)
    requires q !in a && q !in b
    ensures Doubled(a + [q] + b, q) == a + [q, q] + b
  {
    DoubledAppend(a + [q], b, q);
    DoubledAppend(a, [q], q);
    DoubledWithoutDelimiter(a, q);
    DoubledWithoutDelimiter(b, q);
    assert Doubled([q], q) == [q, q] + Doubled([], q);
  }

  /** `s` between two delimiters, with every inner delimiter doubled. */
  function Quoted(s: string, q: char): string
  {
    [q] + Doubled(s, q) + [q]
  }

  /**
   * Reads the inside of a literal delimited by `q` whose opening delimiter has
   * already been consumed, the way an SQL lexer reads a quoted string or
   * identifier and a CSV reader reads a quoted field: a doubled delimiter
   * stands for one delimiter, a single one ends the literal. Gives the
   * decoded contents and the text after the closing delimiter, or None when
   * the text ends before the literal is closed.
   */
  function ReadBody(t: string, q: char): Option<(string, string)>
    decreases |t|
  {
    if |t| == 0 then None
    else if t[0] != q then
      match ReadBody(t[1..], q)
      case None => None
      case Some(p) => Some(([t[0]] + p.0, p.1))
    else if |t| >= 2 && t[1] == q then
      match ReadBody(t[2..], q)
      case None => None
      case Some(p) => Some(([q] + p.0, p.1))
    else Some(([], t[1..]))
  }

  /** Reads one `q`-delimited literal at the start of `t`. */
  function ReadLiteral(t: string, q: char): Option<(string, string)>
  {
    if |t| > 0 && t[0] == q then ReadBody(t[1..], q) else None
  }

  /** One step of the reader over a character other than the delimiter. */
  lemma ReadBodyPlain(c: char, tail: string, q: char)
    requires c != q
    ensures ReadBody([c] + tail, q) ==
              match ReadBody(tail, q)
              case None => None
              case Some(p) => Some(([c] + p.0, p.1))
  {
    assert ([c] + tail)[1..] == tail;
  }

  /** One step of the reader over a doubled delimiter. */
  lemma ReadBodyPair(tail: string, q: char)
    ensures ReadBody([q, q] + tail, q) ==
              match ReadBody(tail, q)
              case None => None
              case Some(p) => Some(([q] + p.0, p.1))
  {
    assert ([q, q] + tail)[2..] == tail;
  }

  /** The reader stops at a single delimiter. */
  lemma ReadBodyEnd(rest: string, q: char)
    requires rest == [] || rest[0] != q
    ensures ReadBody([q] + rest, q) == Some(([], rest))
  {
    assert ([q] + rest)[1..] == rest;
  }

  /** Doubling one character in front of a text. */
  lemma DoubledCons(c: char, s: string, q: char)
    ensures Doubled([c] + s, q) == (if c == q then [q, q] else [c]) + Doubled(s, q)
  {
    assert ([c] + s)[1..] == s;
  }

  lemma {:induction false} ReadBodyOfDoubled(s: string, q: char, rest: string)
    requires rest == [] || rest[0] != q
    ensures ReadBody(Doubled(s, q) + [q] + rest, q) == Some((s, rest))
    decreases |s|
  {
    var t := Doubled(s, q) + [q] + rest;
    if |s| == 0 {
      assert t == [q] + rest;
      ReadBodyEnd(rest, q);
    } else {
      var c, s' := s[0], s[1..];
      assert s == [c] + s';
      DoubledCons(c, s', q);
      var tail := Doubled(s', q) + [q] + rest;
      ReadBodyOfDoubled(s', q, rest);
      if c == q {
        assert t == [q, q] + tail;
        ReadBodyPair(tail, q);
      } else {
        assert t == [c] + tail;
        ReadBodyPlain(c, tail, q);
      }
      assert ReadBody(t, q) == Some(([c] + s', rest));
    }
  }

  lemma {:induction false} ReadBodyInverse(t: string, q: char)
    ensures ReadBody(t, q).Some? ==>
              var p := ReadBody(t, q).value;
              t == Doubled(p.0, q) + [q] + p.1 && (p.1 == [] || p.1[0] != q)
    decreases |t|
  {
    if |t| == 0 {
    } else if t[0] != q {
      var tail := t[1..];
      assert t == [t[0]] + tail;
      ReadBodyInverse(tail, q);
      ReadBodyPlain(t[0], tail, q);
      if ReadBody(tail, q).Some? {
        var p := ReadBody(tail, q).value;
        DoubledCons(t[0], p.0, q);
        RegroupFour([t[0]], Doubled(p.0, q), [q], p.1);
      }
    } else if |t| >= 2 && t[1] == q {
      var tail := t[2..];
      assert t == [q, q] + tail;
      ReadBodyInverse(tail, q);
      ReadBodyPair(tail, q);
      if ReadBody(tail, q).Some? {
        var p := ReadBody(tail, q).value;
        DoubledCons(q, p.0, q);
        RegroupFour([q, q], Doubled(p.0, q), [q], p.1);
      }
    } else {
      assert t == [q] + t[1..];
    }
  }

  /**
   * Quoting round-trips: a reader that starts at the opening delimiter gets
   * back exactly `s` and stops exactly at the end of the literal, whatever
   * follows, provided it does not begin with another delimiter.
   */
  lemma QuotedRoundTrip(s: string, q: char, rest: string)
    requires rest == [] || rest[0] != q
    ensures ReadLiteral(Quoted(s, q) + rest, q) == Some((s, rest))
  {
    var t := Quoted(s, q) + rest;
    assert t[1..] == Doubled(s, q) + [q] + rest;
    ReadBodyOfDoubled(s, q, rest);
  }

  /**
   * The converse: every literal the reader accepts is the quoting of what it
   * decodes, so quoting is the only encoding and no delimiter inside it is
   * left undoubled.
   */
  lemma ReadLiteralInverse(t: string, q: char)
    ensures ReadLiteral(t, q).Some? ==>
              var p := ReadLiteral(t, q).value;
              t == Quoted(p.0, q) + p.1 && (p.1 == [] || p.1[0] != q)
  {
    if |t| > 0 && t[0] == q {
      ReadBodyInverse(t[1..], q);
      assert t == [q] + t[1..];
    }
  }

  // ---------------------------------------------------------------------------
  // Decimal text of integers (Python's str(int))
  // ---------------------------------------------------------------------------

  predicate IsDigit(c: char)
  {
    '0' <= c <= '9'
  }

  predicate AllDigits(s: string)
  {
    forall i :: 0 <= i < |s| ==> IsDigit(s[i])
  }

  function DigitChar(d: nat): char
    requires d < 10
  {
    ('0' as int + d) as char
  }

  function DigitValue(c: char): int
  {
    c as int - '0' as int
  }

  /** Decimal digits of `n`, most significant first, without leading zeros. */
  function NatToDecimal(n: nat): (r: string)
    ensures |r| > 0 && AllDigits(r)
    ensures r[0] == '0' <==> n == 0
    ensures n == 0 ==> r == "0"
    decreases n
  {
    if n < 10 then [DigitChar(n)]
    else NatToDecimal(n / 10) + [DigitChar(n % 10)]
  }

  /** Decimal text of `i`, with a leading '-' when it is negative. */
  function IntToDecimal(i: int): string
  {
    if i < 0 then "-" + NatToDecimal(-i) else NatToDecimal(i)
  }

  /** Value of a string of decimal digits. */
  function DecimalValue(s: string): int
    decreases |s|
  {
    if |s| == 0 then 0
    else DecimalValue(s[..|s| - 1]) * 10 + DigitValue(s[|s| - 1])
  }

  /** Reads an optionally negative decimal integer. */
  function ParseInt(s: string): Option<int>
  {
    if |s| > 0 && AllDigits(s) then Some(DecimalValue(s))
    else if |s| > 1 && s[0] == '-' && AllDigits(s[1..]) then Some(-DecimalValue(s[1..]))
    else None
  }

  lemma {:induction false} NatDecimalRoundTrip(n: nat)
    ensures DecimalValue(NatToDecimal(n)) == n
    decreases n
  {
    if n >= 10 {
      NatDecimalRoundTrip(n / 10);
      var s := NatToDecimal(n);
      assert s[..|s| - 1] == NatToDecimal(n / 10);
    }
  }

  /** A worked case: eighteen is written "18". */
  lemma DecimalExample()
    ensures IntToDecimal(18) == "18"
  {
    assert NatToDecimal(18) == NatToDecimal(1) + [DigitChar(8)];
  }

  /** Decimal text is read back as the integer it was made from. */
  lemma IntDecimalRoundTrip(i: int)
    ensures ParseInt(IntToDecimal(i)) == Some(i)
  {
    if i < 0 {
      var s := IntToDecimal(i);
      NatDecimalRoundTrip(-i);
      assert s[1..] == NatToDecimal(-i);
      assert !IsDigit(s[0]);
    } else {
      NatDecimalRoundTrip(i);
    }
  }

  // ---------------------------------------------------------------------------
  // Joining and suffixes
  // ---------------------------------------------------------------------------

  /** Python's sep.join(parts). */
  function Join(parts: seq<string>, sep: string): string
    decreases |parts|
  {
    if |parts| == 0 then ""
    else if |parts| == 1 then parts[0]
    else Join(parts[..|parts| - 1], sep) + sep + parts[|parts| - 1]
  }

  /** Python's "".join(f(x) for x in xs). */
  function ConcatMap<T>(f: T -> string, xs: seq<T>): string
    decreases |xs|
  {
    if |xs| == 0 then "" else f(xs[0]) + ConcatMap(f, xs[1..])
  }

  /** Rendering a concatenation renders the two parts one after the other. */
  lemma {:induction false} ConcatMapAppend<T>(f: T -> string, a: seq<T>, b: seq<T>)
    ensures ConcatMap(f, a + b) == ConcatMap(f, a) + ConcatMap(f, b)
    decreases |a|
  {
    if |a| == 0 {
      assert a + b == b;
    } else {
      ConcatMapAppend(f, a[1..], b);
      assert (a + b)[0] == a[0];
      assert (a + b)[1..] == a[1..] + b;
      ConcatAssoc(f(a[0]), ConcatMap(f, a[1..]), ConcatMap(f, b));
    }
  }

  /** Regrouping a concatenation of text. */
  lemma ConcatAssoc(a: string, b: string, c: string)
    ensures a + b + c == a + (b + c)
  {
  }

  /** Regrouping a concatenation of four texts. */
  lemma RegroupFour(a: string, b: string, c: string, d: string)
    ensures a + b + c + d == a + (b + c + d)
  {
  }

  /** Regrouping a concatenation of sequences. */
  lemma SeqAssoc<T>(a: seq<T>, b: seq<T>, c: seq<T>)
    ensures a + b + c == a + (b + c)
  {
  }

  /** Python's s.endswith(suffix). */
  predicate EndsWith(s: string, suffix: string)
  {
    |suffix| <= |s| && s[|s| - |suffix|..] == suffix
  }
}
