/**
 * Response header lists as the test definitions write them: ordered `(name, value)` pairs in
 * which a name may repeat, and a value is either a string or a number of seconds relative to
 * the start of the test (the `['Date', 0]` pairs).
 */
module Headers {

  datatype HeaderValue = Text(text: string) | Offset(seconds: int)

  datatype Header = Header(name: string, value: HeaderValue)

  /** The values of every pair named `name`, in the order the list gives them. */
  function ValuesOf(hs: seq<Header>, name: string): seq<HeaderValue>
    decreases |hs|
  {
    if |hs| == 0 then []
    else (if hs[0].name == name then [hs[0].value] else []) + ValuesOf(hs[1..], name)
  }

  /** The values one pair contributes to `ValuesOf(_, name)`. */
  function Pick(h: Header, name: string): seq<HeaderValue>
  {
    if h.name == name then [h.value] else []
  }

  lemma ValuesOfCons(h: Header, rest: seq<Header>, name: string)
    ensures ValuesOf([h] + rest, name) == Pick(h, name) + ValuesOf(rest, name)
  {
    assert ([h] + rest)[1..] == rest;
  }

  lemma ValuesOfFour(a: Header, b: Header, c: Header, d: Header, name: string)
    ensures ValuesOf([a, b, c, d], name) == Pick(a, name) + Pick(b, name) + Pick(c, name) + Pick(d, name)
  {
    assert [a, b, c, d] == [a] + ([b] + ([c] + ([d] + [])));
    ValuesOfCons(d, [], name);
    ValuesOfCons(c, [d], name);
    ValuesOfCons(b, [c, d], name);
    ValuesOfCons(a, [b, c, d], name);
  }

  lemma ValuesOfThree(a: Header, b: Header, c: Header, name: string)
    ensures ValuesOf([a, b, c], name) == Pick(a, name) + Pick(b, name) + Pick(c, name)
  {
    assert [a, b, c] == [a] + ([b] + ([c] + []));
    ValuesOfCons(c, [], name);
    ValuesOfCons(b, [c], name);
    ValuesOfCons(a, [b, c], name);
  }

  /** The names that occur in a header list. */
  function Names(hs: seq<Header>): set<string>
  {
    set h | h in hs :: h.name
  }

  lemma {:induction false} ValuesOfAppend(a: seq<Header>, b: seq<Header>, name: string)
    ensures ValuesOf(a + b, name) == ValuesOf(a, name) + ValuesOf(b, name)
    decreases |a|
  {
    if |a| == 0 {
      assert a + b == b;
    } else {
      var h, rest := a[0], a[1..];
      assert a == [h] + rest;
      assert a + b == [h] + (rest + b);
      ValuesOfCons(h, rest + b, name);
      ValuesOfCons(h, rest, name);
      ValuesOfAppend(rest, b, name);
    }
  }

  /** A name that does not occur contributes no values. */
  lemma {:induction false} ValuesOfAbsent(hs: seq<Header>, name: string)
    requires name !in Names(hs)
    ensures ValuesOf(hs, name) == []
    decreases |hs|
  {
    if |hs| > 0 {
      assert hs[0] in hs;
      assert Names(hs[1..]) <= Names(hs) by {
        forall n | n in Names(hs[1..]) ensures n in Names(hs) {
          var h :| h in hs[1..] && h.name == n;
          assert h in hs;
        }
      }
      ValuesOfAbsent(hs[1..], name);
    }
  }

  // ---- Decimal rendering of a non-negative integer, as a template literal `${n}` produces it ----

  predicate IsDigit(c: char) { '0' <= c <= '9' }

  function DigitChar(d: nat): (c: char)
    requires d < 10
    ensures IsDigit(c) && c as int - '0' as int == d
  {
    ('0' as int + d) as char
  }

  function DigitValue(c: char): nat
    requires IsDigit(c)
  {
    c as int - '0' as int
  }

  /** The shortest decimal numeral of `n`: digits only, and no leading zero unless `n` is zero. */
  function Decimal(n: nat): (s: string)
    ensures |s| >= 1
    ensures forall i :: 0 <= i < |s| ==> IsDigit(s[i])
    ensures s[0] == '0' ==> n == 0
    decreases n
  {
    if n < 10 then [DigitChar(n)] else Decimal(n / 10) + [DigitChar(n % 10)]
  }

  /** Reads a string of digits back as a number. */
  function DecimalValue(s: string): nat
    requires forall i :: 0 <= i < |s| ==> IsDigit(s[i])
    decreases |s|
  {
    if |s| == 0 then 0 else 10 * DecimalValue(s[..|s| - 1]) + DigitValue(s[|s| - 1])
  }

  /** The numeral denotes the number it was made from. */
  lemma {:induction false} DecimalRoundTrip(n: nat)
    ensures DecimalValue(Decimal(n)) == n
    decreases n
  {
    var s := Decimal(n);
    if n >= 10 {
      assert s[..|s| - 1] == Decimal(n / 10);
      DecimalRoundTrip(n / 10);
    }
  }

}
