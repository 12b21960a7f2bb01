/** The pipe-delimited cache value of an API key, with its hand-written 32-bit number conversions. */
module KeyEncoding {
  import opened Options

  const INT32_MAX := 0x7FFF_FFFF
  const INT32_MIN := -0x8000_0000

  predicate IsInt32(n: int) {
    INT32_MIN <= n <= INT32_MAX
  }

  /** Two's complement wrap-around. */
  function Wrap32(n: int): (r: int)
    ensures IsInt32(r) && (IsInt32(n) ==> r == n)
  {
    (n + 0x8000_0000) % 0x1_0000_0000 - 0x8000_0000
  }

  predicate IsDigit(c: char) {
    '0' <= c <= '9'
  }

  function DigitValue(c: char): nat
    requires IsDigit(c)
  {
    c as int - '0' as int
  }

  function DigitChar(d: nat): (c: char)
    requires d < 10
    ensures IsDigit(c) && DigitValue(c) == d
  {
    ('0' as int + d) as char
  }

  // ---------------------------------------------------------------- formatting

  /** Decimal digits of a positive number, none for zero. */
  function Digits(n: nat): string {
    if n == 0 then "" else Digits(n / 10) + [DigitChar(n % 10)]
  }

  /** A negative number is formatted as nothing at all. */
  function Format(n: int): string {
    if n == 0 then "0" else if n < 0 then "" else Digits(n)
  }

  function Pow10(k: nat): nat {
    if k == 0 then 1 else 10 * Pow10(k - 1)
  }

  lemma {:induction false} Pow10Large(k: nat)
    requires k >= 10
    ensures Pow10(k) >= 10_000_000_000
  {
    if k == 10 {
      assert Pow10(5) == 100_000;
      assert Pow10(10) == 10_000_000_000;
    } else {
      Pow10Large(k - 1);
    }
  }

  lemma DivideStep(n: nat, p: nat, n0: nat)
    requires n * p <= n0
    ensures (n / 10) * (10 * p) <= n0
  {
    assert n / 10 * 10 <= n;
    assert (n / 10 * 10) * p <= n * p;
    assert (n / 10) * (10 * p) == (n / 10 * 10) * p;
  }

  lemma AtLeastOnce(n: nat, p: nat)
    requires n > 0
    ensures n * p >= p
  {
    assert (n - 1) * p >= 0;
  }

  lemma TooLarge(n: nat, k: nat)
    requires n > 0 && k >= 10
    ensures n * Pow10(k) > INT32_MAX
  {
    Pow10Large(k);
    AtLeastOnce(n, Pow10(k));
  }

  lemma FitsBuffer(n: nat, k: nat, n0: nat)
    requires n > 0 && n * Pow10(k) <= n0 <= INT32_MAX
    ensures k < 10
  {
    if k >= 10 {
      TooLarge(n, k);
    }
  }

  /** The loop over a 12-byte buffer; the index never leaves it. */
  method FormatInt32(n: int) returns (s: string)
    requires IsInt32(n)
    ensures s == Format(n)
  {
    if n == 0 {
      return "0";
    }
    var buf := new char[12];
    var i, rest := buf.Length, n;
    while rest > 0
      invariant 0 <= i <= 12 && (n > 0 ==> rest >= 0) && (n < 0 ==> rest == n && i == 12)
      invariant n > 0 ==> rest * Pow10(12 - i) <= n
      invariant n > 0 ==> Digits(n) == Digits(rest) + buf[i..]
      decreases rest
    {
      FitsBuffer(rest, 12 - i, n);
      DivideStep(rest, Pow10(12 - i), n);
      ghost var before := buf[i..];
      i := i - 1;
      buf[i] := DigitChar(rest % 10);
      assert buf[i..] == [DigitChar(rest % 10)] + before;
      assert Digits(rest) + before == Digits(rest / 10) + ([DigitChar(rest % 10)] + before);
      rest := rest / 10;
    }
    return buf[i..];
  }

  // ---------------------------------------------------------------- parsing

  /** The number parsed so far, in 32-bit arithmetic; None on any other character. */
  function Parse(s: string): Option<int> {
    if s == "" then Some(0)
    else
      var c := s[|s| - 1];
      match Parse(s[..|s| - 1])
      case None => None
      case Some(n) => if IsDigit(c) then Some(Wrap32(Wrap32(n * 10) + DigitValue(c))) else None
  }

  lemma {:induction false} ParseStops(s: string, i: nat)
    requires i < |s| && !IsDigit(s[i])
    ensures Parse(s) == None
  {
    if i < |s| - 1 {
      ParseStops(s[..|s| - 1], i);
    }
  }

  method ParseInt32(s: string) returns (r: Option<int>)
    ensures r == Parse(s)
  {
    var n := 0;
    for i := 0 to |s|
      invariant Parse(s[..i]) == Some(n)
    {
      var c := s[i];
      if c < '0' || c > '9' {
        ParseStops(s, i);
        return None;
      }
      assert s[..i + 1][..i] == s[..i];
      n := Wrap32(Wrap32(n * 10) + (c as int - '0' as int));
    }
    assert s[..|s|] == s;
    return Some(n);
  }

  /** The value of a digit string in unbounded arithmetic. */
  function Value(s: string): nat
    requires forall c :: c in s ==> IsDigit(c)
  {
    if s == "" then 0 else 10 * Value(s[..|s| - 1]) + DigitValue(s[|s| - 1])
  }

  lemma {:induction false} DigitsMeaning(n: nat)
    ensures forall c :: c in Digits(n) ==> IsDigit(c)
    ensures Value(Digits(n)) == n
  {
    if n > 0 {
      DigitsMeaning(n / 10);
      assert Digits(n)[..|Digits(n)| - 1] == Digits(n / 10);
    }
  }

  /** A digit string whose value fits is parsed without wrapping, and so is each of its beginnings. */
  lemma {:induction false} ParseDoesNotWrap(s: string)
    requires (forall c :: c in s ==> IsDigit(c)) && Value(s) <= INT32_MAX
    ensures Parse(s) == Some(Value(s))
    ensures forall k :: 0 <= k <= |s| ==> (forall c :: c in s[..k] ==> IsDigit(c)) && Value(s[..k]) <= Value(s)
  {
    if s == "" {
      assert s[..0] == s;
    } else {
      var init := s[..|s| - 1];
      ParseDoesNotWrap(init);
      forall k | 0 <= k <= |s|
        ensures (forall c :: c in s[..k] ==> IsDigit(c)) && Value(s[..k]) <= Value(s)
      {
        if k < |s| {
          assert s[..k] == init[..k];
        } else {
          assert s[..k] == s;
        }
      }
    }
  }

  /** Formatting then parsing gives the number back exactly if it is not negative. */
  lemma NumberRoundTrip(n: int)
    requires IsInt32(n)
    ensures Parse(Format(n)) == Some(n) <==> n >= 0
    ensures n < 0 ==> Parse(Format(n)) == Some(0)
  {
    if n == 0 {
      assert "0"[..0] == "";
      assert Parse("0") == Some(0);
    } else if n > 0 {
      DigitsMeaning(n);
      ParseDoesNotWrap(Digits(n));
    }
  }

  // ---------------------------------------------------------------- the cache value

  datatype KeyRow = KeyRow(id: string, tenant: string, prefix: string, rate: int)

  predicate PipeFree(s: string) {
    '|' !in s
  }

  /** Length of the part before the first pipe. */
  function FirstPipe(s: string): (n: nat)
    ensures n <= |s|
    ensures PipeFree(s[..n])
    ensures n < |s| ==> s[n] == '|'
  {
    if s == "" || s[0] == '|' then 0
    else
      var n := FirstPipe(s[1..]);
      assert s[..n + 1] == [s[0]] + s[1..][..n];
      n + 1
  }

  /** Split at the first n - 1 pipes. */
  function SplitN(s: string, n: nat): seq<string>
    requires n >= 1
  {
    var k := FirstPipe(s);
    if n == 1 || k == |s| then [s] else [s[..k]] + SplitN(s[k + 1..], n - 1)
  }

  function Encode(r: KeyRow): string {
    r.id + "|" + r.tenant + "|" + r.prefix + "|" + Format(r.rate)
  }

  /** A value without four parts is no entry; a rate that does not parse counts as 0. */
  function Decode(val: string): Option<KeyRow> {
    var parts := SplitN(val, 4);
    if val == "" || |parts| != 4 then None
    else Some(KeyRow(parts[0], parts[1], parts[2], Parse(parts[3]).GetOr(0)))
  }

  lemma {:induction false} FirstPipeOf(x: string, rest: string)
    ensures FirstPipe(x + "|" + rest) == FirstPipe(x)
  {
    var s := x + "|" + rest;
    if x == "" {
      assert s[0] == '|';
    } else if x[0] != '|' {
      assert s[1..] == x[1..] + "|" + rest;
      FirstPipeOf(x[1..], rest);
    }
  }

  /** Splitting at the first pipe recovers what was written before it exactly if that has no pipe. */
  lemma SplitFirst(x: string, rest: string, n: nat)
    requires n > 1
    ensures var parts := SplitN(x + "|" + rest, n);
            && (PipeFree(x) ==> parts == [x] + SplitN(rest, n - 1))
            && (!PipeFree(x) ==> parts[0] != x)
  {
    var s := x + "|" + rest;
    var k := FirstPipe(s);
    FirstPipeOf(x, rest);
    assert k <= |x| < |s|;
    assert s[..k] == x[..k];
    if k == |x| {
      assert x[..k] == x;
      assert s[k + 1..] == rest;
    }
  }

  /** The four parts, if no field before the rate holds a pipe. */
  lemma PartsOf(r: KeyRow)
    requires PipeFree(r.id) && PipeFree(r.tenant) && PipeFree(r.prefix)
    ensures SplitN(Encode(r), 4) == [r.id, r.tenant, r.prefix, Format(r.rate)]
  {
    var afterTenant := r.prefix + "|" + Format(r.rate);
    var afterId := r.tenant + "|" + afterTenant;
    assert Encode(r) == r.id + "|" + afterId;
    calc {
      SplitN(Encode(r), 4);
      { SplitFirst(r.id, afterId, 4); }
      [r.id] + SplitN(afterId, 3);
      { SplitFirst(r.tenant, afterTenant, 3); }
      [r.id] + ([r.tenant] + SplitN(afterTenant, 2));
      { SplitFirst(r.prefix, Format(r.rate), 2); }
      [r.id] + ([r.tenant] + ([r.prefix] + SplitN(Format(r.rate), 1)));
      [r.id, r.tenant, r.prefix, Format(r.rate)];
    }
  }

  /** Otherwise the first field with a pipe is cut short. */
  lemma PartsDiffer(r: KeyRow)
    requires !(PipeFree(r.id) && PipeFree(r.tenant) && PipeFree(r.prefix))
    ensures var parts := SplitN(Encode(r), 4);
            |parts| == 4 ==> [parts[0], parts[1], parts[2]] != [r.id, r.tenant, r.prefix]
  {
    var afterTenant := r.prefix + "|" + Format(r.rate);
    var afterId := r.tenant + "|" + afterTenant;
    var parts := SplitN(Encode(r), 4);
    assert Encode(r) == r.id + "|" + afterId;
    SplitFirst(r.id, afterId, 4);
    if PipeFree(r.id) {
      SplitFirst(r.tenant, afterTenant, 3);
      if PipeFree(r.tenant) {
        SplitFirst(r.prefix, Format(r.rate), 2);
        assert parts[2] == SplitN(afterTenant, 2)[0];
      } else {
        assert parts[1] == SplitN(afterId, 3)[0];
      }
    }
  }

  /** A cached key reads back unchanged exactly if no field holds a pipe and the rate is not negative. */
  lemma RoundTrip(r: KeyRow)
    requires IsInt32(r.rate)
    ensures Decode(Encode(r)) == Some(r) <==>
            PipeFree(r.id) && PipeFree(r.tenant) && PipeFree(r.prefix) && r.rate >= 0
  {
    NumberRoundTrip(r.rate);
    if PipeFree(r.id) && PipeFree(r.tenant) && PipeFree(r.prefix) {
      PartsOf(r);
    } else {
      PartsDiffer(r);
    }
  }
}
