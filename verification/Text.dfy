/** utils.c: _itoa and _strcat, on buffers, in place, and dbg_var, which lets _strcat's source be its target. */
module Text {
  import opened Prelude
  import opened Klog

  // ---------------------------------------------------------------- decimal

  /** The decimal notation of `n`, the most significant digit first. */
  function Decimal(n: int): string {
    if n < 0 then "-" + Reversed(Backwards(-n, 10)) else Reversed(Backwards(n, 10))
  }

  function Reversed(s: string): (r: string)
    ensures |r| == |s|
    ensures forall i :: 0 <= i < |s| ==> r[i] == s[|s| - 1 - i]
  {
    if s == [] then [] else Reversed(s[1..]) + [s[0]]
  }

  /** The number that a decimal notation stands for, read from the left. */
  function Parse(s: string): int {
    if s != [] && s[0] == '-' then 0 - ParseDigits(s[1..]) else ParseDigits(s)
  }

  function ParseDigits(s: string): nat {
    if s == [] then 0 else 10 * ParseDigits(s[..|s| - 1]) + DigitValue(s[|s| - 1])
  }

  lemma {:induction false} ReversedParses(s: string)
    ensures ParseDigits(Reversed(s)) == Value(s, 10)
  {
    if s != [] {
      ReversedParses(s[1..]);
      var r := Reversed(s);
      assert r[..|r| - 1] == Reversed(s[1..]) && r[|r| - 1] == s[0];
    }
  }

  lemma Magnitude(m: nat)
    ensures ParseDigits(Reversed(Backwards(m, 10))) == m
    ensures var d := Reversed(Backwards(m, 10));
            |d| > 0 && (d[0] == '0' ==> m == 0) && (m == 0 ==> d == "0") &&
            forall i :: 0 <= i < |d| ==> '0' <= d[i] <= '9'
  {
    hide Value, ParseDigits;
    var b := Backwards(m, 10);
    BackwardsReads(m, 10);
    OnlyDigits(m);
    ReversedParses(b);
    assert Reversed(b)[0] == b[|b| - 1];
    if m == 0 { assert b == "0"; }
  }

  /** The notation reads back as the number and has no leading zeros. */
  lemma DecimalRoundTrip(n: int)
    ensures Parse(Decimal(n)) == n
    ensures var digits := if n < 0 then Decimal(n)[1..] else Decimal(n);
            |digits| > 0 && (digits[0] == '0' ==> n == 0 && digits == "0")
    ensures '\0' !in Decimal(n)
  {
    hide Value, ParseDigits, Backwards, Reversed;
    var m := if n < 0 then -n else n;
    Magnitude(m);
    if n < 0 {
      assert Decimal(n)[1..] == Reversed(Backwards(m, 10));
    }
  }

  /** Different numbers have different notations. */
  lemma DecimalInjective(m: int, n: int)
    ensures Decimal(m) == Decimal(n) <==> m == n
  {
    DecimalRoundTrip(m);
    DecimalRoundTrip(n);
  }

  lemma {:induction false} Short(n: nat, k: nat, p: nat)
    requires n < p && Power(p, k) && k > 0
    ensures |Backwards(n, 10)| <= k
    decreases k
  {
    BackwardsSplits(n, 10);
    if Quotient(n, 10) != 0 {
      Short(n / 10, k - 1, p / 10);
    }
  }

  /** `p` is the k-th power of ten. */
  predicate Power(p: nat, k: nat) {
    if k == 0 then p == 1 else p % 10 == 0 && Power(p / 10, k - 1)
  }

  lemma DecimalShort(n: int)
    requires INT_MIN <= n <= INT_MAX
    ensures |Decimal(n)| <= 11
  {
    var m := if n < 0 then -n else n;
    assert Power(1, 0) && Power(10, 1) && Power(100, 2) && Power(1000, 3) && Power(10000, 4) && Power(100000, 5);
    assert Power(1000000, 6) && Power(10000000, 7) && Power(100000000, 8) && Power(1000000000, 9);
    Short(m, 10, 10000000000);
  }

  // ---------------------------------------------------------------- buffers

  /** The string a buffer holds. */
  ghost function Held(buffer: array<char>): string
    reads buffer
  {
    CString(buffer[..])
  }

  ghost predicate Terminated(buffer: array<char>)
    reads buffer
  {
    '\0' in buffer[..]
  }

  lemma {:induction false} CStringIs(s: string, r: string)
    requires |r| < |s| && '\0' !in r && s[|r|] == '\0' && s[..|r|] == r
    ensures CString(s) == r
  {
    if r != [] {
      assert s[0] == r[0] && r[0] in r;
      assert s[1..][..|r| - 1] == r[1..];
      CStringIs(s[1..], r[1..]);
    }
  }

  // _swap
  method Swap(a: array<char>, x: nat, y: nat)
    requires x < a.Length && y < a.Length
    modifies a
    ensures a[..] == old(a[..])[x := old(a[y])][y := old(a[x])]
  {
    var t := a[x];
    a[x] := a[y];
    a[y] := t;
  }

  /** The in-place reversal of the first `n` characters. */
  method ReverseInPlace(a: array<char>, n: nat)
    requires 0 < n <= a.Length
    modifies a
    ensures a[..n] == Reversed(old(a[..n])) && a[n..] == old(a[n..])
  {
    var i, j := 0, n - 1;
    while i < j
      invariant 0 <= i <= n && i + j == n - 1
      invariant forall k :: 0 <= k < a.Length ==> a[k] == if k < i || j < k < n then old(a[n - 1 - k]) else old(a[k])
    {
      Swap(a, i, j);
      i, j := i + 1, j - 1;
    }
  }

  lemma ReversedAppend(s: string, c: char)
    ensures Reversed(s + [c]) == [c] + Reversed(s)
  {
  }

  /** The number written backwards: its digits, then the sign. */
  function Written(number: int): string {
    if number < 0 then Backwards(-number, 10) + "-" else Backwards(number, 10)
  }

  lemma WrittenReversed(number: int)
    requires INT_MIN <= number <= INT_MAX
    ensures Reversed(Written(number)) == Decimal(number) && |Written(number)| == |Decimal(number)| <= 11 &&
            '\0' !in Decimal(number)
    ensures |Written(number)| > 0
  {
    hide Reversed, Backwards;
    if number < 0 { ReversedAppend(Backwards(-number, 10), '-'); }
    DecimalShort(number);
    DecimalRoundTrip(number);
  }

  /** A 32-bit number taken as unsigned. */
  function Unsigned(n: int): nat
    requires INT_MIN <= n <= INT_MAX
  {
    if n < 0 then n + 0x1_0000_0000 else n
  }

  // _itoa: generates the digits backwards from the start of the buffer, then the sign, and turns them round
  method Itoa(number: int, buffer: array<char>)
    requires INT_MIN <= number <= INT_MAX && buffer.Length >= 12
    modifies buffer
    ensures Held(buffer) == Decimal(number) && Terminated(buffer)
  {
    hide Reversed, Backwards, Decimal, Written, CString;
    if number == 0 {
      buffer[0] := '0';
      buffer[1] := '\0';
      DecimalZero();
      CStringIs(buffer[..], "0");
      assert buffer[..][1] == '\0';
      return;
    }
    WrittenReversed(number);
    var n := Unsigned(if number < 0 then Negated(number) else number);
    WrittenIs(number);
    var p := Digits(n, buffer);
    if number < 0 {
      buffer[p] := '-';
      p := p + 1;
    }
    assert buffer[..p] == Written(number);
    buffer[p] := '\0';
    assert buffer[..p] == Written(number);
    ReverseInPlace(buffer, p);
    assert buffer[p] == buffer[p..][0] == '\0';
    CStringIs(buffer[..], Decimal(number));
    assert buffer[..][p] == '\0';
  }

  lemma DecimalZero()
    ensures Decimal(0) == "0"
  {
  }

  lemma WrittenIs(number: int)
    ensures Written(number) == if number < 0 then Backwards(-number, 10) + "-" else Backwards(number, 10)
  {
  }

  method Digits(number: nat, buffer: array<char>) returns (p: nat)
    requires number > 0 && |Backwards(number, 10)| <= buffer.Length
    modifies buffer
    ensures p == |Backwards(number, 10)| && buffer[..p] == Backwards(number, 10)
  {
    hide Backwards;
    var n := number;
    p := 0;
    while n != 0
      invariant p <= buffer.Length
      invariant Backwards(number, 10) == buffer[..p] + (if n == 0 then [] else Backwards(n, 10))
    {
      BackwardsSplits(n, 10);
      DigitsRead(n % 10);
      ghost var done := buffer[..p];
      buffer[p] := ('0' as int + n % 10) as char;
      p := p + 1;
      assert buffer[..p] == done + [DIGITS[n % 10]];
      n := n / 10;
    }
  }

  /** Copies the two strings one after the other; the first may be the target itself. */
  method Strcat(first: array<char>, second: array<char>, buffer: array<char>)
    requires Terminated(first) && Terminated(second) && second != buffer
    requires |Held(first)| + |Held(second)| < buffer.Length
    modifies buffer
    ensures Held(buffer) == old(Held(first)) + old(Held(second)) && Terminated(buffer)
  {
    ghost var a, b := Held(first), Held(second);
    CStringEnds(first[..]);
    CStringEnds(second[..]);
    var p := 0;
    while first[p] != '\0'
      invariant p <= |a| && buffer[..p] == a[..p]
      invariant first[..] == old(first[..]) || (first != buffer)
      invariant forall k :: p <= k < first.Length ==> first[k] == old(first[k])
      decreases |a| - p
    {
      buffer[p] := first[p];
      p := p + 1;
    }
    assert p == |a|;
    var q := 0;
    while second[q] != '\0'
      invariant q <= |b| && p == |a| + q && buffer[..p] == a + b[..q]
      invariant second[..] == old(second[..])
      decreases |b| - q
    {
      buffer[p] := second[q];
      p, q := p + 1, q + 1;
    }
    buffer[p] := '\0';
    CStringIs(buffer[..], a + b);
  }

  /** The message of dbg_var: the second _strcat reads and writes the same buffer. */
  method Describe(name: array<char>, value: int) returns (result: array<char>)
    requires Terminated(name) && |Held(name)| + 3 + |Decimal(value)| < 2048 && INT_MIN <= value <= INT_MAX
    ensures fresh(result) && Terminated(result) && Held(result) == Held(name) + " : " + Decimal(value)
  {
    hide CString, Decimal;
    var valueString := new char[100];
    result := new char[2048];
    var c := new char[][' ', ':', ' ', '\0'];
    CStringIs(c[..], " : ");
    assert c[..][3] == '\0';
    DecimalShort(value);
    Itoa(value, valueString);
    Strcat(name, c, result);
    Strcat(result, valueString, result);
  }

  // dbg_var: "name : value" to the log
  method DbgVar(name: array<char>, value: int, log: Log)
    requires Terminated(name) && |Held(name)| + 3 + |Decimal(value)| < 2048 && INT_MIN <= value <= INT_MAX
    requires log.Valid()
    modifies log, log.buffer
    ensures log.Valid()
    ensures log.text == old(log.text) + ">" + old(Held(name)) + " : " + Decimal(value) + "\n"
  {
    hide CString, Decimal, Log.Valid;
    var result := Describe(name, value);
    Literal("");
    assert "" + "\0" == "\0";
    ghost var before, held := log.text, Held(name);
    log.LogMessage("\0", result[..]);
    assert before + "" + ">" + (held + " : " + Decimal(value)) + "\n"
           == before + ">" + held + " : " + Decimal(value) + "\n";
  }
}
