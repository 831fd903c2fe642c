/**
 * klog.c: the log in memory is a window on an unbounded log, its last KLOG_LINES lines.
 */
module Klog {
  import opened Prelude

  // ---------------------------------------------------------------- the unbounded log

  /** The text broken at newlines and at `width` characters, `cur` being the line begun; the last line is open. */
  function Wrap(cur: string, text: string, width: nat): (ls: seq<string>)
    requires |cur| < width
    ensures |ls| > 0 && |ls[|ls| - 1]| < width
    ensures forall k :: 0 <= k < |ls| ==> |ls[k]| <= width
    decreases |text|
  {
    if text == [] then [cur]
    else if text[0] == '\n' then [cur] + Wrap([], text[1..], width)
    else if |cur| + 1 == width then [cur + [text[0]]] + Wrap([], text[1..], width)
    else Wrap(cur + [text[0]], text[1..], width)
  }

  /** One character more. */
  function Feed(ls: seq<string>, c: char, width: nat): seq<string>
    requires |ls| > 0
  {
    var n := |ls| - 1;
    if c == '\n' then ls + [[]]
    else if |ls[n]| + 1 >= width then ls[..n] + [ls[n] + [c], []]
    else ls[..n] + [ls[n] + [c]]
  }

  lemma {:induction false} WrapFeeds(cur: string, text: string, c: char, width: nat)
    requires |cur| < width
    ensures Wrap(cur, text + [c], width) == Feed(Wrap(cur, text, width), c, width)
    decreases |text|
  {
    if text == [] {
      assert text + [c] == [c] && [c][1..] == [];
    } else {
      assert (text + [c])[0] == text[0] && (text + [c])[1..] == text[1..] + [c];
      if text[0] == '\n' || |cur| + 1 == width {
        var head := if text[0] == '\n' then cur else cur + [text[0]];
        var rest := Wrap([], text[1..], width);
        WrapFeeds([], text[1..], c, width);
        assert Feed([head] + rest, c, width) == [head] + Feed(rest, c, width);
      } else {
        WrapFeeds(cur + [text[0]], text[1..], c, width);
      }
    }
  }

  /** The lines one after the other. */
  function Joined(ls: seq<string>): string {
    if ls == [] then [] else ls[0] + Joined(ls[1..])
  }

  function WithoutNewlines(text: string): string {
    if text == [] then [] else (if text[0] == '\n' then [] else [text[0]]) + WithoutNewlines(text[1..])
  }

  lemma JoinedCons(head: string, rest: seq<string>)
    ensures Joined([head] + rest) == head + Joined(rest)
  {
    assert ([head] + rest)[1..] == rest;
  }

  lemma WrapNext(cur: string, text: string, width: nat)
    requires |cur| < width && text != []
    ensures Wrap(cur, text, width) ==
            if text[0] == '\n' then [cur] + Wrap([], text[1..], width)
            else if |cur| + 1 == width then [cur + [text[0]]] + Wrap([], text[1..], width)
            else Wrap(cur + [text[0]], text[1..], width)
    ensures WithoutNewlines(text) == (if text[0] == '\n' then [] else [text[0]]) + WithoutNewlines(text[1..])
  {
  }

  /** Wrapping loses no character but the newlines, and keeps the order. */
  lemma {:induction false} WrapKeepsText(cur: string, text: string, width: nat)
    requires |cur| < width
    ensures Joined(Wrap(cur, text, width)) == cur + WithoutNewlines(text)
    decreases |text|
  {
    if text == [] {
      assert [cur][1..] == [];
    } else {
      hide Joined, Wrap, WithoutNewlines;
      WrapNext(cur, text, width);
      if text[0] == '\n' || |cur| + 1 == width {
        WrapKeepsText([], text[1..], width);
        JoinedCons(if text[0] == '\n' then cur else cur + [text[0]], Wrap([], text[1..], width));
      } else {
        WrapKeepsText(cur + [text[0]], text[1..], width);
      }
    }
  }

  lemma {:induction false} WholeLine(cur: string, line: string, rest: string, width: nat)
    requires |cur| + |line| == width && line != [] && '\n' !in line
    ensures Wrap(cur, line + rest, width) == [cur + line] + Wrap([], rest, width)
    decreases |line|
  {
    var text := line + rest;
    assert text[0] == line[0] && text[1..] == line[1..] + rest;
    if |line| > 1 {
      WholeLine(cur + [line[0]], line[1..], rest, width);
      assert cur + [line[0]] + line[1..] == cur + line;
    } else {
      assert line == [line[0]] && text[1..] == rest;
    }
  }

  lemma WrapNothing(cur: string, width: nat)
    requires |cur| < width
    ensures Wrap(cur, [], width) == [cur]
  {
  }

  /** A newline ends the line begun, whatever it holds, and what follows is wrapped afresh. */
  lemma {:induction false} NewlineSplits(cur: string, before: string, after: string, width: nat)
    requires |cur| < width
    ensures Wrap(cur, before + "\n" + after, width) == Wrap(cur, before, width) + Wrap([], after, width)
    decreases |before|
  {
    var text := before + "\n" + after;
    WrapNext(cur, text, width);
    if before == [] {
      assert text[0] == '\n' && text[1..] == after;
      WrapNothing(cur, width);
    } else {
      WrapNext(cur, before, width);
      assert text[0] == before[0] && text[1..] == before[1..] + "\n" + after;
      hide Wrap;
      if before[0] == '\n' || |cur| + 1 == width {
        var head := if before[0] == '\n' then cur else cur + [before[0]];
        NewlineSplits([], before[1..], after, width);
        assert [head] + (Wrap([], before[1..], width) + Wrap([], after, width))
               == ([head] + Wrap([], before[1..], width)) + Wrap([], after, width);
      } else {
        NewlineSplits(cur + [before[0]], before[1..], after, width);
      }
    }
  }

  /** A line that is exactly full and then ended takes two rows, the second one empty. */
  lemma FullLineThenNewline(line: string, rest: string, width: nat)
    requires |line| == width > 0 && '\n' !in line
    ensures Wrap([], line + "\n" + rest, width) == [line, []] + Wrap([], rest, width)
  {
    assert line + "\n" + rest == line + ("\n" + rest);
    WholeLine([], line, "\n" + rest, width);
    assert ("\n" + rest)[0] == '\n' && ("\n" + rest)[1..] == rest;
    assert [] + line == line;
    assert [line] + ([[]] + Wrap([], rest, width)) == [line, []] + Wrap([], rest, width);
  }

  // ---------------------------------------------------------------- strings and digits

  /** A C string: what comes before the first NUL. */
  function CString(s: string): (r: string)
    ensures '\0' !in r && |r| <= |s|
    ensures forall i :: 0 <= i < |r| ==> r[i] == s[i]
    ensures '\0' in s ==> |r| < |s| && s[|r|] == '\0'
    ensures '\0' !in s ==> r == s
  {
    if s == [] || s[0] == '\0' then [] else [s[0]] + CString(s[1..])
  }

  const DIGITS := "0123456789ABCDEF"

  function Quotient(n: nat, base: nat): nat
    requires base == 10 || base == 16
  {
    if base == 10 then n / 10 else n / 16
  }

  function Digit(n: nat, base: nat): (d: nat)
    requires base == 10 || base == 16
    ensures d < base
  {
    if base == 10 then n % 10 else n % 16
  }

  /** The digits of `n`, the least significant first. */
  function Backwards(n: nat, base: nat): (r: string)
    requires base == 10 || base == 16
    ensures |r| > 0
  {
    [DIGITS[Digit(n, base)]] + (if Quotient(n, base) == 0 then [] else Backwards(Quotient(n, base), base))
  }

  function DigitValue(c: char): nat {
    if '0' <= c <= '9' then c as nat - '0' as nat else if 'A' <= c <= 'F' then c as nat - 'A' as nat + 10 else 0
  }

  /** The number that a string of digits, the least significant first, stands for. */
  function Value(s: string, base: nat): nat {
    if s == [] then 0 else DigitValue(s[0]) + base * Value(s[1..], base)
  }

  lemma DigitsRead(d: nat)
    requires d < 16
    ensures DigitValue(DIGITS[d]) == d && DIGITS[d] != '\n' && (DIGITS[d] == '0' <==> d == 0) &&
            (d < 10 ==> DIGITS[d] == ('0' as int + d) as char)
  {
  }

  lemma ValueSplits(c: char, rest: string, base: nat)
    ensures Value([c] + rest, base) == DigitValue(c) + base * Value(rest, base)
  {
    assert ([c] + rest)[1..] == rest;
  }

  lemma BackwardsSplits(n: nat, base: nat)
    requires base == 10 || base == 16
    ensures var (q, d) := (Quotient(n, base), Digit(n, base));
            && n == base * q + d && (q != 0 ==> q < n)
            && Backwards(n, base) == [DIGITS[d]] + (if q == 0 then [] else Backwards(q, base))
  {
    if base == 10 {
      assert n == 10 * (n / 10) + n % 10;
    } else {
      assert n == 16 * (n / 16) + n % 16;
    }
  }

  lemma {:induction false} Reads(n: nat, base: nat, q: nat, d: nat)
    requires (base == 10 || base == 16) && d < base && n == base * q + d && (q != 0 ==> q < n)
    requires Backwards(n, base) == [DIGITS[d]] + (if q == 0 then [] else Backwards(q, base))
    ensures Value(Backwards(n, base), base) == n
    ensures n > 0 ==> Backwards(n, base)[|Backwards(n, base)| - 1] != '0'
    decreases n, 0
  {
    hide DigitValue, Value, Backwards;
    DigitsRead(d);
    if q == 0 {
      ValueSplits(DIGITS[d], [], base);
      ValueNone(base);
      assert [DIGITS[d]] + [] == [DIGITS[d]];
    } else {
      BackwardsReads(q, base);
      ValueSplits(DIGITS[d], Backwards(q, base), base);
    }
  }

  lemma ValueNone(base: nat)
    ensures Value([], base) == 0
  {
  }

  /** What is printed reads back, backwards, as the number, and has no leading zero. */
  lemma {:induction false} BackwardsReads(n: nat, base: nat)
    requires base == 10 || base == 16
    ensures Value(Backwards(n, base), base) == n
    ensures n > 0 ==> Backwards(n, base)[|Backwards(n, base)| - 1] != '0'
    decreases n, 1
  {
    hide DigitValue, Value, Backwards;
    BackwardsSplits(n, base);
    Reads(n, base, Quotient(n, base), Digit(n, base));
  }

  lemma {:induction false} OnlyDigits(n: nat)
    ensures forall i :: 0 <= i < |Backwards(n, 10)| ==> '0' <= Backwards(n, 10)[i] <= '9'
  {
    BackwardsSplits(n, 10);
    var q := Quotient(n, 10);
    if q != 0 { OnlyDigits(q); }
  }

  // ---------------------------------------------------------------- signed numbers

  const INT_MIN := -0x8000_0000
  const INT_MAX := 0x7FFF_FFFF

  /** The negation of a 32-bit number, which leaves the smallest one as it is. */
  function Negated(n: int): int {
    if n == INT_MIN then INT_MIN else -n
  }

  /** Division by ten towards zero, as C does it. */
  function Quot10(n: int): int {
    if n < 0 then -(-n / 10) else n / 10
  }

  function Rem10(n: int): (r: int)
    ensures -10 < r < 10
  {
    if n < 0 then -(-n % 10) else n % 10
  }

  /** What kprint_int prints: the sign and the digits, last one first; the smallest int's first remainder is -8. */
  function Printed(num: int): string {
    if num == INT_MIN then "-(" else if num < 0 then "-" + Backwards(-num, 10) else Backwards(num, 10)
  }

  /** What is printed reads back as the number, with its sign, exactly unless it is the smallest int. */
  lemma PrintedReads(num: int)
    requires INT_MIN <= num <= INT_MAX
    ensures Printed(num) != [] && (Printed(num)[0] == '-' <==> num < 0)
    ensures var (digits, size) := (if num < 0 then Printed(num)[1..] else Printed(num), if num < 0 then -num else num);
            Value(digits, 10) == size && (forall i :: 0 <= i < |digits| ==> '0' <= digits[i] <= '9') <==> num != INT_MIN
  {
    hide Backwards, Value, DigitValue;
    var size := if num < 0 then -num else num;
    BackwardsReads(size, 10);
    OnlyDigits(size);
    if num == INT_MIN {
      assert Printed(num)[1..][0] == '(';
    } else if num < 0 {
      assert Printed(num)[1..] == Backwards(size, 10);
    }
  }

  // ---------------------------------------------------------------- the ring

  /** The row of line `k`. */
  function Row(k: nat, lines: nat): (r: nat)
    requires lines > 0
    ensures r < lines
  {
    k % lines
  }

  lemma Rows(k: nat, n: nat, lines: nat)
    requires 0 < lines && k <= n < k + lines
    ensures Row(k, lines) == Row(n, lines) <==> k == n
  {
    SameRemainder(k, n, lines);
  }

  lemma NextRow(n: nat, lines: nat)
    requires 0 < lines
    ensures (Row(n, lines) + 1) % lines == Row(n + 1, lines)
    ensures n < lines ==> Row(n, lines) == n
  {
    ModNext(n, lines);
    if n < lines { Small(n, lines); }
    if n % lines + 1 < lines { Small(n % lines + 1, lines); } else { assert n % lines + 1 == lines; }
  }

  /** One turn of kprint_int's loop. */
  lemma LastDigit(n: int)
    requires n == INT_MIN || n >= 0
    ensures '0' as int + Rem10(n) >= 0 && ('0' as int + Rem10(n)) as char != '\n' &&
            (n == INT_MIN ==> Quot10(n) < 0) && (n > 0 ==> Quot10(n) < n)
    ensures (if n < 0 then "(" else Backwards(n, 10))
              == [('0' as int + Rem10(n)) as char] + (if Quot10(n) <= 0 then [] else Backwards(Quot10(n), 10))
  {
    if n >= 0 {
      BackwardsSplits(n, 10);
      DigitsRead(n % 10);
    }
  }

  class Log {
    const lines: nat
    const width: nat
    const buffer: array2<char>
    var lineIndex: nat
    var charIndex: nat
    ghost var text: string           // everything printed so far

    /** The lines of the unbounded log. */
    ghost function All(): (ls: seq<string>)
      requires width > 0
      reads `text
      ensures |ls| > 0 && |ls[|ls| - 1]| < width
    {
      Wrap([], text, width)
    }

    /** What a row shows of line `k`: the line, then blanks, but NULs in the row that was there at the start. */
    ghost predicate Shows(r: nat, line: string, k: nat)
      requires r < buffer.Length0
      reads buffer
    {
      forall c :: 0 <= c < buffer.Length1 ==>
        buffer[r, c] == if c < |line| then line[c] else if k == 0 then '\0' else ' '
    }

    /** Row k mod KLOG_LINES holds line k for each of the last KLOG_LINES lines; the others are as at the start. */
    ghost predicate Window(ls: seq<string>)
      reads buffer
    {
      && 0 < lines == buffer.Length0 && 0 < width == buffer.Length1
      && (forall k :: 0 <= k < |ls| <= k + lines ==> Shows(Row(k, lines), ls[k], k))
      && (forall r, c :: |ls| <= r < lines && 0 <= c < width ==> buffer[r, c] == '\0')
    }

    ghost predicate Valid()
      reads this, buffer
    {
      && width > 0 && Window(All())
      && lineIndex == Row(|All()| - 1, lines) && charIndex == |All()[|All()| - 1]|
    }

    constructor (lines: nat, width: nat)
      requires lines > 0 && width > 0
      ensures Valid() && text == [] && fresh(buffer) && this.lines == lines && this.width == width
    {
      this.lines, this.width := lines, width;
      buffer := new char[lines, width]((_, _) => '\0');
      lineIndex, charIndex, text := 0, 0, [];
      new;
      Small(0, lines);
    }

    // next_line: moves to the next row and blanks it
    method NextLine(ghost ls: seq<string>)
      requires Window(ls) && |ls| > 0 && lineIndex == Row(|ls| - 1, lines)
      modifies `lineIndex, `charIndex, buffer
      ensures Window(ls + [[]]) && lineIndex == Row(|ls|, lines) && charIndex == 0
    {
      hide Row, Wrap;
      NextRow(|ls| - 1, lines);
      NextRow(|ls|, lines);
      lineIndex := (lineIndex + 1) % lines;
      charIndex := 0;
      for i := 0 to width
        invariant forall c :: 0 <= c < i ==> buffer[lineIndex, c] == ' '
        invariant forall r, c :: 0 <= r < lines && 0 <= c < width && r != lineIndex ==>
                  buffer[r, c] == old(buffer[r, c])
        modifies buffer
      {
        buffer[lineIndex, i] := ' ';
      }
      forall k | 0 <= k < |ls| + 1 <= k + lines ensures Shows(Row(k, lines), (ls + [[]])[k], k) {
        Rows(k, |ls|, lines);
        if k < |ls| { assert old(Shows(Row(k, lines), ls[k], k)); }
      }
    }

    /** One character written at the open end. */
    method Write(c: char, ghost ls: seq<string>)
      requires Window(ls) && |ls| > 0 && lineIndex == Row(|ls| - 1, lines) && charIndex == |ls[|ls| - 1]| < width
      modifies buffer
      ensures Window(ls[..|ls| - 1] + [ls[|ls| - 1] + [c]])
    {
      ghost var n := |ls| - 1;
      hide Row, Wrap;
      NextRow(n, lines);
      buffer[lineIndex, charIndex] := c;
      forall k | 0 <= k <= n < k + lines ensures Shows(Row(k, lines), (ls[..n] + [ls[n] + [c]])[k], k) {
        Rows(k, n, lines);
        assert old(Shows(Row(k, lines), ls[k], k));
      }
    }

    // next_char
    method NextChar(ghost ls: seq<string>)
      requires Window(ls) && |ls| > 0 && lineIndex == Row(|ls| - 1, lines) && charIndex + 1 == |ls[|ls| - 1]| <= width
      modifies `lineIndex, `charIndex, buffer
      ensures |ls[|ls| - 1]| < width ==> Window(ls) && lineIndex == Row(|ls| - 1, lines) && charIndex == |ls[|ls| - 1]|
      ensures |ls[|ls| - 1]| == width ==> Window(ls + [[]]) && lineIndex == Row(|ls|, lines) && charIndex == 0
    {
      charIndex := charIndex + 1;
      if charIndex >= width {
        charIndex := 0;
        NextLine(ls);
      }
    }

    /** A character other than newline, as every printing routine writes it. */
    method Put(c: char)
      requires Valid() && c != '\n'
      modifies this, buffer
      ensures Valid() && text == old(text) + [c]
    {
      hide Row, Wrap, Window;
      ghost var ls := All();
      ghost var n := |ls| - 1;
      WrapFeeds([], text, c, width);
      Write(c, ls);
      NextChar(ls[..n] + [ls[n] + [c]]);
      text := text + [c];
      assert ls[..n] + [ls[n] + [c]] + [[]] == ls[..n] + [ls[n] + [c], []];
    }

    method NewLine()
      requires Valid()
      modifies this, buffer
      ensures Valid() && text == old(text) + ['\n']
    {
      WrapFeeds([], text, '\n', width);
      NextLine(All());
      text := text + ['\n'];
    }

    // kprint
    method KPrint(str: string)
      requires Valid() && '\0' in str
      modifies this, buffer
      ensures Valid() && text == old(text) + CString(str)
    {
      hide Row, Wrap, Window, CString, Feed, Valid;
      var i := 0;
      CStringEnds(str);
      while str[i] != '\0'
        invariant 0 <= i <= |CString(str)| < |str| && Valid() && text == old(text) + CString(str)[..i]
        decreases |str| - i
      {
        if str[i] == '\n' {
          NewLine();
        } else {
          Put(str[i]);
        }
        assert CString(str)[..i + 1] == CString(str)[..i] + [str[i]];
        i := i + 1;
      }
      assert CString(str)[..i] == CString(str);
    }

    /** The loop of kprint_int. */
    method PutDigits(num: int)
      requires Valid() && (num == INT_MIN || num >= 0)
      modifies this, buffer
      ensures Valid() && text == old(text) + (if num < 0 then "(" else Backwards(num, 10))
    {
      hide Valid, Backwards, Rem10, Quot10;
      ghost var all := if num < 0 then "(" else Backwards(num, 10);
      LastDigit(num);
      Put(('0' as int + Rem10(num)) as char);
      var n := Quot10(num);
      while n > 0
        invariant Valid() && old(text) + all == text + (if n <= 0 then [] else Backwards(n, 10))
        decreases n
      {
        LastDigit(n);
        Put(('0' as int + Rem10(n)) as char);
        n := Quot10(n);
      }
    }

    // kprint_int
    method KPrintInt(num: int)
      requires Valid() && INT_MIN <= num <= INT_MAX
      modifies this, buffer
      ensures Valid() && text == old(text) + Printed(num)
    {
      hide Valid, Backwards;
      if num < 0 {
        Put('-');
        PutDigits(Negated(num));
        assert Printed(num) == "-" + (if num == INT_MIN then "(" else Backwards(-num, 10));
      } else {
        PutDigits(num);
      }
    }

    // kprint_hex
    method KPrintHex(num: nat)
      requires Valid() && num < 0x1_0000_0000
      modifies this, buffer
      ensures Valid() && text == old(text) + Backwards(num, 16)
    {
      hide Valid, Backwards;
      var n := num;
      BackwardsSplits(n, 16);
      DigitsRead(n % 16);
      Put(DIGITS[n % 16]);
      n := n / 16;
      while n > 0
        invariant n >= 0 && Valid()
        invariant old(text) + Backwards(num, 16) == text + (if n == 0 then [] else Backwards(n, 16))
      {
        BackwardsSplits(n, 16);
        DigitsRead(n % 16);
        Put(DIGITS[n % 16]);
        n := n / 16;
      }
    }

    // log
    method LogMessage(tag: string, message: string)
      requires Valid() && '\0' in tag && '\0' in message
      modifies this, buffer
      ensures Valid() && text == old(text) + CString(tag) + ">" + CString(message) + "\n"
    {
      KPrint(tag);
      KPrint(">\0");
      KPrint(message);
      KPrint("\n\0");
      Literal(">");
      Literal("\n");
    }
  }

  lemma CStringEnds(s: string)
    requires '\0' in s
    ensures forall i :: 0 <= i < |CString(s)| ==> s[i] != '\0'
  {
    forall i | 0 <= i < |CString(s)| ensures s[i] != '\0' {
      assert CString(s)[i] in CString(s);
    }
  }

  lemma {:induction false} Literal(s: string)
    requires '\0' !in s
    ensures CString(s + "\0") == s
  {
    if s != [] {
      assert (s + "\0")[1..] == s[1..] + "\0";
      Literal(s[1..]);
    }
  }
}
