/** The Python string operations the client relies on: `strip`, `split`, `rpartition`,
    `replace`, `int()` and the decimal rendering of an integer.

    White space is Python's full list; digits are the ten ASCII digits. */
module PythonText {

  datatype Option<+T> = None | Some(value: T)

  predicate IsSpace(c: char) {
    || '\U{0009}' <= c <= '\U{000d}'
    || '\U{001c}' <= c <= '\U{0020}'
    || c == '\U{0085}' || c == '\U{00a0}' || c == '\U{1680}'
    || '\U{2000}' <= c <= '\U{200a}'
    || c == '\U{2028}' || c == '\U{2029}' || c == '\U{202f}' || c == '\U{205f}' || c == '\U{3000}'
  }

  // ---------------------------------------------------------------- strip

  function LStrip(s: string): string {
    if s != "" && IsSpace(s[0]) then LStrip(s[1..]) else s
  }

  function RStrip(s: string): string {
    if s != "" && IsSpace(s[|s| - 1]) then RStrip(s[..|s| - 1]) else s
  }

  function Strip(s: string): string {
    RStrip(LStrip(s))
  }

  /** No white space at either end. */
  predicate Trimmed(s: string) {
    s == "" || (!IsSpace(s[0]) && !IsSpace(s[|s| - 1]))
  }

  lemma {:induction false} RStripSlice(s: string) returns (n: nat)
    ensures n <= |s| && RStrip(s) == s[..n]
    ensures n == 0 || !IsSpace(s[n - 1])
  {
    if s != "" && IsSpace(s[|s| - 1]) {
      n := RStripSlice(s[..|s| - 1]);
    } else {
      n := |s|;
      assert s[..n] == s;
    }
  }

  lemma {:induction false} LStripSlice(s: string) returns (n: nat)
    ensures n <= |s| && LStrip(s) == s[n..]
    ensures n == |s| || !IsSpace(s[n])
    ensures forall k :: 0 <= k < n ==> IsSpace(s[k])
  {
    if s != "" && IsSpace(s[0]) {
      n := LStripSlice(s[1..]);
      assert forall k :: 1 <= k <= n ==> s[k] == s[1..][k - 1];
      n := n + 1;
    } else {
      n := 0;
    }
  }

  /** `strip` cuts a slice out of its argument. */
  lemma StripSlice(s: string) returns (i: nat, j: nat)
    ensures i <= j <= |s| && Strip(s) == s[i..j]
    ensures i == j || (!IsSpace(s[i]) && !IsSpace(s[j - 1]))
  {
    i := LStripSlice(s);
    var n := RStripSlice(s[i..]);
    j := i + n;
  }

  /** `strip` is the identity exactly on trimmed text, and always returns trimmed text. */
  lemma StripTrims(s: string)
    ensures Trimmed(Strip(s))
    ensures Trimmed(s) <==> Strip(s) == s
    ensures Strip(Strip(s)) == Strip(s)
  {
    var i, j := StripSlice(s);
    var t := Strip(s);
    assert Trimmed(t);
    if Trimmed(s) {
      assert LStrip(s) == s && RStrip(s) == s;
    }
    assert LStrip(t) == t && RStrip(t) == t;
  }

  lemma StripKeepsAbsence(s: string, c: char)
    requires c !in s
    ensures c !in Strip(s)
  {
    var i, j := StripSlice(s);
  }

  // ---------------------------------------------------------------- split and join

  /** Index of the first `c` in `s`, or `|s|`. */
  function Find(s: string, c: char): (n: nat)
    ensures n <= |s|
    ensures c !in s[..n]
    ensures n < |s| ==> s[n] == c
    ensures n == |s| <==> c !in s
  {
    if s == "" || s[0] == c then 0
    else
      var n := Find(s[1..], c);
      assert s[..n + 1] == [s[0]] + s[1..][..n];
      1 + n
  }

  lemma FindAt(head: string, c: char, rest: string)
    requires c !in head
    ensures Find(head + [c] + rest, c) == |head|
  {
    var s := head + [c] + rest;
    var n := Find(s, c);
    assert s[|head|] == c;
    assert forall i :: 0 <= i < |head| ==> s[i] == head[i];
    assert forall i :: 0 <= i < n ==> s[i] == s[..n][i];
  }

  function Split(s: string, c: char): (parts: seq<string>)
    ensures |parts| >= 1
    ensures forall p :: p in parts ==> c !in p
    decreases |s|
  {
    var n := Find(s, c);
    if n == |s| then [s] else [s[..n]] + Split(s[n + 1..], c)
  }

  function Join(parts: seq<string>, c: char): string {
    if parts == [] then ""
    else if |parts| == 1 then parts[0]
    else parts[0] + [c] + Join(parts[1..], c)
  }

  lemma JoinCons(head: string, tail: seq<string>, c: char)
    requires tail != []
    ensures Join([head] + tail, c) == head + [c] + Join(tail, c)
  {
    assert ([head] + tail)[1..] == tail;
  }

  /** Joining undoes splitting. */
  lemma {:induction false} JoinSplit(s: string, c: char)
    ensures Join(Split(s, c), c) == s
    decreases |s|
  {
    hide Join;
    var n := Find(s, c);
    if n < |s| {
      var head, rest := s[..n], s[n + 1..];
      JoinSplit(rest, c);
      JoinCons(head, Split(rest, c), c);
      assert s == head + [s[n]] + rest;
    } else {
      JoinOne(s, c);
    }
  }

  lemma JoinOne(s: string, c: char)
    ensures Join([s], c) == s
  {
  }

  lemma SplitHead(head: string, c: char, rest: string)
    requires c !in head
    ensures Split(head + [c] + rest, c) == [head] + Split(rest, c)
  {
    var s := head + [c] + rest;
    FindAt(head, c, rest);
    assert s[..|head|] == head && s[|head| + 1..] == rest;
  }

  /** Index of the last `c` in `s`, or `|s|`. */
  function FindLast(s: string, c: char): (n: nat)
    ensures n <= |s|
    ensures n == |s| <==> c !in s
    ensures n < |s| ==> s[n] == c && c !in s[n + 1..]
  {
    if c !in s then |s|
    else if s[|s| - 1] == c then |s| - 1
    else
      var n := FindLast(s[..|s| - 1], c);
      assert s[n + 1..] == s[..|s| - 1][n + 1..] + [s[|s| - 1]];
      n
  }

  /** Everything after the last `c`, or all of `s`. */
  function AfterLast(s: string, c: char): string {
    if c !in s then s else s[FindLast(s, c) + 1..]
  }

  /** Everything before the last `c`, or "". */
  function BeforeLast(s: string, c: char): string {
    if c !in s then "" else s[..FindLast(s, c)]
  }

  /** `rpartition` loses nothing. */
  lemma PartitionRejoins(s: string, c: char)
    requires c in s
    ensures BeforeLast(s, c) + [c] + AfterLast(s, c) == s
  {
    var n := FindLast(s, c);
    assert s == s[..n] + [s[n]] + s[n + 1..];
  }

  lemma LastAt(s: string, c: char, n: nat)
    requires n < |s| && s[n] == c && c !in s[n + 1..]
    ensures FindLast(s, c) == n
  {
  }

  /** The text after the last `c` does not depend on what stands before a `c`. */
  lemma AfterLastTail(head: string, c: char, rest: string)
    ensures AfterLast(head + [c] + rest, c) == AfterLast(rest, c)
  {
    var s := head + [c] + rest;
    assert s[|head|] == c;
    assert s[|head| + 1..] == rest;
    if c in rest {
      var n := FindLast(rest, c);
      var m := |head| + 1 + n;
      assert s[m] == c && s[m + 1..] == rest[n + 1..];
      LastAt(s, c, m);
    } else {
      LastAt(s, c, |head|);
    }
  }

  // ---------------------------------------------------------------- replace, case, prefixes

  function Replace(s: string, from: char, to: char): (r: string)
    ensures |r| == |s|
    ensures forall i :: 0 <= i < |s| ==> r[i] == if s[i] == from then to else s[i]
  {
    seq(|s|, i requires 0 <= i < |s| => if s[i] == from then to else s[i])
  }

  /** ASCII part of `str.lower`. */
  function Lower(s: string): (r: string)
    ensures |r| == |s|
    ensures forall i :: 0 <= i < |s| ==>
      r[i] == if 'A' <= s[i] <= 'Z' then (s[i] as int + 32) as char else s[i]
  {
    seq(|s|, i requires 0 <= i < |s| =>
      if 'A' <= s[i] <= 'Z' then (s[i] as int + 32) as char else s[i])
  }

  predicate StartsWith(s: string, prefix: string) {
    |prefix| <= |s| && s[..|prefix|] == prefix
  }

  // ---------------------------------------------------------------- integers

  predicate IsDigit(c: char) { '0' <= c <= '9' }

  predicate AllDigits(s: string) {
    s != "" && forall i :: 0 <= i < |s| ==> IsDigit(s[i])
  }

  function DigitValue(c: char): nat
    requires IsDigit(c)
  {
    c as int - '0' as int
  }

  function Digit(d: nat): char
    requires d < 10
  {
    ('0' as int + d) as char
  }

  /** Digits with single underscores between them, as `int()` accepts. */
  function ParseDigits(s: string): Option<nat>
    decreases |s|
  {
    if s == "" || !IsDigit(s[|s| - 1]) then None
    else
      var d := DigitValue(s[|s| - 1]);
      var front := s[..|s| - 1];
      if front == "" then Some(d)
      else
        var body := if front[|front| - 1] == '_' then front[..|front| - 1] else front;
        match ParseDigits(body)
        case None => None
        case Some(v) => Some(v * 10 + d)
  }

  /** `int(s)`, with `None` for `ValueError`. */
  function ParseInt(s: string): Option<int> {
    var t := Strip(s);
    if t == "" then None
    else if t[0] == '-' then
      match ParseDigits(t[1..]) case None => None case Some(v) => Some(-(v as int))
    else
      match ParseDigits(if t[0] == '+' then t[1..] else t) case None => None case Some(v) => Some(v as int)
  }

  function PrintNat(n: nat): (s: string)
    ensures AllDigits(s)
  {
    if n < 10 then [Digit(n)] else PrintNat(n / 10) + [Digit(n % 10)]
  }

  function PrintInt(n: int): string {
    if n < 0 then "-" + PrintNat(-n) else PrintNat(n)
  }

  lemma {:induction false} ParsePrintNat(n: nat)
    ensures ParseDigits(PrintNat(n)) == Some(n)
  {
    var s := PrintNat(n);
    if n >= 10 {
      ParsePrintNat(n / 10);
      assert s[..|s| - 1] == PrintNat(n / 10);
      assert s[|s| - 2] == PrintNat(n / 10)[|s| - 2];
    }
  }

  /** Printing then parsing returns the integer, negative ones included. */
  lemma ParsePrintInt(n: int)
    ensures ParseInt(PrintInt(n)) == Some(n)
    ensures Trimmed(PrintInt(n)) && PrintInt(n) != ""
    ensures ':' !in PrintInt(n)
  {
    var s := PrintInt(n);
    if n < 0 {
      ParsePrintNat(-n);
      assert s[1..] == PrintNat(-n);
      assert IsDigit(s[|s| - 1]);
    } else {
      ParsePrintNat(n);
      assert IsDigit(s[0]);
    }
    StripTrims(s);
  }
}
