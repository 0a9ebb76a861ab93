/** The JavaScript library rules that the two browser hosts lean on:
    `Array.prototype.slice` with its clamping and negative indices, and the
    global `parseInt` without a radix. */
module JsRules {
  import opened Wrappers

  /** Where a `slice` bound lands in an array of length len: a negative bound
      counts from the end, and every bound is clamped into 0..len. */
  function SliceBound(k: int, len: nat): (b: nat)
    ensures b <= len
    ensures 0 <= k <= len ==> b == k
    ensures k > len ==> b == len
    ensures k < 0 ==> b == if len + k < 0 then 0 else len + k
  {
    if k < 0 then (if len + k < 0 then 0 else len + k)
    else if k > len then len
    else k
  }

  /** `xs.slice(start, end)`. */
  function Slice<T>(xs: seq<T>, start: int, end: int): (r: seq<T>)
    ensures var s := SliceBound(start, |xs|); var e := SliceBound(end, |xs|);
      r == if s <= e then xs[s..e] else []
  {
    var s := SliceBound(start, |xs|);
    var e := SliceBound(end, |xs|);
    if s <= e then xs[s..e] else []
  }

  /** A slice from the front is a prefix, of the asked length when the array
      is long enough. */
  lemma SliceFromFront<T>(xs: seq<T>, end: int)
    requires end >= 0
    ensures Slice(xs, 0, end) <= xs
    ensures |Slice(xs, 0, end)| == if end <= |xs| then end else |xs|
  {
  }

  /** A negative end drops that many items from the back. */
  lemma SliceNegativeEnd<T>(xs: seq<T>, k: nat)
    requires 0 < k <= |xs|
    ensures Slice(xs, 0, -(k as int)) == xs[..|xs| - k]
  {
  }

  /** The white space `parseInt` skips before the number. */
  predicate IsJsSpace(c: char) {
    c == ' ' || c == '\t' || c == '\n' || c == '\r' || c == '\U{B}' || c == '\U{C}'
    || c == '\U{A0}' || c == '\U{1680}' || ('\U{2000}' <= c <= '\U{200A}')
    || c == '\U{2028}' || c == '\U{2029}' || c == '\U{202F}' || c == '\U{205F}'
    || c == '\U{3000}' || c == '\U{FEFF}'
  }

  function SkipSpace(s: string): (r: string)
    ensures |r| <= |s| && s[|s| - |r|..] == r
    ensures r == "" || !IsJsSpace(r[0])
  {
    if s != "" && IsJsSpace(s[0]) then SkipSpace(s[1..]) else s
  }

  /** The value of c as a digit in the given radix, if it is one. */
  function DigitIn(c: char, radix: nat): Option<nat> {
    var d :=
      if '0' <= c <= '9' then c as int - '0' as int
      else if 'a' <= c <= 'z' then c as int - 'a' as int + 10
      else if 'A' <= c <= 'Z' then c as int - 'A' as int + 10
      else 99;
    if d < radix then Some(d) else None
  }

  /** The number of leading characters of s that are digits in radix. */
  function DigitRun(s: string, radix: nat): (n: nat)
    ensures n <= |s|
    ensures forall i :: 0 <= i < n ==> DigitIn(s[i], radix).Some?
    ensures n < |s| ==> DigitIn(s[n], radix).None?
  {
    if s != "" && DigitIn(s[0], radix).Some? then 1 + DigitRun(s[1..], radix) else 0
  }

  /** The value of a run of digits, most significant first. */
  function RunValue(s: string, radix: nat): nat
    requires forall i :: 0 <= i < |s| ==> DigitIn(s[i], radix).Some?
  {
    if s == "" then 0
    else RunValue(s[..|s| - 1], radix) * radix + DigitIn(s[|s| - 1], radix).value
  }

  /** `parseInt(s)` with no radix: leading white space, an optional sign, a
      `0x`/`0X` prefix selecting base 16, then the longest run of digits;
      `None` stands for `NaN`, which is the answer when no digit follows. */
  function ParseInt(s: string): (r: Option<int>)
    ensures r.None? <==> DigitRun(Unsigned(SkipSpace(s)).0, Unsigned(SkipSpace(s)).1) == 0
  {
    var t := SkipSpace(s);
    var negative := t != "" && t[0] == '-';
    var (body, radix) := Unsigned(t);
    var n := DigitRun(body, radix);
    if n == 0 then None
    else
      var v: int := RunValue(body[..n], radix);
      Some(if negative then -v else v)
  }

  /** The digits part of a trimmed string and the radix they are read in. */
  function Unsigned(t: string): (string, nat) {
    var u := if t != "" && (t[0] == '-' || t[0] == '+') then t[1..] else t;
    if |u| >= 2 && u[0] == '0' && (u[1] == 'x' || u[1] == 'X') then (u[2..], 16) else (u, 10)
  }

  /** Decimal input without sign or spaces reads as its digit value. */
  lemma ParseIntDecimal(s: string)
    requires s != "" && '1' <= s[0] <= '9'
    requires forall i :: 0 <= i < |s| ==> '0' <= s[i] <= '9'
    ensures ParseInt(s) == Some(RunValue(s, 10))
  {
    assert !IsJsSpace(s[0]);
    assert SkipSpace(s) == s;
    assert Unsigned(s) == (s, 10);
    DecimalRun(s);
    assert s[..|s|] == s;
  }

  lemma DecimalRun(s: string)
    requires forall i :: 0 <= i < |s| ==> '0' <= s[i] <= '9'
    ensures DigitRun(s, 10) == |s|
  {
  }

  /** Text that does not start with a digit after the spaces and sign is NaN. */
  lemma ParseIntNoDigit(s: string)
    requires s != "" && !IsJsSpace(s[0]) && s[0] != '-' && s[0] != '+'
    requires !('0' <= s[0] <= '9')
    ensures ParseInt(s) == None
  {
  }
}
