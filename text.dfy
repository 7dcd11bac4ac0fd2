/** The few string operations the source relies on, with Python's semantics. */
module Text {

  /** `s.find(c)`: the index of the first `c` in `s`, or -1 when there is none. */
  function Find(s: string, c: char): (r: int)
    ensures -1 <= r < |s|
    ensures r == -1 <==> c !in s
    ensures r >= 0 ==> s[r] == c && c !in s[..r]
  {
    if s == [] then -1
    else if s[0] == c then 0
    else
      var k := Find(s[1..], c);
      if k == -1 then -1
      else
        assert s[..k + 1] == [s[0]] + s[1..][..k];
        k + 1
  }

  /** The first occurrence of `c` in `p + [c] + t` is at `|p|` when `p` has none. */
  lemma FindAfterPrefix(p: string, c: char, t: string)
    requires c !in p
    ensures Find(p + [c] + t, c) == |p|
  {
    var s := p + [c] + t;
    assert s[|p|] == c;
    assert s[..|p|] == p;
  }

  /** Inverse of `Split`: the parts separated by single `sep` characters. */
  function Join(parts: seq<string>, sep: char): string
  {
    if parts == [] then ""
    else if |parts| == 1 then parts[0]
    else parts[0] + [sep] + Join(parts[1..], sep)
  }

  /** `s.split(sep)` with an explicit one-character separator: never empty, and
      empty fields are kept (`"".split(",") == [""]`, `"a,,b"` gives three parts). */
  function Split(s: string, sep: char): (parts: seq<string>)
    ensures |parts| >= 1
    ensures forall i :: 0 <= i < |parts| ==> sep !in parts[i]
    ensures Join(parts, sep) == s
    decreases |s|
  {
    var i := Find(s, sep);
    if i == -1 then [s]
    else
      var rest := Split(s[i + 1..], sep);
      SplitStep(s, sep, i, rest);
      [s[..i]] + rest
  }

  /** One step of `Split`: the field before the first separator, then the split of the remainder. */
  lemma SplitStep(s: string, sep: char, i: nat, rest: seq<string>)
    requires i < |s| && s[i] == sep && sep !in s[..i]
    requires |rest| >= 1 && Join(rest, sep) == s[i + 1..]
    requires forall k :: 0 <= k < |rest| ==> sep !in rest[k]
    ensures forall k :: 0 <= k < |[s[..i]] + rest| ==> sep !in ([s[..i]] + rest)[k]
    ensures Join([s[..i]] + rest, sep) == s
  {
    var parts := [s[..i]] + rest;
    assert parts[1..] == rest;
    assert forall k :: 1 <= k < |parts| ==> parts[k] == rest[k - 1];
    assert s == s[..i] + [sep] + s[i + 1..];
  }

  /** Splitting a join gives the parts back when none of them holds the separator. */
  lemma {:induction false} SplitJoin(parts: seq<string>, sep: char)
    requires |parts| >= 1
    requires forall i :: 0 <= i < |parts| ==> sep !in parts[i]
    ensures Split(Join(parts, sep), sep) == parts
  {
    if |parts| > 1 {
      var tail := Join(parts[1..], sep);
      var s := parts[0] + [sep] + tail;
      assert Join(parts, sep) == s;
      FindAfterPrefix(parts[0], sep, tail);
      assert s[|parts[0]| + 1..] == tail;
      assert s[..|parts[0]|] == parts[0];
      SplitJoin(parts[1..], sep);
      assert Split(s, sep) == [parts[0]] + Split(tail, sep);
      assert parts == [parts[0]] + parts[1..];
    }
  }

  predicate IsDigit(c: char) { '0' <= c <= '9' }

  predicate AllDigits(s: string) { forall i :: 0 <= i < |s| ==> IsDigit(s[i]) }

  /** The length of the longest run of digits at the start of `s`. */
  function DigitRun(s: string): (n: nat)
    ensures n <= |s|
    ensures AllDigits(s[..n])
    ensures n < |s| ==> !IsDigit(s[n])
  {
    if s == [] || !IsDigit(s[0]) then 0
    else
      var k := DigitRun(s[1..]);
      assert s[..k + 1] == [s[0]] + s[1..][..k];
      k + 1
  }

  /** A run of digits followed by a non-digit is exactly the longest digit run. */
  lemma DigitRunOf(d: string, t: string)
    requires AllDigits(d)
    requires t != [] && !IsDigit(t[0])
    ensures DigitRun(d + t) == |d|
  {
    var s := d + t;
    assert s[..|d|] == d;
    assert s[|d|] == t[0];
  }

  /** The longest prefix of `s` without a newline: what a regular expression `.+` or `.*`
      consumes, since `.` matches every character except `'\n'`. */
  function Line(s: string): (l: string)
    ensures l <= s && '\n' !in l
    ensures |l| < |s| ==> s[|l|] == '\n'
  {
    var i := Find(s, '\n');
    if i == -1 then s else s[..i]
  }

  /** A prefix without newline followed by nothing or by a newline is `Line`. */
  lemma LineOf(l: string, t: string)
    requires '\n' !in l
    requires t == [] || t[0] == '\n'
    ensures Line(l + t) == l
  {
    if t == [] {
      assert l + t == l;
    } else {
      assert l + t == l + ['\n'] + t[1..];
      FindAfterPrefix(l, '\n', t[1..]);
    }
  }
}
