/** Small value types and string helpers shared by the rest of the model:
    Python's `None`/value optionals, substring membership (`t in s`), `sep.join(parts)`
    and `str(n)` for natural numbers. */
module Common {

  datatype Option<+T> = None | Some(value: T)

  /** Python truthiness of an optional string: present and not "". */
  predicate HasText(o: Option<string>) {
    o.Some? && o.value != ""
  }

  /** Python truthiness of an optional list: present and not []. */
  predicate HasItems<T>(o: Option<seq<T>>) {
    o.Some? && o.value != []
  }

  /** `t in s` on Python strings: `t` occurs in `s` as a contiguous piece. */
  predicate Contains(s: string, t: string)
    decreases |s|
  {
    t <= s || (s != [] && Contains(s[1..], t))
  }

  /** A string contains every one of its prefixes. */
  lemma ContainsPrefix(t: string, rest: string)
    ensures Contains(t + rest, t)
  {
    assert t <= t + rest;
  }

  /** A piece found in the middle of a string is contained in it. */
  lemma {:induction false} ContainsInside(front: string, t: string, back: string)
    ensures Contains(front + t + back, t)
    decreases |front|
  {
    if front == [] {
      assert front + t + back == t + back;
      ContainsPrefix(t, back);
    } else {
      assert (front + t + back)[1..] == front[1..] + t + back;
      ContainsInside(front[1..], t, back);
    }
  }

  /** `any(t in item for item in items)`. */
  predicate AnyContains(items: seq<string>, t: string) {
    exists i :: 0 <= i < |items| && Contains(items[i], t)
  }

  /** `sep.join(parts)`. */
  function Join(parts: seq<string>, sep: string): (r: string)
    ensures parts != [] ==> parts[0] <= r
    ensures |parts| == 1 ==> r == parts[0]
    decreases |parts|
  {
    if parts == [] then ""
    else if |parts| == 1 then parts[0]
    else parts[0] + sep + Join(parts[1..], sep)
  }

  /** Appending one more part adds it to the joined string after a separator. */
  lemma {:induction false} JoinSnoc(parts: seq<string>, x: string, sep: string)
    requires parts != []
    ensures Join(parts + [x], sep) == Join(parts, sep) + sep + x
    decreases |parts|
  {
    if |parts| == 1 {
      assert parts + [x] == [parts[0], x];
      assert (parts + [x])[1..] == [x];
    } else {
      assert (parts + [x])[1..] == parts[1..] + [x];
      JoinSnoc(parts[1..], x, sep);
    }
  }

  predicate IsDigit(c: char) {
    '0' <= c <= '9'
  }

  function DigitValue(c: char): nat
    requires IsDigit(c)
  {
    (c as int - '0' as int) as nat
  }

  function DigitChar(d: nat): (c: char)
    requires d < 10
    ensures IsDigit(c) && DigitValue(c) == d
  {
    ('0' as int + d) as char
  }

  /** `str(n)` for a natural number: its decimal digits. */
  function NatToString(n: nat): (r: string)
    ensures r != [] && forall i :: 0 <= i < |r| ==> IsDigit(r[i])
    ensures DigitsValue(r) == n
    decreases n
  {
    if n < 10 then [DigitChar(n)] else NatToString(n / 10) + [DigitChar(n % 10)]
  }

  /** The number a string of decimal digits denotes (`int(s)`). */
  function DigitsValue(s: string): nat
    requires forall i :: 0 <= i < |s| ==> IsDigit(s[i])
    decreases |s|
  {
    if s == [] then 0 else 10 * DigitsValue(s[..|s| - 1]) + DigitValue(s[|s| - 1])
  }
}
