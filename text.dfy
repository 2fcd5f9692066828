/**
 * The string operations the display code relies on: `String.split(' ')`,
 * ASCII upper-casing and decimal rendering of integers.
 */
module Text {

  /** `s.split(' ')`: the pieces between single spaces, empty pieces included. */
  function Split(s: string): (parts: seq<string>)
    ensures |parts| >= 1
  {
    if s == [] then [""]
    else if s[|s| - 1] == ' ' then Split(s[..|s| - 1]) + [""]
    else
      var r := Split(s[..|s| - 1]);
      r[..|r| - 1] + [r[|r| - 1] + [s[|s| - 1]]]
  }

  /** `parts.join(' ')`. */
  function Join(parts: seq<string>): string
    requires |parts| >= 1
  {
    if |parts| == 1 then parts[0]
    else Join(parts[..|parts| - 1]) + " " + parts[|parts| - 1]
  }

  /** Joining the pieces with single spaces gives back the original string. */
  lemma {:induction false} SplitJoin(s: string)
    ensures Join(Split(s)) == s
    ensures forall k :: 0 <= k < |Split(s)| ==> ' ' !in Split(s)[k]
    decreases |s|
  {
    if s != [] {
      var init, last := s[..|s| - 1], s[|s| - 1];
      SplitJoin(init);
      var r := Split(init);
      assert s == init + [last];
      if last == ' ' {
        assert Split(s)[..|Split(s)| - 1] == r;
      } else if |r| == 1 {
        assert Split(s) == [r[0] + [last]];
      } else {
        var t := Split(s);
        assert t[..|t| - 1] == r[..|r| - 1];
        assert Join(t) == Join(r[..|r| - 1]) + " " + (r[|r| - 1] + [last]);
        assert Join(r) == Join(r[..|r| - 1]) + " " + r[|r| - 1];
        forall k | 0 <= k < |t| ensures ' ' !in t[k] {
          if k < |t| - 1 { assert t[k] == r[k]; }
        }
      }
    }
  }

  /** The index of the first space, or |s| when there is none. */
  function FirstSpace(s: string): (i: nat)
    ensures i <= |s|
    ensures forall k :: 0 <= k < i ==> s[k] != ' '
    ensures i < |s| ==> s[i] == ' '
  {
    if s == [] then 0
    else if FirstSpace(s[..|s| - 1]) < |s| - 1 then FirstSpace(s[..|s| - 1])
    else if s[|s| - 1] == ' ' then |s| - 1
    else |s|
  }

  /** One past the index of the last space, or 0 when there is none. */
  function LastWordStart(s: string): (i: nat)
    ensures i <= |s|
    ensures forall k :: i <= k < |s| ==> s[k] != ' '
    ensures i > 0 ==> s[i - 1] == ' '
  {
    if s == [] then 0
    else if s[|s| - 1] == ' ' then |s|
    else LastWordStart(s[..|s| - 1])
  }

  /** There is more than one piece exactly when the string has a space. */
  lemma {:induction false} SplitCount(s: string)
    ensures |Split(s)| > 1 <==> ' ' in s
    decreases |s|
  {
    if s != [] {
      var init, last := s[..|s| - 1], s[|s| - 1];
      SplitCount(init);
      assert s == init + [last];
      assert ' ' in s <==> ' ' in init || last == ' ';
    }
  }

  /** The first piece runs up to the first space. */
  lemma {:induction false} SplitFirst(s: string)
    ensures Split(s)[0] == s[..FirstSpace(s)]
    decreases |s|
  {
    if s != [] {
      var init, last := s[..|s| - 1], s[|s| - 1];
      SplitFirst(init);
      SplitCount(init);
      assert s == init + [last];
      var r := Split(init);
      if FirstSpace(init) < |init| {
        assert ' ' in init;
        assert Split(s)[0] == r[0];
        assert s[..FirstSpace(s)] == init[..FirstSpace(init)];
      } else {
        assert init[..FirstSpace(init)] == init;
        assert ' ' !in init by {
          forall k | 0 <= k < |init| ensures init[k] != ' ' { }
        }
        if last == ' ' {
          assert Split(s)[0] == r[0];
          assert s[..FirstSpace(s)] == init;
        } else {
          assert Split(s)[0] == r[0] + [last];
          assert s[..FirstSpace(s)] == s;
        }
      }
    }
  }

  /** The last piece starts after the last space. */
  lemma {:induction false} SplitLast(s: string)
    ensures Split(s)[|Split(s)| - 1] == s[LastWordStart(s)..]
    decreases |s|
  {
    if s != [] {
      var init, last := s[..|s| - 1], s[|s| - 1];
      SplitLast(init);
      if last != ' ' {
        var r := Split(init);
        assert Split(s)[|Split(s)| - 1] == r[|r| - 1] + [last];
        assert s[LastWordStart(s)..] == init[LastWordStart(init)..] + [last];
      }
    }
  }

  function UpperChar(c: char): char {
    if 'a' <= c <= 'z' then (c as int - 32) as char else c
  }

  /** `toUpperCase()` on ASCII letters; every other character is kept. */
  function Upper(s: string): (r: string)
    ensures |r| == |s|
    ensures forall k :: 0 <= k < |s| ==> r[k] == UpperChar(s[k])
  {
    if s == [] then [] else Upper(s[..|s| - 1]) + [UpperChar(s[|s| - 1])]
  }

  function Digit(d: nat): char
    requires d < 10
  {
    "0123456789"[d]
  }

  /** The decimal digits of n, without leading zeros. */
  function NatToString(n: nat): (r: string)
    ensures |r| >= 1
    ensures forall k :: 0 <= k < |r| ==> '0' <= r[k] <= '9'
  {
    if n < 10 then [Digit(n)] else NatToString(n / 10) + [Digit(n % 10)]
  }

  /** The number the decimal digits of s denote. */
  function DigitsValue(s: string): nat
    requires forall k :: 0 <= k < |s| ==> '0' <= s[k] <= '9'
  {
    if s == [] then 0 else 10 * DigitsValue(s[..|s| - 1]) + (s[|s| - 1] as int - '0' as int)
  }

  /** Rendering then reading back gives the number. */
  lemma {:induction false} NatToStringValue(n: nat)
    ensures DigitsValue(NatToString(n)) == n
    decreases n
  {
    if n >= 10 {
      NatToStringValue(n / 10);
      var r := NatToString(n);
      assert r[..|r| - 1] == NatToString(n / 10);
    }
  }

  /** `String(i)` for an integer. */
  function IntToString(i: int): string {
    if i < 0 then "-" + NatToString(-i) else NatToString(i)
  }

  /** `(h / 100).toFixed(2)` for a non-negative number h of hundredths. */
  function HundredthsToString(h: nat): (r: string)
    ensures |r| >= 4 && r[|r| - 3] == '.'
  {
    var frac := h % 100;
    NatToString(h / 100) + "." + [Digit(frac / 10), Digit(frac % 10)]
  }
}
