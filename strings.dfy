/** The string operations the source uses: `split`, `join`, `pop` of a split, and number formatting. */
module Strings {
  import opened Wrappers

  /** JavaScript's `s.split(sep)` for a non-empty separator: the pieces between the leftmost,
      non-overlapping occurrences of `sep`, read from left to right. */
  function Split(s: string, sep: string): (parts: seq<string>)
    requires |sep| > 0
    ensures |parts| >= 1
    decreases |s|
  {
    if |s| < |sep| then [s]
    else if s[..|sep|] == sep then [""] + Split(s[|sep|..], sep)
    else
      var rest := Split(s[1..], sep);
      [[s[0]] + rest[0]] + rest[1..]
  }

  /** JavaScript's `parts.join(sep)`; the empty list joins to the empty string. */
  function Join(parts: seq<string>, sep: string): string
  {
    if |parts| == 0 then ""
    else if |parts| == 1 then parts[0]
    else parts[0] + sep + Join(parts[1..], sep)
  }

  /** `s.split(sep)[i]`: `None` when there are fewer than `i + 1` pieces (JavaScript's `undefined`). */
  function Part(s: string, sep: string, i: nat): Option<string>
    requires |sep| > 0
  {
    var parts := Split(s, sep);
    if i < |parts| then Some(parts[i]) else None
  }

  /** `s.split('/').pop()`: the text after the last slash, or all of `s` when it has none. */
  function LastSegment(s: string): string
  {
    var parts := Split(s, "/");
    parts[|parts| - 1]
  }

  /** The decimal digit character for `d`. */
  function Digit(d: nat): (c: char)
    requires d < 10
    ensures '0' <= c <= '9'
  {
    "0123456789"[d]
  }

  predicate IsDigits(s: string)
  {
    forall i :: 0 <= i < |s| ==> '0' <= s[i] <= '9'
  }

  /** How a template literal `${n}` renders a non-negative integer: its decimal digits, no leading zero. */
  function NatToString(n: nat): (s: string)
    ensures |s| >= 1 && IsDigits(s)
    ensures s[0] == '0' ==> n == 0
  {
    if n < 10 then [Digit(n)] else NatToString(n / 10) + [Digit(n % 10)]
  }

  /** How a template literal `${n}` renders any integer: a minus sign before a negative one. */
  function IntToString(n: int): string
  {
    if n < 0 then "-" + NatToString(-n) else NatToString(n)
  }

  /** The JavaScript `length` of a string: its UTF-16 code units, two for a character beyond U+FFFF. */
  function Utf16Length(s: string): (n: nat)
    ensures |s| <= n <= 2 * |s|
    ensures n == |s| <==> forall i :: 0 <= i < |s| ==> s[i] as int <= 0xFFFF
  {
    if |s| == 0 then 0 else Utf16Length(s[..|s| - 1]) + (if s[|s| - 1] as int > 0xFFFF then 2 else 1)
  }

  /** The value of a string of decimal digits. */
  function DigitsValue(s: string): nat
    requires IsDigits(s)
  {
    if |s| == 0 then 0 else DigitsValue(s[..|s| - 1]) * 10 + (s[|s| - 1] as int - '0' as int)
  }

  /** Rendering a number and reading its digits back gives the number. */
  lemma {:induction false} DigitsValueOfNatToString(n: nat)
    ensures DigitsValue(NatToString(n)) == n
  {
    var s := NatToString(n);
    if n >= 10 {
      DigitsValueOfNatToString(n / 10);
      assert s[..|s| - 1] == NatToString(n / 10);
    }
  }

  /** Distinct numbers render to distinct strings. */
  lemma NatToStringInjective(a: nat, b: nat)
    requires a != b
    ensures NatToString(a) != NatToString(b)
  {
    DigitsValueOfNatToString(a);
    DigitsValueOfNatToString(b);
  }

  /** Unfolding `Join` on a list of at least two pieces. */
  lemma JoinCons(x: string, rest: seq<string>, sep: string)
    requires |rest| >= 1
    ensures Join([x] + rest, sep) == x + sep + Join(rest, sep)
  {
    assert ([x] + rest)[1..] == rest;
  }

  /** Unfolding `Split` where the string starts with the separator. */
  lemma SplitAtSeparator(s: string, sep: string)
    requires |sep| > 0 && |s| >= |sep| && s[..|sep|] == sep
    ensures Split(s, sep) == [""] + Split(s[|sep|..], sep)
  {
  }

  /** Unfolding `Split` where the string does not start with the separator. */
  lemma SplitAtOther(s: string, sep: string)
    requires |sep| > 0 && |s| >= |sep| && s[..|sep|] != sep
    ensures var rest := Split(s[1..], sep); Split(s, sep) == [[s[0]] + rest[0]] + rest[1..]
  {
  }

  /** Prepending a character to the first piece prepends it to the joined string. */
  lemma JoinExtendFirst(ch: char, rest: seq<string>, sep: string)
    requires |rest| >= 1
    ensures Join([[ch] + rest[0]] + rest[1..], sep) == [ch] + Join(rest, sep)
  {
    if |rest| > 1 {
      JoinCons([ch] + rest[0], rest[1..], sep);
      JoinCons(rest[0], rest[1..], sep);
      assert rest == [rest[0]] + rest[1..];
    }
  }

  /** Joining the pieces of a split with the same separator gives back the original string. */
  lemma {:induction false} JoinSplit(s: string, sep: string)
    requires |sep| > 0
    ensures Join(Split(s, sep), sep) == s
    decreases |s|
  {
    if |s| < |sep| {
    } else if s[..|sep|] == sep {
      SplitAtSeparator(s, sep);
      JoinSplit(s[|sep|..], sep);
      JoinCons("", Split(s[|sep|..], sep), sep);
      assert s == sep + s[|sep|..];
    } else {
      SplitAtOther(s, sep);
      JoinSplit(s[1..], sep);
      JoinExtendFirst(s[0], Split(s[1..], sep), sep);
      assert s == [s[0]] + s[1..];
    }
  }

  /** A string without the separator's last character is split into itself alone. */
  lemma {:induction false} SplitWithoutSeparator(s: string, sep: string)
    requires |sep| > 0 && sep[|sep| - 1] !in s
    ensures Split(s, sep) == [s]
    decreases |s|
  {
    if |s| >= |sep| {
      assert s[..|sep|][|sep| - 1] == s[|sep| - 1];
      SplitWithoutSeparator(s[1..], sep);
      assert s == [s[0]] + s[1..];
    }
  }

  /** `s.endsWith(suffix)`. */
  predicate EndsWith(s: string, suffix: string)
  {
    |suffix| <= |s| && s[|s| - |suffix|..] == suffix
  }

  /** `sep` occurs in `s` starting at position `i`. */
  predicate OccursAt(s: string, sep: string, i: nat)
  {
    i + |sep| <= |s| && s[i..i + |sep|] == sep
  }

  /** A string in which the separator occurs at no position is split into itself alone. */
  lemma {:induction false} SplitWithoutOccurrence(s: string, sep: string)
    requires |sep| > 0
    requires forall i: nat :: !OccursAt(s, sep, i)
    ensures Split(s, sep) == [s]
    decreases |s|
  {
    if |s| >= |sep| {
      assert !OccursAt(s, sep, 0);
      SplitAtOther(s, sep);
      forall i: nat ensures !OccursAt(s[1..], sep, i) {
        if i + |sep| <= |s[1..]| {
          assert s[1..][i..i + |sep|] == s[i + 1..i + 1 + |sep|];
          assert !OccursAt(s, sep, i + 1);
        }
      }
      SplitWithoutOccurrence(s[1..], sep);
      assert s == [s[0]] + s[1..];
    }
  }

  /** A split yields more than one piece exactly when the separator occurs somewhere. */
  lemma SplitCount(s: string, sep: string)
    requires |sep| > 0
    ensures |Split(s, sep)| >= 2 <==> exists i: nat :: OccursAt(s, sep, i)
  {
    if exists i: nat :: OccursAt(s, sep, i) {
      var i: nat :| OccursAt(s, sep, i);
      SplitAtOccurrence(s, sep, i);
    } else {
      SplitWithoutOccurrence(s, sep);
    }
  }

  /** An occurrence of the separator makes at least two pieces. */
  lemma {:induction false} SplitAtOccurrence(s: string, sep: string, i: nat)
    requires |sep| > 0 && OccursAt(s, sep, i)
    ensures |Split(s, sep)| >= 2
    decreases i
  {
    if s[..|sep|] == sep {
      SplitAtSeparator(s, sep);
    } else {
      assert i != 0 by { assert s[0..0 + |sep|] == s[..|sep|]; }
      SplitAtOther(s, sep);
      assert s[1..][i - 1..i - 1 + |sep|] == s[i..i + |sep|];
      SplitAtOccurrence(s[1..], sep, i - 1);
    }
  }

  /** When the separator ends in a character that occurs neither earlier in the separator nor in
      `p`, the first piece of `p + sep + rest` is exactly `p`. */
  lemma {:induction false} SplitAfterPrefix(p: string, sep: string, rest: string)
    requires |sep| > 0
    requires sep[|sep| - 1] !in p && sep[|sep| - 1] !in sep[..|sep| - 1]
    ensures Split(p + sep + rest, sep) == [p] + Split(rest, sep)
    decreases |p|
  {
    var s := p + sep + rest;
    if |p| == 0 {
      assert s == sep + rest;
      assert s[..|sep|] == sep && s[|sep|..] == rest;
    } else {
      assert s[|sep| - 1] != sep[|sep| - 1] by {
        if |sep| - 1 < |p| {
          assert s[|sep| - 1] == p[|sep| - 1];
        } else {
          assert s[|sep| - 1] == sep[..|sep| - 1][|sep| - 1 - |p|];
        }
      }
      SplitAtOther(s, sep);
      SplitAfterPrefix(p[1..], sep, rest);
      assert s[1..] == p[1..] + sep + rest;
      assert p == [p[0]] + p[1..];
    }
  }

  /** Splitting a non-empty string on one character: its head starts a new piece or extends
      the first one. */
  lemma SplitCharHead(s: string, c: char)
    requires |s| > 0
    ensures var rest := Split(s[1..], [c]);
      Split(s, [c]) == if s[0] == c then [""] + rest else [[s[0]] + rest[0]] + rest[1..]
  {
    if s[0] == c {
      SplitAtSeparator(s, [c]);
    } else {
      SplitAtOther(s, [c]);
    }
  }

  /** Splitting on one character distributes over an occurrence of that character. */
  lemma {:induction false} SplitCharConcat(p: string, c: char, q: string)
    ensures Split(p + [c] + q, [c]) == Split(p, [c]) + Split(q, [c])
    decreases |p|
  {
    var s := p + [c] + q;
    SplitCharHead(s, c);
    if |p| == 0 {
      assert s[0] == c && s[1..] == q;
    } else {
      assert s[0] == p[0] && s[1..] == p[1..] + [c] + q;
      SplitCharConcat(p[1..], c, q);
      SplitCharHead(p, c);
      var a, b := Split(p[1..], [c]), Split(q, [c]);
      if p[0] != c {
        assert (a + b)[0] == a[0] && (a + b)[1..] == a[1..] + b;
      }
    }
  }

  /** No piece of a split on one character holds that character, and there is one piece
      exactly when the character does not occur. */
  lemma {:induction false} SplitCharPieces(s: string, c: char)
    ensures forall i :: 0 <= i < |Split(s, [c])| ==> c !in Split(s, [c])[i]
    ensures |Split(s, [c])| == 1 <==> c !in s
    decreases |s|
  {
    if |s| > 0 {
      SplitCharHead(s, c);
      SplitCharPieces(s[1..], c);
      assert s == [s[0]] + s[1..];
    }
  }

  /** The name after the last slash of `prefix + "/" + segment` is `segment`. */
  lemma LastSegmentOf(prefix: string, segment: string)
    requires '/' !in segment
    ensures LastSegment(prefix + "/" + segment) == segment
  {
    SplitCharConcat(prefix, '/', segment);
    SplitWithoutSeparator(segment, "/");
  }

  /** Splitting on one character undoes joining on it, for a non-empty list of pieces free of it. */
  lemma {:induction false} SplitJoinChar(parts: seq<string>, c: char)
    requires |parts| >= 1
    requires forall i :: 0 <= i < |parts| ==> c !in parts[i]
    ensures Split(Join(parts, [c]), [c]) == parts
    decreases |parts|
  {
    if |parts| == 1 {
      SplitWithoutSeparator(parts[0], [c]);
    } else {
      SplitJoinChar(parts[1..], c);
      SplitCharConcat(parts[0], c, Join(parts[1..], [c]));
      SplitWithoutSeparator(parts[0], [c]);
      assert parts == [parts[0]] + parts[1..];
    }
  }
}
