/**
 * The few Go `strings`/`strconv` operations the provisioning rules rely on,
 * on strings as sequences of characters: `strings.Split` with a one-character
 * separator, `strings.Join`, `strings.Index`, `strings.Replace` of one
 * character by another, ASCII `strings.ToLower`, and `strconv.Itoa`.
 */
module Text {
  import opened Wrappers

  // ---------------------------------------------------------------- Split / Join

  /** `strings.Split(s, sep)`: the text between separators, left to right.
      Never empty: a text without `sep` is split into itself. */
  function Split(s: string, sep: char): (parts: seq<string>)
    ensures |parts| >= 1
    decreases |s|
  {
    if |s| == 0 then [""]
    else
      var rest := Split(s[1..], sep);
      if s[0] == sep then [""] + rest
      else [[s[0]] + rest[0]] + rest[1..]
  }

  /** `strings.Join(parts, sep)`. */
  function Join(parts: seq<string>, sep: char): string
  {
    if |parts| == 0 then ""
    else if |parts| == 1 then parts[0]
    else parts[0] + [sep] + Join(parts[1..], sep)
  }

  /** No element of `parts` contains `sep`. */
  predicate Separated(parts: seq<string>, sep: char)
  {
    forall i :: 0 <= i < |parts| ==> sep !in parts[i]
  }

  /** Joining the pieces of a split gives back the text. */
  lemma {:induction false} JoinSplit(s: string, sep: char)
    ensures Join(Split(s, sep), sep) == s
    decreases |s|
  {
    if |s| > 0 {
      var rest := Split(s[1..], sep);
      JoinSplit(s[1..], sep);
      if s[0] == sep {
        assert Split(s, sep) == [""] + rest;
        assert ([""] + rest)[1..] == rest;
      } else if |rest| == 1 {
        assert Split(s, sep) == [[s[0]] + rest[0]];
      } else {
        var parts := Split(s, sep);
        assert parts == [[s[0]] + rest[0]] + rest[1..];
        assert parts[1..] == rest[1..];
        assert Join(rest, sep) == rest[0] + [sep] + Join(rest[1..], sep);
        assert s == [s[0]] + s[1..];
      }
    }
  }

  /** No piece of a split contains the separator. */
  lemma {:induction false} SplitSeparated(s: string, sep: char)
    ensures Separated(Split(s, sep), sep)
    decreases |s|
  {
    if |s| > 0 {
      SplitSeparated(s[1..], sep);
      var rest := Split(s[1..], sep);
      if s[0] != sep {
        var parts := Split(s, sep);
        forall i | 0 <= i < |parts| ensures sep !in parts[i] {
          if i == 0 {
            assert parts[0] == [s[0]] + rest[0];
          } else {
            assert parts[i] == rest[i];
          }
        }
      }
    }
  }

  /** A text without the separator splits into itself. */
  lemma {:induction false} SplitWithoutSep(p: string, sep: char)
    requires sep !in p
    ensures Split(p, sep) == [p]
    decreases |p|
  {
    if |p| > 0 {
      SplitWithoutSep(p[1..], sep);
      assert [p[0]] + p[1..] == p;
    }
  }

  /** Splitting `p + sep + t`, with no separator in `p`, yields `p` followed by the split of `t`. */
  lemma {:induction false} SplitAfterField(p: string, t: string, sep: char)
    requires sep !in p
    ensures Split(p + [sep] + t, sep) == [p] + Split(t, sep)
    decreases |p|
  {
    var s := p + [sep] + t;
    if |p| == 0 {
      assert s[1..] == t;
    } else {
      assert s[1..] == p[1..] + [sep] + t;
      SplitAfterField(p[1..], t, sep);
      assert [p[0]] + p[1..] == p;
    }
  }

  /** Splitting a join of separator-free pieces gives back the pieces. */
  lemma {:induction false} SplitJoin(parts: seq<string>, sep: char)
    requires |parts| >= 1 && Separated(parts, sep)
    ensures Split(Join(parts, sep), sep) == parts
    decreases |parts|
  {
    if |parts| == 1 {
      SplitWithoutSep(parts[0], sep);
    } else {
      SplitJoin(parts[1..], sep);
      SplitAfterField(parts[0], Join(parts[1..], sep), sep);
      assert [parts[0]] + parts[1..] == parts;
    }
  }

  /** A split has more than one piece exactly when the separator occurs. */
  lemma SplitCount(s: string, sep: char)
    ensures |Split(s, sep)| == 1 <==> sep !in s
  {
    JoinSplit(s, sep);
    SplitSeparated(s, sep);
    if sep !in s {
      SplitWithoutSep(s, sep);
    }
  }

  /** `p` is a prefix of `s`. */
  predicate HasPrefix(s: string, p: string)
  {
    |p| <= |s| && s[..|p|] == p
  }

  /** The first piece of a join is a prefix of the join. */
  lemma JoinStartsWithFirst(parts: seq<string>, sep: char)
    requires |parts| >= 1
    ensures HasPrefix(Join(parts, sep), parts[0])
  {
    if |parts| > 1 {
      var j := Join(parts, sep);
      assert j == parts[0] + ([sep] + Join(parts[1..], sep));
    }
  }

  /** When the separator occurs, the text starts with the first field, the
      separator and the second field, and neither field contains the separator. */
  lemma {:induction false} FirstTwoFields(s: string, sep: char)
    requires sep in s
    ensures |Split(s, sep)| >= 2
    ensures HasPrefix(s, Split(s, sep)[0] + [sep] + Split(s, sep)[1])
    ensures sep !in Split(s, sep)[0] && sep !in Split(s, sep)[1]
    ensures var n := |Split(s, sep)[0]| + 1 + |Split(s, sep)[1]|; n == |s| || s[n] == sep
  {
    SplitCount(s, sep);
    SplitSeparated(s, sep);
    JoinSplit(s, sep);
    var parts := Split(s, sep);
    JoinStartsWithFirst(parts[1..], sep);
    var tail := Join(parts[1..], sep);
    assert s == parts[0] + [sep] + tail;
    assert tail[..|parts[1]|] == parts[1];
    assert s[..|parts[0]| + 1 + |parts[1]|] == parts[0] + [sep] + parts[1];
    if |parts| > 2 {
      assert parts[1..][1..] == parts[2..];
      assert tail == parts[1] + [sep] + Join(parts[2..], sep);
    }
  }

  /** The join of several pieces is the join of all but the last, the separator and the last. */
  lemma {:induction false} JoinLast(parts: seq<string>, sep: char)
    requires |parts| >= 2
    ensures Join(parts, sep) == Join(parts[..|parts| - 1], sep) + [sep] + parts[|parts| - 1]
    decreases |parts|
  {
    if |parts| > 2 {
      JoinLast(parts[1..], sep);
      assert parts[1..][..|parts| - 2] == parts[..|parts| - 1][1..];
      assert parts[1..][|parts| - 2] == parts[|parts| - 1];
    } else {
      assert parts[..1] == [parts[0]];
    }
  }

  /** Joining two non-empty lists of pieces puts one separator between their joins. */
  lemma {:induction false} JoinAppend(p: seq<string>, q: seq<string>, sep: char)
    requires |p| >= 1 && |q| >= 1
    ensures Join(p + q, sep) == Join(p, sep) + [sep] + Join(q, sep)
    decreases |p|
  {
    if |p| == 1 {
      assert (p + q)[1..] == q;
    } else {
      JoinAppend(p[1..], q, sep);
      assert (p + q)[1..] == p[1..] + q;
    }
  }

  /** Splitting around one separator splits each side on its own. */
  lemma SplitConcat(x: string, t: string, sep: char)
    ensures Split(x + [sep] + t, sep) == Split(x, sep) + Split(t, sep)
  {
    var p := Split(x, sep);
    var q := Split(t, sep);
    JoinSplit(x, sep);
    JoinSplit(t, sep);
    JoinAppend(p, q, sep);
    SplitSeparated(x, sep);
    SplitSeparated(t, sep);
    assert Separated(p + q, sep) by {
      forall i | 0 <= i < |p + q| ensures sep !in (p + q)[i] {
        if i < |p| { assert (p + q)[i] == p[i]; } else { assert (p + q)[i] == q[i - |p|]; }
      }
    }
    SplitJoin(p + q, sep);
  }

  /** The last piece of `strings.Split(s, sep)`: the text after the last separator. */
  function LastSegment(s: string, sep: char): string
  {
    var parts := Split(s, sep);
    parts[|parts| - 1]
  }

  /** The last segment is the longest separator-free suffix: it ends the text,
      contains no separator, and is either the whole text or preceded by a separator. */
  lemma LastSegmentIsSuffix(s: string, sep: char)
    ensures var seg := LastSegment(s, sep);
      && |seg| <= |s| && s[|s| - |seg|..] == seg
      && sep !in seg
      && (seg == s || s[|s| - |seg| - 1] == sep)
  {
    var parts := Split(s, sep);
    JoinSplit(s, sep);
    SplitSeparated(s, sep);
    if |parts| >= 2 {
      JoinLast(parts, sep);
    }
  }

  /** The last segment of a text ending in a separator-free tail is that tail. */
  lemma LastSegmentAfter(x: string, t: string, sep: char)
    requires sep !in t
    ensures LastSegment(x + [sep] + t, sep) == t
  {
    SplitConcat(x, t, sep);
    SplitWithoutSep(t, sep);
  }

  // ---------------------------------------------------------------- Index

  /** `sub` occurs in `s` starting at position `k`. */
  predicate OccursAt(s: string, sub: string, k: int)
  {
    0 <= k && k + |sub| <= |s| && s[k..k + |sub|] == sub
  }

  /** `sub` occurs somewhere in `s`. */
  predicate Contains(s: string, sub: string)
  {
    exists k :: 0 <= k <= |s| && OccursAt(s, sub, k)
  }

  lemma OccursShift(s: string, sub: string, k: int)
    requires |s| > 0 && 0 <= k
    ensures OccursAt(s[1..], sub, k) <==> OccursAt(s, sub, k + 1)
  {
    if 0 <= k && k + |sub| <= |s| - 1 {
      assert s[1..][k..k + |sub|] == s[k + 1..k + 1 + |sub|];
    }
  }

  /** `strings.Index(s, sub)`: the position of the first occurrence, or -1. */
  function Index(s: string, sub: string): (r: int)
    ensures r == -1 || OccursAt(s, sub, r)
    ensures forall k :: 0 <= k < r ==> !OccursAt(s, sub, k)
    ensures r == -1 ==> !Contains(s, sub)
    decreases |s|
  {
    if HasPrefix(s, sub) then 0
    else if |s| == 0 then -1
    else
      var r' := Index(s[1..], sub);
      IndexStep(s, sub, r');
      if r' == -1 then -1 else r' + 1
  }

  lemma IndexStep(s: string, sub: string, r': int)
    requires |s| > 0 && !HasPrefix(s, sub)
    requires r' == -1 || OccursAt(s[1..], sub, r')
    requires forall k :: 0 <= k < r' ==> !OccursAt(s[1..], sub, k)
    requires r' == -1 ==> !Contains(s[1..], sub)
    ensures var r := if r' == -1 then -1 else r' + 1;
      && (r == -1 || OccursAt(s, sub, r))
      && (forall k :: 0 <= k < r ==> !OccursAt(s, sub, k))
      && (r == -1 ==> !Contains(s, sub))
  {
    assert !OccursAt(s, sub, 0);
    if r' != -1 {
      OccursShift(s, sub, r');
      forall k | 0 < k < r' + 1 ensures !OccursAt(s, sub, k) {
        OccursShift(s, sub, k - 1);
      }
    } else {
      forall k | 0 < k <= |s| ensures !OccursAt(s, sub, k) {
        OccursShift(s, sub, k - 1);
        assert !OccursAt(s[1..], sub, k - 1);
      }
    }
  }

  /** `strings.Index(s, p) == 0` holds exactly when `p` is a prefix of `s`,
      and `strings.Index(s, sub) > -1` exactly when `sub` occurs in `s`. */
  lemma IndexMeaning(s: string, sub: string)
    ensures Index(s, sub) == 0 <==> HasPrefix(s, sub)
    ensures Index(s, sub) > -1 <==> Contains(s, sub)
  {
    if HasPrefix(s, sub) {
      assert OccursAt(s, sub, 0);
    }
  }

  // ---------------------------------------------------------------- Replace / ToLower

  /** `strings.Replace(s, from, to, -1)` for one-character `from` and `to`. */
  function ReplaceChar(s: string, from: char, to: char): (r: string)
    ensures |r| == |s|
    ensures forall i :: 0 <= i < |s| ==> r[i] == (if s[i] == from then to else s[i])
  {
    seq(|s|, i requires 0 <= i < |s| => if s[i] == from then to else s[i])
  }

  /** After replacing every `from` by a different character, no `from` is left,
      and every other character is where it was. */
  lemma ReplaceCharRemoves(s: string, from: char, to: char)
    requires from != to
    ensures from !in ReplaceChar(s, from, to)
    ensures forall i :: 0 <= i < |s| && s[i] != from ==> ReplaceChar(s, from, to)[i] == s[i]
  {
  }

  function LowerChar(c: char): char
  {
    if 'A' <= c <= 'Z' then (c as int - 'A' as int + 'a' as int) as char else c
  }

  /** `strings.ToLower` on ASCII text. */
  function ToLower(s: string): (r: string)
    ensures |r| == |s|
    ensures forall i :: 0 <= i < |s| ==> r[i] == LowerChar(s[i])
  {
    seq(|s|, i requires 0 <= i < |s| => LowerChar(s[i]))
  }

  // ---------------------------------------------------------------- Itoa

  predicate IsDigit(c: char)
  {
    '0' <= c <= '9'
  }

  predicate AllDigits(s: string)
  {
    forall i :: 0 <= i < |s| ==> IsDigit(s[i])
  }

  function DigitChar(d: nat): (c: char)
    requires d < 10
    ensures IsDigit(c)
  {
    ('0' as int + d) as char
  }

  function DigitValue(c: char): nat
    requires IsDigit(c)
  {
    c as int - '0' as int
  }

  /** Decimal text of a natural number, most significant digit first, no leading zeros. */
  function NatToDecimal(n: nat): string
    decreases n
  {
    if n < 10 then [DigitChar(n)]
    else NatToDecimal(n / 10) + [DigitChar(n % 10)]
  }

  /** The decimal text of a number is a non-empty run of digits, with a
      leading zero only for zero itself. */
  lemma {:induction false} DecimalDigits(n: nat)
    ensures var s := NatToDecimal(n); |s| >= 1 && AllDigits(s) && (s[0] == '0' ==> n == 0)
    decreases n
  {
    if n >= 10 {
      DecimalDigits(n / 10);
    }
  }

  /** The value of a text of decimal digits. */
  function ParseDecimal(s: string): nat
    requires AllDigits(s)
    decreases |s|
  {
    if |s| == 0 then 0
    else ParseDecimal(s[..|s| - 1]) * 10 + DigitValue(s[|s| - 1])
  }

  /** `strconv.Itoa`. */
  function Itoa(i: int): string
  {
    if i < 0 then "-" + NatToDecimal(-i) else NatToDecimal(i)
  }

  /** `strconv.Atoi` on the texts `Itoa` can produce: an optional minus sign and digits. */
  function Atoi(s: string): Option<int>
  {
    if |s| >= 2 && s[0] == '-' && AllDigits(s[1..]) then Some(-(ParseDecimal(s[1..]) as int))
    else if |s| >= 1 && AllDigits(s) then Some(ParseDecimal(s))
    else None
  }

  /** Reading back the decimal text of `n` gives `n`. */
  lemma {:induction false} DecimalRoundTrip(n: nat)
    ensures AllDigits(NatToDecimal(n)) && ParseDecimal(NatToDecimal(n)) == n
    decreases n
  {
    DecimalDigits(n);
    if n >= 10 {
      DecimalRoundTrip(n / 10);
      var s := NatToDecimal(n);
      assert s[..|s| - 1] == NatToDecimal(n / 10);
    }
  }

  /** `Atoi` inverts `Itoa`; in particular `Itoa` is injective. */
  lemma AtoiItoa(i: int)
    ensures Atoi(Itoa(i)) == Some(i)
  {
    if i < 0 {
      DecimalDigits(-i);
      DecimalRoundTrip(-i);
      assert Itoa(i)[1..] == NatToDecimal(-i);
    } else {
      DecimalDigits(i);
      DecimalRoundTrip(i);
    }
  }

  /** The decimal text of a number never contains a separator character that is not a digit or a sign. */
  lemma ItoaHasNo(i: int, c: char)
    requires !IsDigit(c) && c != '-'
    ensures c !in Itoa(i)
  {
    var s := Itoa(i);
    if i < 0 {
      DecimalDigits(-i);
      assert forall k :: 1 <= k < |s| ==> s[k] == NatToDecimal(-i)[k - 1];
    } else {
      DecimalDigits(i);
    }
  }
}
