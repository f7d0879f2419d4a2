/**
 * String helpers with JavaScript's meaning, over ASCII: `trim`, `toLowerCase`,
 * `includes`, `split` on one character or on whitespace runs, `join`, and the
 * decimal text of an integer.
 */
module Text {

  /** The ASCII members of JavaScript's whitespace class (`\s`, and what `trim` removes). */
  predicate IsSpace(c: char)
  {
    c == ' ' || c == '\t' || c == '\n' || c == '\r' || c as int == 11 || c as int == 12
  }

  /** No leading and no trailing whitespace. */
  predicate IsTrimmed(s: string)
  {
    s == [] || (!IsSpace(s[0]) && !IsSpace(s[|s| - 1]))
  }

  /** `s.trimStart()`. */
  function TrimStart(s: string): (r: string)
    ensures |r| <= |s|
    ensures r == [] || !IsSpace(r[0])
  {
    if |s| > 0 && IsSpace(s[0]) then TrimStart(s[1..]) else s
  }

  /** `s.trimEnd()`. */
  function TrimEnd(s: string): (r: string)
    ensures |r| <= |s|
    ensures r == [] || !IsSpace(r[|r| - 1])
  {
    if |s| > 0 && IsSpace(s[|s| - 1]) then TrimEnd(s[..|s| - 1]) else s
  }

  /** `trimStart` drops a whitespace prefix and keeps the rest. */
  lemma {:induction false} TrimStartDrops(s: string)
    ensures TrimStart(s) == s[|s| - |TrimStart(s)|..]
    ensures forall i :: 0 <= i < |s| - |TrimStart(s)| ==> IsSpace(s[i])
    decreases |s|
  {
    if |s| > 0 && IsSpace(s[0]) {
      TrimStartDrops(s[1..]);
      assert s[1..][|s| - 1 - |TrimStart(s)|..] == s[|s| - |TrimStart(s)|..];
    }
  }

  /** `trimEnd` drops a whitespace suffix and keeps the rest. */
  lemma {:induction false} TrimEndDrops(s: string)
    ensures TrimEnd(s) == s[..|TrimEnd(s)|]
    ensures forall i :: |TrimEnd(s)| <= i < |s| ==> IsSpace(s[i])
    decreases |s|
  {
    if |s| > 0 && IsSpace(s[|s| - 1]) {
      TrimEndDrops(s[..|s| - 1]);
      assert s[..|s| - 1][..|TrimEnd(s)|] == s[..|TrimEnd(s)|];
    }
  }

  /** `sub` occurs in `s` starting at position `i`. */
  predicate OccursAt(s: string, sub: string, i: int)
  {
    0 <= i <= |s| - |sub| && s[i..i + |sub|] == sub
  }

  /** `s.trim()`: the middle of `s` once whitespace at both ends is removed. */
  function Trim(s: string): (r: string)
    ensures IsTrimmed(r)
    ensures |r| <= |s|
  {
    TrimEndDrops(TrimStart(s));
    TrimEnd(TrimStart(s))
  }

  /** `trim` removes whitespace at the two ends and nothing else: the result is the middle of `s`. */
  lemma TrimKeepsMiddle(s: string)
    ensures exists a :: OccursAt(s, Trim(s), a) &&
                        (forall i :: 0 <= i < a ==> IsSpace(s[i])) &&
                        (forall i :: a + |Trim(s)| <= i < |s| ==> IsSpace(s[i]))
  {
    var t := TrimStart(s);
    var r := TrimEnd(t);
    TrimStartDrops(s);
    TrimEndDrops(t);
    var a := |s| - |t|;
    assert OccursAt(s, r, a);
    forall i | a + |r| <= i < |s| ensures IsSpace(s[i]) {
      assert s[i] == t[i - a];
    }
    assert OccursAt(s, Trim(s), a) &&
           (forall i :: 0 <= i < a ==> IsSpace(s[i])) &&
           (forall i :: a + |Trim(s)| <= i < |s| ==> IsSpace(s[i]));
  }

  /** Trimming changes nothing on trimmed text. */
  lemma TrimTrimmed(s: string)
    requires IsTrimmed(s)
    ensures Trim(s) == s
  {
  }

  /** Whitespace in front of trimmed text is all that `trim` removes. */
  lemma {:induction false} TrimLeadingSpaces(w: string, s: string)
    requires forall i :: 0 <= i < |w| ==> IsSpace(w[i])
    requires IsTrimmed(s)
    ensures Trim(w + s) == s
  {
    if |w| > 0 {
      assert (w + s)[1..] == w[1..] + s;
      TrimLeadingSpaces(w[1..], s);
    } else {
      assert w + s == s;
    }
  }

  function LowerChar(c: char): char
  {
    if 'A' <= c <= 'Z' then (c as int + 32) as char else c
  }

  /** `s.toLowerCase()` over ASCII: upper-case letters become lower-case, all else stays. */
  function Lower(s: string): (r: string)
    ensures |r| == |s|
    ensures forall i :: 0 <= i < |s| ==> r[i] == LowerChar(s[i])
  {
    if |s| == 0 then [] else [LowerChar(s[0])] + Lower(s[1..])
  }

  /** `s.includes(sub)`: `sub` occurs in `s` at some position. */
  function Includes(s: string, sub: string): (r: bool)
    ensures r <==> exists i :: OccursAt(s, sub, i)
  {
    if sub <= s then (assert OccursAt(s, sub, 0); true)
    else if |s| == 0 then false
    else
      var r := Includes(s[1..], sub);
      assert forall i :: OccursAt(s, sub, i) <==> i >= 1 && OccursAt(s[1..], sub, i - 1) by {
        forall i ensures OccursAt(s, sub, i) <==> i >= 1 && OccursAt(s[1..], sub, i - 1) {
          if 1 <= i <= |s| - |sub| {
            assert s[1..][i - 1..i - 1 + |sub|] == s[i..i + |sub|];
          }
        }
      }
      assert r ==> OccursAt(s, sub, 1 + var i :| OccursAt(s[1..], sub, i); i) by {
        if r {
          var i :| OccursAt(s[1..], sub, i);
          assert OccursAt(s, sub, i + 1);
        }
      }
      r
  }

  function Digit(d: nat): char
    requires d < 10
  {
    "0123456789"[d]
  }

  predicate IsDigit(c: char)
  {
    '0' <= c <= '9'
  }

  /** The decimal text of `n` (`String(n)` for a non-negative integer). */
  function NatToDecimal(n: nat): (r: string)
    ensures |r| >= 1
    ensures forall i :: 0 <= i < |r| ==> IsDigit(r[i])
    ensures |r| > 1 ==> r[0] != '0'
  {
    if n < 10 then [Digit(n)] else NatToDecimal(n / 10) + [Digit(n % 10)]
  }

  /** The decimal text of an integer, with a leading `-` for a negative one. */
  function IntToDecimal(n: int): (r: string)
    ensures |r| >= 1
  {
    if n < 0 then "-" + NatToDecimal(-n) else NatToDecimal(n)
  }

  /** How many times `c` occurs in `s`. */
  function CountChar(s: string, c: char): nat
  {
    if |s| == 0 then 0 else (if s[0] == c then 1 else 0) + CountChar(s[1..], c)
  }

  /** `parts.join(sep)`. */
  function Join(parts: seq<string>, sep: string): string
  {
    if |parts| == 0 then ""
    else if |parts| == 1 then parts[0]
    else parts[0] + sep + Join(parts[1..], sep)
  }

  /** `s.split(c)` for a one-character separator: the pieces between the separators. */
  function SplitOn(s: string, c: char): (r: seq<string>)
    ensures |r| == CountChar(s, c) + 1
    ensures forall i :: 0 <= i < |r| ==> c !in r[i]
  {
    if |s| == 0 then [""]
    else
      var rest := SplitOn(s[1..], c);
      if s[0] == c then [""] + rest else [[s[0]] + rest[0]] + rest[1..]
  }

  /** Joining the pieces of a split with the separator gives the text back. */
  lemma {:induction false} JoinSplitOn(s: string, c: char)
    ensures Join(SplitOn(s, c), [c]) == s
  {
    if |s| > 0 {
      JoinSplitOn(s[1..], c);
      var rest := SplitOn(s[1..], c);
      if s[0] == c {
        assert SplitOn(s, c) == [""] + rest;
        assert Join([""] + rest, [c]) == "" + [c] + Join(rest, [c]);
      } else {
        var r := SplitOn(s, c);
        assert r == [[s[0]] + rest[0]] + rest[1..];
        if |rest| == 1 {
          assert Join(r, [c]) == [s[0]] + rest[0];
        } else {
          assert r[1..] == rest[1..];
          assert Join(rest, [c]) == rest[0] + [c] + Join(rest[1..], [c]);
        }
      }
    }
  }

  /** Splitting text joined with the separator gives the pieces back, if no piece contains it. */
  lemma {:induction false} SplitOnJoin(parts: seq<string>, c: char)
    requires |parts| >= 1
    requires forall i :: 0 <= i < |parts| ==> c !in parts[i]
    ensures SplitOn(Join(parts, [c]), c) == parts
  {
    if |parts| == 1 {
      SplitOnNoSeparator(parts[0], c);
    } else {
      SplitOnJoin(parts[1..], c);
      SplitOnPrefix(parts[0], Join(parts[1..], [c]), c);
    }
  }

  lemma {:induction false} SplitOnNoSeparator(s: string, c: char)
    requires c !in s
    ensures SplitOn(s, c) == [s]
  {
    if |s| > 0 {
      SplitOnNoSeparator(s[1..], c);
      assert [s[0]] + s[1..] == s;
    }
  }

  lemma {:induction false} SplitOnPrefix(p: string, t: string, c: char)
    requires c !in p
    ensures SplitOn(p + [c] + t, c) == [p] + SplitOn(t, c)
  {
    if |p| == 0 {
      assert p + [c] + t == [c] + t;
      assert ([c] + t)[1..] == t;
    } else {
      assert (p + [c] + t)[1..] == p[1..] + [c] + t;
      SplitOnPrefix(p[1..], t, c);
      assert [p[0]] + p[1..] == p;
    }
  }

  /** Drops the whitespace at the front of `s`. */
  function SkipSpaces(s: string): (r: string)
    ensures |r| <= |s| && r == s[|s| - |r|..]
    ensures r == [] || !IsSpace(r[0])
  {
    if |s| > 0 && IsSpace(s[0]) then SkipSpaces(s[1..]) else s
  }

  /** `s.split(/\s+/)`: the pieces between maximal whitespace runs. */
  function SplitOnSpaceRuns(s: string): (r: seq<string>)
    ensures |r| >= 1
    decreases |s|
  {
    if |s| == 0 then [""]
    else if IsSpace(s[0]) then [""] + SplitOnSpaceRuns(SkipSpaces(s[1..]))
    else
      var rest := SplitOnSpaceRuns(s[1..]);
      [[s[0]] + rest[0]] + rest[1..]
  }

  /** A word: non-empty, with no whitespace in it. */
  predicate IsWord(w: string)
  {
    |w| > 0 && forall i :: 0 <= i < |w| ==> !IsSpace(w[i])
  }

  /**
   * The pieces of non-empty trimmed text are words: the split then counts the words.
   * (The first piece of text that starts with a word is itself a word, or the whole
   * text when there is no whitespace.)
   */
  lemma {:induction false} SplitTrimmedIntoWords(s: string)
    requires s != [] && IsTrimmed(s)
    ensures forall i :: 0 <= i < |SplitOnSpaceRuns(s)| ==> IsWord(SplitOnSpaceRuns(s)[i])
    decreases |s|
  {
    var t := s[1..];
    if |t| == 0 {
      assert SplitOnSpaceRuns(t) == [""];
      assert SplitOnSpaceRuns(s) == [[s[0]] + ""];
    } else if !IsSpace(t[0]) {
      assert t[|t| - 1] == s[|s| - 1];
      SplitTrimmedIntoWords(t);
      var rest := SplitOnSpaceRuns(t);
      assert IsWord(rest[0]);
    } else {
      var u := SkipSpaces(t[1..]);
      SpaceRunThenWord(s);
      SplitTrimmedIntoWords(u);
      assert SplitOnSpaceRuns(t) == [""] + SplitOnSpaceRuns(u);
      assert SplitOnSpaceRuns(s) == [[s[0]] + ""] + SplitOnSpaceRuns(u);
    }
  }

  /** In trimmed text, a whitespace run after the first character is followed by more trimmed text. */
  lemma SpaceRunThenWord(s: string)
    requires |s| > 1 && IsTrimmed(s) && IsSpace(s[1])
    ensures var u := SkipSpaces(s[2..]); u != [] && IsTrimmed(u) && |u| < |s|
  {
    var u := SkipSpaces(s[2..]);
    if u == [] {
      SkipSpacesAllSpace(s[2..]);
      assert false;
    }
    assert u[|u| - 1] == s[|s| - 1];
  }

  lemma {:induction false} SkipSpacesAllSpace(s: string)
    requires SkipSpaces(s) == []
    ensures forall k :: 0 <= k < |s| ==> IsSpace(s[k])
  {
    if |s| > 0 {
      assert IsSpace(s[0]);
      SkipSpacesAllSpace(s[1..]);
      forall k | 1 <= k < |s| ensures IsSpace(s[k]) {
        assert s[k] == s[1..][k - 1];
      }
    }
  }
}
