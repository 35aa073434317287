/**
 * Python string operations used by the model: `in` (substring), `lower`, `strip`,
 * `split`, `splitlines`, `join`, `replace`, `startswith` and `str(int)`.
 * Case mapping and whitespace are modelled for ASCII plus the ASCII control
 * characters Python's `str.isspace` accepts.
 */
module Text {
  function LowerChar(c: char): char
  {
    if 'A' <= c <= 'Z' then (c as int + 32) as char else c
  }

  /** `s.lower()` on ASCII letters. */
  function Lower(s: string): (r: string)
    ensures |r| == |s|
    ensures forall i :: 0 <= i < |s| ==> r[i] == LowerChar(s[i])
  {
    seq(|s|, i requires 0 <= i < |s| => LowerChar(s[i]))
  }

  lemma LowerAppend(a: string, b: string)
    ensures Lower(a + b) == Lower(a) + Lower(b)
  {
    assert Lower(a + b) == Lower(a) + Lower(b) by {
      forall i | 0 <= i < |a + b|
        ensures Lower(a + b)[i] == (Lower(a) + Lower(b))[i]
      {
      }
    }
  }

  lemma LowerIdempotent(s: string)
    ensures Lower(Lower(s)) == Lower(s)
  {
  }

  predicate StartsWith(s: string, p: string)
  {
    |p| <= |s| && s[..|p|] == p
  }

  /** Python's `p in s` for strings. */
  predicate Contains(s: string, p: string)
    decreases |s|
  {
    StartsWith(s, p) || (|s| > 0 && Contains(s[1..], p))
  }

  predicate OccursAt(s: string, p: string, i: int)
  {
    0 <= i && i + |p| <= |s| && s[i..i + |p|] == p
  }

  /** An occurrence at any position makes `Contains` true. */
  lemma {:induction false} OccursContains(s: string, p: string, i: int)
    requires OccursAt(s, p, i)
    ensures Contains(s, p)
    decreases i
  {
    if i > 0 {
      assert s[1..][i - 1..i - 1 + |p|] == s[i..i + |p|];
      OccursContains(s[1..], p, i - 1);
    }
  }

  /** `Contains` is witnessed by a position. */
  lemma {:induction false} ContainsWitness(s: string, p: string) returns (i: int)
    requires Contains(s, p)
    ensures OccursAt(s, p, i)
    decreases |s|
  {
    if StartsWith(s, p) {
      i := 0;
    } else {
      var j := ContainsWitness(s[1..], p);
      assert s[1..][j..j + |p|] == s[j + 1..j + 1 + |p|];
      i := j + 1;
    }
  }

  lemma ContainsIff(s: string, p: string)
    ensures Contains(s, p) <==> exists i :: OccursAt(s, p, i)
  {
    if Contains(s, p) {
      var i := ContainsWitness(s, p);
    }
    forall i | OccursAt(s, p, i)
      ensures Contains(s, p)
    {
      OccursContains(s, p, i);
    }
  }

  lemma ContainsEmpty(s: string)
    ensures Contains(s, "")
  {
    assert StartsWith(s, "");
  }

  lemma ContainsSelf(s: string)
    ensures Contains(s, s)
  {
    assert StartsWith(s, s);
  }

  /** Substring containment is transitive. */
  lemma ContainsTrans(s: string, p: string, q: string)
    requires Contains(s, p) && Contains(p, q)
    ensures Contains(s, q)
  {
    ContainsIff(s, p);
    ContainsIff(p, q);
    var i :| OccursAt(s, p, i);
    var j :| OccursAt(p, q, j);
    assert p == s[i..i + |p|];
    forall k | 0 <= k < |q|
      ensures s[i + j + k] == q[k]
    {
      assert q[k] == p[j + k];
    }
    assert s[i + j..i + j + |q|] == q;
    assert OccursAt(s, q, i + j);
    ContainsIff(s, q);
  }

  /** A substring of either part is a substring of the concatenation. */
  lemma ContainsConcat(a: string, b: string, p: string)
    ensures Contains(a, p) ==> Contains(a + b, p)
    ensures Contains(b, p) ==> Contains(a + b, p)
  {
    ContainsIff(a, p);
    ContainsIff(b, p);
    ContainsIff(a + b, p);
    if Contains(a, p) {
      var i :| OccursAt(a, p, i);
      assert (a + b)[i..i + |p|] == a[i..i + |p|];
      assert OccursAt(a + b, p, i);
    }
    if Contains(b, p) {
      var i :| OccursAt(b, p, i);
      assert (a + b)[|a| + i..|a| + i + |p|] == b[i..i + |p|];
      assert OccursAt(a + b, p, |a| + i);
    }
  }

  /** Python's `any(w in text for w in words)`. */
  predicate AnyContained(text: string, words: seq<string>)
  {
    exists k :: 0 <= k < |words| && Contains(text, words[k])
  }

  /** Whitespace as Python's `str.isspace` sees it, restricted to ASCII and U+0085. */
  predicate IsSpace(c: char)
  {
    c == ' ' || c == '\t' || c == '\n' || c == '\r' || c == '\U{0B}' || c == '\U{0C}'
    || c == '\U{1C}' || c == '\U{1D}' || c == '\U{1E}' || c == '\U{1F}' || c == '\U{85}'
  }

  /** `s.lstrip()` */
  function LStrip(s: string): (r: string)
    ensures |r| <= |s|
    ensures r == s[|s| - |r|..]
    ensures r == [] || !IsSpace(r[0])
    ensures forall i :: 0 <= i < |s| - |r| ==> IsSpace(s[i])
  {
    if s == [] || !IsSpace(s[0]) then s else LStrip(s[1..])
  }

  /** `s.rstrip()` */
  function RStrip(s: string): (r: string)
    ensures |r| <= |s|
    ensures r == s[..|r|]
    ensures r == [] || !IsSpace(r[|r| - 1])
    ensures forall i :: |r| <= i < |s| ==> IsSpace(s[i])
  {
    if s == [] || !IsSpace(s[|s| - 1]) then s else RStrip(s[..|s| - 1])
  }

  /** `s.strip()` */
  function Strip(s: string): (r: string)
    ensures |r| <= |s|
    ensures r == [] || (!IsSpace(r[0]) && !IsSpace(r[|r| - 1]))
  {
    RStrip(LStrip(s))
  }

  /** `sep.join(parts)` */
  function Join(parts: seq<string>, sep: string): string
  {
    if |parts| == 0 then ""
    else if |parts| == 1 then parts[0]
    else parts[0] + sep + Join(parts[1..], sep)
  }

  lemma {:induction false} JoinSnoc(parts: seq<string>, x: string, sep: string)
    ensures Join(parts + [x], sep) == if parts == [] then x else Join(parts, sep) + sep + x
  {
    if |parts| == 1 {
      assert parts + [x] == [parts[0], x];
    } else if |parts| > 1 {
      assert (parts + [x])[1..] == parts[1..] + [x];
      JoinSnoc(parts[1..], x, sep);
    }
  }

  /** Every part is a substring of the joined text. */
  lemma {:induction false} JoinContainsPart(parts: seq<string>, sep: string, i: int)
    requires 0 <= i < |parts|
    ensures Contains(Join(parts, sep), parts[i])
  {
    if |parts| == 1 {
      ContainsSelf(parts[0]);
    } else if i == 0 {
      ContainsSelf(parts[0]);
      ContainsConcat(parts[0], sep + Join(parts[1..], sep), parts[0]);
      assert parts[0] + sep + Join(parts[1..], sep) == parts[0] + (sep + Join(parts[1..], sep));
    } else {
      JoinContainsPart(parts[1..], sep, i - 1);
      ContainsConcat(parts[0] + sep, Join(parts[1..], sep), parts[i]);
    }
  }

  /** `s.split(sep)` for a one-character separator. */
  function SplitOn(s: string, sep: char): (r: seq<string>)
    ensures |r| >= 1
  {
    if s == [] then [""]
    else if s[0] == sep then [""] + SplitOn(s[1..], sep)
    else
      var rest := SplitOn(s[1..], sep);
      [[s[0]] + rest[0]] + rest[1..]
  }

  function CountChar(s: string, c: char): nat
  {
    if s == [] then 0 else (if s[0] == c then 1 else 0) + CountChar(s[1..], c)
  }

  /** Splitting yields one more piece than there are separators, and the pieces hold no separator. */
  lemma {:induction false} SplitOnProps(s: string, sep: char)
    ensures |SplitOn(s, sep)| == CountChar(s, sep) + 1
    ensures forall k :: 0 <= k < |SplitOn(s, sep)| ==> sep !in SplitOn(s, sep)[k]
  {
    if s != [] {
      SplitOnProps(s[1..], sep);
    }
  }

  /** Joining the pieces with the separator gives back the text. */
  lemma {:induction false} SplitOnJoin(s: string, sep: char)
    ensures Join(SplitOn(s, sep), [sep]) == s
  {
    if s != [] {
      SplitOnJoin(s[1..], sep);
      var rest := SplitOn(s[1..], sep);
      if s[0] == sep {
        assert SplitOn(s, sep) == [""] + rest;
        assert s == [sep] + s[1..];
      } else {
        assert SplitOn(s, sep) == [[s[0]] + rest[0]] + rest[1..];
        if |rest| == 1 {
          assert s == [s[0]] + rest[0];
        } else {
          assert ([[s[0]] + rest[0]] + rest[1..])[1..] == rest[1..];
          assert Join(rest, [sep]) == rest[0] + [sep] + Join(rest[1..], [sep]);
          assert s == [s[0]] + s[1..];
        }
      }
    }
  }

  /** Length of the leading run of non-space characters. */
  function WordLength(s: string): (n: nat)
    ensures n <= |s|
    ensures forall i :: 0 <= i < n ==> !IsSpace(s[i])
    ensures n == |s| || IsSpace(s[n])
  {
    if s == [] || IsSpace(s[0]) then 0 else 1 + WordLength(s[1..])
  }

  /** `s.split()`: the maximal runs of non-space characters. */
  function Words(s: string): (r: seq<string>)
    ensures forall k :: 0 <= k < |r| ==> r[k] != []
    decreases |s|
  {
    if s == [] then []
    else if IsSpace(s[0]) then Words(s[1..])
    else
      var n := WordLength(s);
      [s[..n]] + Words(s[n..])
  }

  /** The characters Python's `str.splitlines` treats as line boundaries. */
  predicate IsLineBreak(c: char)
  {
    c == '\n' || c == '\r' || c == '\U{0B}' || c == '\U{0C}' || c == '\U{1C}' || c == '\U{1D}'
    || c == '\U{1E}' || c == '\U{85}' || c == '\U{2028}' || c == '\U{2029}'
  }

  function LineLength(s: string): (n: nat)
    ensures n <= |s|
    ensures forall i :: 0 <= i < n ==> !IsLineBreak(s[i])
    ensures n == |s| || IsLineBreak(s[n])
  {
    if s == [] || IsLineBreak(s[0]) then 0 else 1 + LineLength(s[1..])
  }

  /** `s.splitlines()`: "\r\n" counts as one boundary and no empty last line is produced. */
  function SplitLines(s: string): (r: seq<string>)
    ensures forall k :: 0 <= k < |r| ==> forall i :: 0 <= i < |r[k]| ==> !IsLineBreak(r[k][i])
    decreases |s|
  {
    if s == [] then []
    else
      var n := LineLength(s);
      if n == |s| then [s]
      else
        var skip := if s[n] == '\r' && n + 1 < |s| && s[n + 1] == '\n' then 2 else 1;
        [s[..n]] + SplitLines(s[n + skip..])
  }

  /** `s.replace(pat, rep)`: non-overlapping occurrences, left to right. */
  function Replace(s: string, pat: string, rep: string): string
    requires pat != []
    decreases |s|
  {
    if |s| < |pat| then s
    else if s[..|pat|] == pat then rep + Replace(s[|pat|..], pat, rep)
    else [s[0]] + Replace(s[1..], pat, rep)
  }

  /** Replacing a pattern that does not occur changes nothing. */
  lemma {:induction false} ReplaceAbsent(s: string, pat: string, rep: string)
    requires pat != []
    requires !Contains(s, pat)
    ensures Replace(s, pat, rep) == s
    decreases |s|
  {
    if |s| >= |pat| {
      assert !StartsWith(s, pat);
      ReplaceAbsent(s[1..], pat, rep);
    }
  }

  /** `s.split(pat)` for a non-empty pattern: the text between non-overlapping occurrences. */
  function SplitStr(s: string, pat: string): (r: seq<string>)
    requires pat != []
    ensures |r| >= 1
    decreases |s|
  {
    if |s| < |pat| then [s]
    else if s[..|pat|] == pat then [""] + SplitStr(s[|pat|..], pat)
    else
      var rest := SplitStr(s[1..], pat);
      [[s[0]] + rest[0]] + rest[1..]
  }

  /** The first piece of a split is a prefix of the text. */
  lemma {:induction false} SplitStrFirstIsPrefix(s: string, pat: string)
    requires pat != []
    ensures SplitStr(s, pat)[0] <= s
    decreases |s|
  {
    if |s| >= |pat| && s[..|pat|] != pat {
      SplitStrFirstIsPrefix(s[1..], pat);
    }
  }

  /** Joining the pieces with the pattern gives back the text. */
  lemma {:induction false} SplitStrJoin(s: string, pat: string)
    requires pat != []
    ensures Join(SplitStr(s, pat), pat) == s
    decreases |s|
  {
    if |s| < |pat| {
    } else if s[..|pat|] == pat {
      SplitStrJoin(s[|pat|..], pat);
      SplitJoinAtPattern(s, pat);
    } else {
      SplitStrJoin(s[1..], pat);
      SplitJoinAtChar(s, pat);
    }
  }

  /** The step of `SplitStrJoin` where the text starts with the pattern. */
  lemma SplitJoinAtPattern(s: string, pat: string)
    requires pat != [] && |s| >= |pat| && s[..|pat|] == pat
    requires Join(SplitStr(s[|pat|..], pat), pat) == s[|pat|..]
    ensures Join(SplitStr(s, pat), pat) == s
  {
    var rest := s[|pat|..];
    JoinEmptyFirst(SplitStr(rest, pat), pat);
    SliceSplit(s, |pat|);
    calc {
      Join(SplitStr(s, pat), pat);
      Join([""] + SplitStr(rest, pat), pat);
      pat + Join(SplitStr(rest, pat), pat);
      s[..|pat|] + rest;
    }
  }

  lemma SliceSplit(s: string, k: nat)
    requires k <= |s|
    ensures s[..k] + s[k..] == s
  {
  }

  /** The step of `SplitStrJoin` where the first character joins the first piece. */
  lemma SplitJoinAtChar(s: string, pat: string)
    requires pat != [] && |s| >= |pat| && s[..|pat|] != pat
    requires Join(SplitStr(s[1..], pat), pat) == s[1..]
    ensures Join(SplitStr(s, pat), pat) == s
  {
    JoinExtendFirst(s[0], SplitStr(s[1..], pat), pat);
    assert s == [s[0]] + s[1..];
  }

  /** An empty first part leaves just the separator in front. */
  lemma JoinEmptyFirst(parts: seq<string>, sep: string)
    requires parts != []
    ensures Join([""] + parts, sep) == sep + Join(parts, sep)
  {
    assert ([""] + parts)[1..] == parts;
  }

  /** Putting a character in front of the first part puts it in front of the joined text. */
  lemma JoinExtendFirst(c: char, parts: seq<string>, sep: string)
    requires parts != []
    ensures Join([[c] + parts[0]] + parts[1..], sep) == [c] + Join(parts, sep)
  {
    var q := [[c] + parts[0]] + parts[1..];
    if |parts| > 1 {
      assert q[1..] == parts[1..];
    }
  }

  /** No piece of a split contains the pattern. */
  lemma {:induction false} SplitStrPiecesFree(s: string, pat: string)
    requires pat != []
    ensures forall k :: 0 <= k < |SplitStr(s, pat)| ==> !Contains(SplitStr(s, pat)[k], pat)
    decreases |s|
  {
    var r := SplitStr(s, pat);
    if |s| < |pat| {
      ContainsIff(s, pat);
    } else if s[..|pat|] == pat {
      SplitStrPiecesFree(s[|pat|..], pat);
      ContainsIff("", pat);
      assert forall k :: 1 <= k < |r| ==> r[k] == SplitStr(s[|pat|..], pat)[k - 1];
    } else {
      SplitStrPiecesFree(s[1..], pat);
      var rest := SplitStr(s[1..], pat);
      assert forall k :: 1 <= k < |r| ==> r[k] == rest[k];
      HeadPieceFree(s, pat);
    }
  }

  /** The first piece of a split that does not start at the pattern holds no occurrence of it. */
  lemma HeadPieceFree(s: string, pat: string)
    requires pat != [] && |s| >= |pat| && s[..|pat|] != pat
    requires forall k :: 0 <= k < |SplitStr(s[1..], pat)| ==> !Contains(SplitStr(s[1..], pat)[k], pat)
    ensures !Contains([s[0]] + SplitStr(s[1..], pat)[0], pat)
  {
    var rest := SplitStr(s[1..], pat);
    var head := [s[0]] + rest[0];
    SplitStrFirstIsPrefix(s[1..], pat);
    assert head <= s;
    ContainsIff(rest[0], pat);
    forall i | 0 <= i
      ensures !OccursAt(head, pat, i)
    {
      if i == 0 {
        if |pat| <= |head| {
          assert head[..|pat|] == s[..|pat|];
        }
      } else if i + |pat| <= |head| {
        assert head[i..i + |pat|] == rest[0][i - 1..i - 1 + |pat|];
        assert !OccursAt(rest[0], pat, i - 1);
      }
    }
    ContainsIff(head, pat);
  }

  /** `replace` puts the replacement exactly where `split` cuts. */
  lemma {:induction false} ReplaceIsSplitJoin(s: string, pat: string, rep: string)
    requires pat != []
    ensures Replace(s, pat, rep) == Join(SplitStr(s, pat), rep)
    decreases |s|
  {
    if |s| < |pat| {
    } else if s[..|pat|] == pat {
      ReplaceIsSplitJoin(s[|pat|..], pat, rep);
    } else {
      ReplaceIsSplitJoin(s[1..], pat, rep);
      var rest := SplitStr(s[1..], pat);
      if |rest| > 1 {
        assert ([[s[0]] + rest[0]] + rest[1..])[1..] == rest[1..];
      }
    }
  }

  /** Decimal digits of a natural number, as `str(n)` writes them. */
  function NatToString(n: nat): (r: string)
    ensures |r| >= 1
    ensures forall i :: 0 <= i < |r| ==> '0' <= r[i] <= '9'
    decreases n
  {
    if n < 10 then [Digit(n)] else NatToString(n / 10) + [Digit(n % 10)]
  }

  function Digit(d: nat): (c: char)
    requires d < 10
    ensures '0' <= c <= '9'
  {
    ('0' as int + d) as char
  }

  /** `str(i)` for an int. */
  function IntToString(i: int): string
  {
    if i < 0 then "-" + NatToString(-i) else NatToString(i)
  }
}
