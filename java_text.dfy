/**
 * The few `java.lang.String` operations the notification encoder relies on,
 * over strings of characters: `replace` of one character, the
 * `replaceAll("[^\\p{ASCII}]", "")` filter and `contains`, together with a
 * splitter on a separator character that reads a record back into fields.
 */
module JavaText {

  /** A character in the ASCII range, code point below 128. */
  predicate IsAscii(c: char) {
    c as int < 128
  }

  predicate AllAscii(s: string) {
    forall i | 0 <= i < |s| :: IsAscii(s[i])
  }

  /** `r` is obtained from `s` by deleting characters, keeping the order of the rest. */
  ghost predicate IsSubsequence(r: string, s: string)
    decreases |s|
  {
    if r == [] then true
    else if s == [] then false
    else if r[0] == s[0] then IsSubsequence(r[1..], s[1..])
    else IsSubsequence(r, s[1..])
  }

  /** `s.replace("c", "")`: every occurrence of `c` deleted, everything else kept in order. */
  function DeleteAll(s: string, c: char): (r: string)
    ensures c !in r
    ensures |r| <= |s|
    ensures c !in s ==> r == s
  {
    if s == [] then []
    else if s[0] == c then DeleteAll(s[1..], c)
    else [s[0]] + DeleteAll(s[1..], c)
  }

  /** `s.replace("from", "to")` for one-character strings: same length, position by position. */
  function ReplaceAll(s: string, from: char, to: char): (r: string)
    ensures |r| == |s|
    ensures forall i | 0 <= i < |s| :: r[i] == (if s[i] == from then to else s[i])
    ensures from != to ==> from !in r
  {
    if s == [] then []
    else [if s[0] == from then to else s[0]] + ReplaceAll(s[1..], from, to)
  }

  /** `s.replaceAll("[^\\p{ASCII}]", "")`: every non-ASCII character removed. */
  function AsciiFilter(s: string): (r: string)
    ensures AllAscii(r)
    ensures |r| <= |s|
    ensures AllAscii(s) ==> r == s
  {
    if s == [] then []
    else if IsAscii(s[0]) then [s[0]] + AsciiFilter(s[1..])
    else AsciiFilter(s[1..])
  }

  /** Deleting `c` removes exactly the occurrences of `c`: every other character stays. */
  lemma {:induction false} DeleteAllMembers(s: string, c: char, x: char)
    ensures x in DeleteAll(s, c) <==> x in s && x != c
  {
    if s != [] {
      DeleteAllMembers(s[1..], c, x);
      assert x in s <==> x == s[0] || x in s[1..];
    }
  }

  /** Deletion works character by character, so it distributes over concatenation. */
  lemma {:induction false} DeleteAllConcat(a: string, b: string, c: char)
    ensures DeleteAll(a + b, c) == DeleteAll(a, c) + DeleteAll(b, c)
  {
    if a == [] {
      assert a + b == b;
    } else {
      assert (a + b)[1..] == a[1..] + b;
      DeleteAllConcat(a[1..], b, c);
    }
  }

  /** On one character: the deleted character goes, any other stays. */
  lemma DeleteAllChar(x: char, c: char)
    ensures DeleteAll([x], c) == if x == c then [] else [x]
  {
    assert [x][1..] == [];
  }

  /** Replacement works position by position, so it distributes over concatenation. */
  lemma {:induction false} ReplaceAllConcat(a: string, b: string, from: char, to: char)
    ensures ReplaceAll(a + b, from, to) == ReplaceAll(a, from, to) + ReplaceAll(b, from, to)
  {
    if a == [] {
      assert a + b == b;
    } else {
      assert (a + b)[1..] == a[1..] + b;
      ReplaceAllConcat(a[1..], b, from, to);
    }
  }

  /** Deleting keeps the order of what is left. */
  lemma {:induction false} DeleteAllIsSubsequence(s: string, c: char)
    ensures IsSubsequence(DeleteAll(s, c), s)
  {
    if s != [] {
      DeleteAllIsSubsequence(s[1..], c);
      if s[0] != c {
        assert ([s[0]] + DeleteAll(s[1..], c))[1..] == DeleteAll(s[1..], c);
      } else {
        SubsequenceOfTail(DeleteAll(s[1..], c), s);
      }
    }
  }

  /** A subsequence of the tail is a subsequence of the whole. */
  lemma {:induction false} SubsequenceOfTail(r: string, s: string)
    requires s != [] && IsSubsequence(r, s[1..])
    ensures IsSubsequence(r, s)
    decreases |s|, 1
  {
    if r != [] && r[0] == s[0] {
      // Matching r[0] against s[0] leaves r[1..], a subsequence of s[1..] too.
      TailOfSubsequence(r, s[1..]);
    }
  }

  /** Dropping the head of a subsequence leaves a subsequence. */
  lemma {:induction false} TailOfSubsequence(r: string, s: string)
    requires r != [] && IsSubsequence(r, s)
    ensures IsSubsequence(r[1..], s)
    decreases |s|, 2
  {
    if s != [] {
      if r[0] == s[0] {
        if r[1..] != [] {
          SubsequenceOfTail(r[1..], s);
        }
      } else {
        TailOfSubsequence(r, s[1..]);
        if r[1..] != [] {
          SubsequenceOfTail(r[1..], s);
        }
      }
    }
  }

  /** The filter removes characters and never reorders the ones it keeps. */
  lemma {:induction false} AsciiFilterIsSubsequence(s: string)
    ensures IsSubsequence(AsciiFilter(s), s)
  {
    if s != [] {
      AsciiFilterIsSubsequence(s[1..]);
      if IsAscii(s[0]) {
        assert ([s[0]] + AsciiFilter(s[1..]))[1..] == AsciiFilter(s[1..]);
      } else {
        SubsequenceOfTail(AsciiFilter(s[1..]), s);
      }
    }
  }

  /** The filter removes exactly the non-ASCII characters: it adds none and keeps every ASCII one. */
  lemma {:induction false} AsciiFilterMembers(s: string, c: char)
    ensures c in AsciiFilter(s) <==> c in s && IsAscii(c)
  {
    if s != [] {
      AsciiFilterMembers(s[1..], c);
      assert c in s <==> c == s[0] || c in s[1..];
    }
  }

  /** The filter works character by character, so it distributes over concatenation. */
  lemma {:induction false} AsciiFilterConcat(a: string, b: string)
    ensures AsciiFilter(a + b) == AsciiFilter(a) + AsciiFilter(b)
  {
    if a == [] {
      assert a + b == b;
    } else {
      assert (a + b)[1..] == a[1..] + b;
      AsciiFilterConcat(a[1..], b);
    }
  }

  /** An ASCII occurrence survives the filter: the characters around it may go, it stays contiguous. */
  lemma AsciiFilterKeepsOccurrence(s: string, m: string)
    requires AllAscii(m) && Contains(s, m)
    ensures Contains(AsciiFilter(s), m)
  {
    var i :| 0 <= i <= |s| - |m| && OccursAt(s, m, i);
    var pre, post := s[..i], s[i + |m|..];
    assert s == pre + m + post;
    AsciiFilterConcat(pre + m, post);
    AsciiFilterConcat(pre, m);
    ContainsInConcat(AsciiFilter(pre), m, m) by {
      assert OccursAt(m, m, 0);
    }
    ContainsInConcat(AsciiFilter(pre) + m, AsciiFilter(post), m);
  }

  /** `m` occurs in `s` starting at index `i`. */
  predicate OccursAt(s: string, m: string, i: int) {
    0 <= i && i + |m| <= |s| && s[i..i + |m|] == m
  }

  /** `s.contains(m)`: never for a longer `m`; always for `s` itself. */
  predicate Contains(s: string, m: string)
    ensures |m| > |s| ==> !Contains(s, m)
    ensures s == m ==> Contains(s, m)
  {
    assert s == m ==> OccursAt(s, m, 0);
    exists i | 0 <= i <= |s| - |m| :: OccursAt(s, m, i)
  }

  /** An occurrence inside `a` or `b` is an occurrence inside `a + b`. */
  lemma ContainsInConcat(a: string, b: string, m: string)
    requires Contains(a, m) || Contains(b, m)
    ensures Contains(a + b, m)
  {
    if Contains(a, m) {
      var i :| 0 <= i <= |a| - |m| && OccursAt(a, m, i);
      assert (a + b)[i..i + |m|] == a[i..i + |m|];
      assert OccursAt(a + b, m, i);
    } else {
      var i :| 0 <= i <= |b| - |m| && OccursAt(b, m, i);
      assert (a + b)[|a| + i..|a| + i + |m|] == b[i..i + |m|];
      assert OccursAt(a + b, m, |a| + i);
    }
  }

  /**
   * Appending a character that `m` does not end with cannot create an
   * occurrence of `m` (`m` non-empty).
   */
  lemma ContainsAppendChar(s: string, c: char, m: string)
    requires |m| > 0 && m[|m| - 1] != c
    ensures Contains(s + [c], m) <==> Contains(s, m)
  {
    if Contains(s + [c], m) {
      var i :| 0 <= i <= |s| + 1 - |m| && OccursAt(s + [c], m, i);
      if i + |m| == |s| + 1 {
        assert false;
      }
      assert s[i..i + |m|] == (s + [c])[i..i + |m|];
      assert OccursAt(s, m, i);
    }
    if Contains(s, m) {
      ContainsInConcat(s, [c], m);
    }
  }

  /**
   * Splits `s` at every `sep`: `n` separators give `n + 1` fields (the
   * reading a positional consumer of a `sep`-delimited record makes).
   */
  function Split(s: string, sep: char): (fields: seq<string>)
    ensures |fields| >= 1
  {
    if s == [] then [""]
    else if s[0] == sep then [""] + Split(s[1..], sep)
    else
      var rest := Split(s[1..], sep);
      [[s[0]] + rest[0]] + rest[1..]
  }

  /** A string without the separator is a single field. */
  lemma {:induction false} SplitNoSeparator(a: string, sep: char)
    requires sep !in a
    ensures Split(a, sep) == [a]
  {
    if a != [] {
      SplitNoSeparator(a[1..], sep);
      assert [a[0]] + a[1..] == a;
    }
  }

  /** A separator-free prefix followed by the separator is exactly the first field. */
  lemma {:induction false} SplitField(a: string, sep: char, b: string)
    requires sep !in a
    ensures Split(a + [sep] + b, sep) == [a] + Split(b, sep)
  {
    if a == [] {
      assert (a + [sep] + b)[1..] == b;
    } else {
      assert (a + [sep] + b)[1..] == a[1..] + [sep] + b;
      SplitField(a[1..], sep, b);
      assert [a[0]] + a[1..] == a;
    }
  }
}
