/** The three pieces of Ruby's String behaviour that the controller relies on:
    the `<=>` comparison, `downcase`, and `split` on the literal "--". */
module RubyString {

  /** Ruby's `String#<=>`: lexicographic by character, a proper prefix sorts first.
      Comparing code points gives the same order as Ruby's byte-wise comparison of UTF-8. */
  function Cmp(a: string, b: string): (r: int)
    ensures -1 <= r <= 1
    ensures r == 0 <==> a == b
  {
    if a == [] && b == [] then 0
    else if a == [] then -1
    else if b == [] then 1
    else if a[0] < b[0] then -1
    else if a[0] > b[0] then 1
    else Cmp(a[1..], b[1..])
  }

  /** Swapping the operands of `<=>` negates the answer. */
  lemma {:induction false} CmpAntisymmetric(a: string, b: string)
    ensures Cmp(a, b) == -Cmp(b, a)
  {
    if a != [] && b != [] && a[0] == b[0] {
      CmpAntisymmetric(a[1..], b[1..]);
    }
  }

  /** "Not after" is transitive, so `<=>` is a total preorder a sort can use. */
  lemma {:induction false} CmpTransitive(a: string, b: string, c: string)
    requires Cmp(a, b) <= 0 && Cmp(b, c) <= 0
    ensures Cmp(a, c) <= 0
  {
    if a != [] && b != [] && c != [] && a[0] == b[0] && b[0] == c[0] {
      CmpTransitive(a[1..], b[1..], c[1..]);
    }
  }

  /** A proper prefix sorts before the longer string. */
  lemma {:induction false} CmpProperPrefix(a: string, b: string)
    requires |a| < |b| && a == b[..|a|]
    ensures Cmp(a, b) == -1
  {
    if a != [] {
      assert a[1..] == b[1..][..|a[1..]|];
      CmpProperPrefix(a[1..], b[1..]);
    }
  }

  /** Past a common prefix, the first differing character decides the order. */
  lemma {:induction false} CmpFirstDifference(a: string, b: string, k: nat)
    requires k < |a| && k < |b| && a[..k] == b[..k] && a[k] != b[k]
    ensures Cmp(a, b) == (if a[k] < b[k] then -1 else 1)
  {
    if k > 0 {
      assert a[0] == a[..k][0] && b[0] == b[..k][0];
      assert a[1..][..k - 1] == a[..k][1..] && b[1..][..k - 1] == b[..k][1..];
      CmpFirstDifference(a[1..], b[1..], k - 1);
    }
  }

  function DowncaseChar(c: char): char {
    if 'A' <= c <= 'Z' then (c as int + 32) as char else c
  }

  /** `String#downcase`, for the ASCII letters. */
  function Downcase(s: string): (r: string)
    ensures |r| == |s|
    ensures forall i :: 0 <= i < |s| ==> r[i] == DowncaseChar(s[i])
    ensures forall i :: 0 <= i < |r| ==> !('A' <= r[i] <= 'Z')
  {
    if s == [] then [] else [DowncaseChar(s[0])] + Downcase(s[1..])
  }

  /** `c` and `d` are the same character, or the same ASCII letter in two cases. */
  predicate SameLetterIgnoringCase(c: char, d: char) {
    || c == d
    || ('A' <= c <= 'Z' && d as int == c as int + 32)
    || ('A' <= d <= 'Z' && c as int == d as int + 32)
  }

  /** `s` and `t` differ at most in the case of ASCII letters. */
  predicate EqualIgnoringAsciiCase(s: string, t: string) {
    |s| == |t| && forall i :: 0 <= i < |s| ==> SameLetterIgnoringCase(s[i], t[i])
  }

  /** Two characters downcase alike exactly when they differ at most in ASCII case. */
  lemma DowncaseCharAlike(c: char, d: char)
    ensures DowncaseChar(c) == DowncaseChar(d) <==> SameLetterIgnoringCase(c, d)
  {
    if 'A' <= c <= 'Z' {
      assert DowncaseChar(c) as int == c as int + 32;
    }
    if 'A' <= d <= 'Z' {
      assert DowncaseChar(d) as int == d as int + 32;
    }
  }

  /** Two strings of a length have the same downcased form exactly when they differ
      at most in the case of ASCII letters. */
  lemma DowncaseIgnoresCase(s: string, t: string)
    requires |s| == |t|
    ensures Downcase(s) == Downcase(t) <==> EqualIgnoringAsciiCase(s, t)
  {
    forall i | 0 <= i < |s| {
      DowncaseCharAlike(s[i], t[i]);
    }
    if EqualIgnoringAsciiCase(s, t) {
      assert forall i :: 0 <= i < |s| ==> Downcase(s)[i] == Downcase(t)[i];
    } else {
      var i :| 0 <= i < |s| && !SameLetterIgnoringCase(s[i], t[i]);
      assert Downcase(s)[i] != Downcase(t)[i];
    }
  }

  /** The separator used by `subject.split('--')`. */
  const Delimiter: string := "--"

  /** `p` does not contain the separator anywhere. */
  predicate NoDelimiter(p: string) {
    forall i :: 0 <= i < |p| - 1 ==> !(p[i] == '-' && p[i + 1] == '-')
  }

  /** Pieces glued back together with the separator between them. */
  function Join(parts: seq<string>): string {
    if |parts| == 0 then ""
    else if |parts| == 1 then parts[0]
    else parts[0] + Delimiter + Join(parts[1..])
  }

  /** Cutting at every leftmost occurrence of "--", keeping every piece (even empty ones). */
  function SplitAll(s: string): (r: seq<string>)
    ensures |r| >= 1
    decreases |s|
  {
    if |s| < 2 then [s]
    else if s[0] == '-' && s[1] == '-' then [""] + SplitAll(s[2..])
    else
      var rest := SplitAll(s[1..]);
      [[s[0]] + rest[0]] + rest[1..]
  }

  /** Ruby's `split` removes the empty strings at the end of the result. */
  function TrimTrailingEmpty(parts: seq<string>): (r: seq<string>)
    ensures |r| <= |parts| && r == parts[..|r|]
    ensures forall i :: |r| <= i < |parts| ==> parts[i] == ""
    ensures r == [] || r[|r| - 1] != ""
  {
    if parts == [] || parts[|parts| - 1] != "" then parts
    else TrimTrailingEmpty(parts[..|parts| - 1])
  }

  /** `String#split("--")`. */
  function Split(s: string): (r: seq<string>)
    ensures |r| <= |SplitAll(s)| && r == SplitAll(s)[..|r|]
    ensures forall i :: |r| <= i < |SplitAll(s)| ==> SplitAll(s)[i] == ""
    ensures r == [] || r[|r| - 1] != ""
  {
    TrimTrailingEmpty(SplitAll(s))
  }

  /** The shape every result of SplitAll has: no piece holds the separator and,
      because each cut is at the LEFTMOST "--", no piece before a cut ends in '-'. */
  predicate Pieces(parts: seq<string>) {
    && |parts| >= 1
    && (forall i :: 0 <= i < |parts| ==> NoDelimiter(parts[i]))
    && (forall i :: 0 <= i < |parts| - 1 ==> parts[i] == [] || parts[i][|parts[i]| - 1] != '-')
  }

  /** The first piece is where the string starts. */
  lemma {:induction false} SplitAllHeadIsPrefix(s: string)
    ensures |SplitAll(s)[0]| <= |s| && SplitAll(s)[0] == s[..|SplitAll(s)[0]|]
    decreases |s|
  {
    if |s| >= 2 {
      if s[0] == '-' && s[1] == '-' {
      } else {
        SplitAllHeadIsPrefix(s[1..]);
      }
    }
  }

  /** Gluing the pieces back together gives the original string. */
  lemma {:induction false} JoinSplitAll(s: string)
    ensures Join(SplitAll(s)) == s
    decreases |s|
  {
    if |s| >= 2 {
      if s[0] == '-' && s[1] == '-' {
        JoinSplitAll(s[2..]);
        var rest := SplitAll(s[2..]);
        assert SplitAll(s) == [""] + rest;
        if |rest| == 1 {
          assert Join(SplitAll(s)) == "" + Delimiter + rest[0];
        } else {
          assert ([""] + rest)[1..] == rest;
        }
      } else {
        JoinSplitAll(s[1..]);
        var rest := SplitAll(s[1..]);
        var head := [s[0]] + rest[0];
        assert SplitAll(s) == [head] + rest[1..];
        if |rest| == 1 {
          assert Join(SplitAll(s)) == head;
        } else {
          assert ([head] + rest[1..])[1..] == rest[1..];
          assert Join(rest) == rest[0] + Delimiter + Join(rest[1..]);
        }
      }
    }
  }

  /** Every result of SplitAll has the Pieces shape. */
  lemma {:induction false} SplitAllPieces(s: string)
    ensures Pieces(SplitAll(s))
    decreases |s|
  {
    if |s| >= 2 {
      if s[0] == '-' && s[1] == '-' {
        SplitAllPieces(s[2..]);
        var rest := SplitAll(s[2..]);
        assert SplitAll(s) == [""] + rest;
        forall i | 0 <= i < |SplitAll(s)| ensures NoDelimiter(SplitAll(s)[i]) {
          if i > 0 { assert SplitAll(s)[i] == rest[i - 1]; }
        }
      } else {
        SplitAllPieces(s[1..]);
        SplitAllHeadIsPrefix(s[1..]);
        var rest := SplitAll(s[1..]);
        var head := [s[0]] + rest[0];
        assert SplitAll(s) == [head] + rest[1..];
        assert NoDelimiter(head) by {
          forall i | 0 <= i < |head| - 1 ensures !(head[i] == '-' && head[i + 1] == '-') {
            if i > 0 { assert head[i] == rest[0][i - 1] && head[i + 1] == rest[0][i]; }
            else { assert head[1] == s[1]; }
          }
        }
        forall i | 0 <= i < |SplitAll(s)| - 1
          ensures SplitAll(s)[i] == [] || SplitAll(s)[i][|SplitAll(s)[i]| - 1] != '-'
        {
          if i == 0 {
            if |rest[0]| == 0 {
              assert |rest| >= 2;
              assert s[1..][0] == '-' && s[1..][1] == '-';
            }
          } else {
            assert SplitAll(s)[i] == rest[i];
          }
        }
      }
    }
  }

  /** A piece with no separator in it is split into itself alone. */
  lemma {:induction false} SplitAllOfPiece(p: string)
    requires NoDelimiter(p)
    ensures SplitAll(p) == [p]
    decreases |p|
  {
    if |p| >= 2 {
      assert NoDelimiter(p[1..]) by {
        forall i | 0 <= i < |p[1..]| - 1 ensures !(p[1..][i] == '-' && p[1..][i + 1] == '-') {
          assert p[1..][i] == p[i + 1] && p[1..][i + 1] == p[i + 2];
        }
      }
      SplitAllOfPiece(p[1..]);
      assert [p[0]] + p[1..] == p;
    }
  }

  /** The first cut falls right after a leading piece that has the Pieces shape. */
  lemma {:induction false} SplitAllAfterPiece(p: string, t: string)
    requires NoDelimiter(p)
    requires p == [] || p[|p| - 1] != '-'
    ensures SplitAll(p + Delimiter + t) == [p] + SplitAll(t)
    decreases |p|
  {
    var s := p + Delimiter + t;
    if p == [] {
      assert s[2..] == t;
    } else {
      var p' := p[1..];
      assert NoDelimiter(p') by {
        forall i | 0 <= i < |p'| - 1 ensures !(p'[i] == '-' && p'[i + 1] == '-') {
          assert p'[i] == p[i + 1] && p'[i + 1] == p[i + 2];
        }
      }
      assert s[1..] == p' + Delimiter + t;
      assert !(s[0] == '-' && s[1] == '-') by {
        if |p'| == 0 { assert s[0] == p[0] && p[|p| - 1] == p[0]; }
        else { assert s[0] == p[0] && s[1] == p[1]; }
      }
      SplitAllAfterPiece(p', t);
      assert [p[0]] + p' == p;
    }
  }

  /** SplitAll undoes Join on every sequence of pieces: with JoinSplitAll, the two are inverse. */
  lemma {:induction false} SplitAllJoin(parts: seq<string>)
    requires Pieces(parts)
    ensures SplitAll(Join(parts)) == parts
    decreases |parts|
  {
    if |parts| == 1 {
      SplitAllOfPiece(parts[0]);
    } else {
      var rest := parts[1..];
      assert Pieces(rest) by {
        forall i | 0 <= i < |rest| ensures NoDelimiter(rest[i]) { assert rest[i] == parts[i + 1]; }
        forall i | 0 <= i < |rest| - 1 ensures rest[i] == [] || rest[i][|rest[i]| - 1] != '-' {
          assert rest[i] == parts[i + 1];
        }
      }
      SplitAllJoin(rest);
      SplitAllAfterPiece(parts[0], Join(rest));
      assert [parts[0]] + rest == parts;
    }
  }

  /** `"Fiction--Mystery".split('--')` is `["Fiction", "Mystery"]`. */
  lemma SplitFictionMystery()
    ensures Split("Fiction--Mystery") == ["Fiction", "Mystery"]
  {
    var parts := ["Fiction", "Mystery"];
    assert Join(parts) == "Fiction--Mystery";
    SplitAllJoin(parts);
  }

  /** `"A--B--C".split('--')` is `["A", "B", "C"]`. */
  lemma SplitThreeLevels()
    ensures Split("A--B--C") == ["A", "B", "C"]
  {
    var parts := ["A", "B", "C"];
    assert Join(parts) == "A--B--C";
    SplitAllJoin(parts);
  }

  /** What `split('--')` returns: pieces free of the separator which, together with the
      empty pieces Ruby drops from the end, glue back to the original string. */
  lemma SplitMeaning(s: string)
    ensures forall i :: 0 <= i < |Split(s)| ==> NoDelimiter(Split(s)[i])
    ensures Join(Split(s) + SplitAll(s)[|Split(s)|..]) == s
    ensures forall i :: |Split(s)| <= i < |SplitAll(s)| ==> SplitAll(s)[i] == ""
  {
    SplitAllPieces(s);
    JoinSplitAll(s);
    assert Split(s) + SplitAll(s)[|Split(s)|..] == SplitAll(s);
  }
}
