/** Python's `str.strip()` and `str.split(sep)` for a non-empty separator, and the `sep.join` that
    undoes the split. Strings are sequences of Unicode scalar values, as Python's are of code points. */
module PyStr {

  /** `str.isspace()` of a single character: the characters whose Unicode bidirectional class is
      WS, B or S, or whose general category is Zs. */
  predicate IsSpace(c: char)
  {
    var n := c as int;
    (0x09 <= n <= 0x0D) || (0x1C <= n <= 0x20) || n == 0x85 || n == 0xA0 || n == 0x1680
    || (0x2000 <= n <= 0x200A) || n == 0x2028 || n == 0x2029 || n == 0x202F || n == 0x205F
    || n == 0x3000
  }

  predicate AllSpace(s: string)
  {
    forall i :: 0 <= i < |s| ==> IsSpace(s[i])
  }

  /** `str.lstrip()`: the suffix left after dropping the leading whitespace. */
  function LStrip(s: string): (r: string)
    ensures |r| <= |s| && r == s[|s| - |r|..]
    ensures AllSpace(s[..|s| - |r|])
    ensures r == [] || !IsSpace(r[0])
  {
    if s != [] && IsSpace(s[0]) then LStrip(s[1..]) else s
  }

  /** `str.rstrip()`: the prefix left after dropping the trailing whitespace. */
  function RStrip(s: string): (r: string)
    ensures |r| <= |s| && r == s[..|r|]
    ensures AllSpace(s[|r|..])
    ensures r == [] || !IsSpace(r[|r| - 1])
  {
    if s != [] && IsSpace(s[|s| - 1]) then RStrip(s[..|s| - 1]) else s
  }

  /** r is s[i..i + |r|], and everything before and after that slice is whitespace. */
  predicate StripsTo(s: string, r: string, i: int)
  {
    0 <= i <= |s| - |r| && r == s[i..i + |r|] && AllSpace(s[..i]) && AllSpace(s[i + |r|..])
  }

  /** `str.strip()`: s with whitespace removed at both ends. The result is a slice of s, everything
      left out is whitespace, and the result neither begins nor ends with whitespace. */
  function Strip(s: string): (r: string)
    ensures exists i :: StripsTo(s, r, i)
    ensures r == [] || (!IsSpace(r[0]) && !IsSpace(r[|r| - 1]))
  {
    var r := RStrip(LStrip(s));
    StripWitness(s);
    assert StripsTo(s, r, |s| - |LStrip(s)|);
    r
  }

  lemma StripWitness(s: string)
    ensures StripsTo(s, RStrip(LStrip(s)), |s| - |LStrip(s)|)
    ensures var r := RStrip(LStrip(s)); r == [] || (!IsSpace(r[0]) && !IsSpace(r[|r| - 1]))
  {
    var l := LStrip(s);
    var r := RStrip(l);
    var i := |s| - |l|;
    assert r == l[..|r|];
    assert r == s[i..i + |r|];
    assert s[i + |r|..] == l[|r|..];
    assert StripsTo(s, r, i);
    if r != [] {
      assert r[0] == l[0];
    }
  }

  /** Whether sep occurs in s starting at index i. */
  predicate OccursAt(s: string, sep: string, i: nat)
  {
    i + |sep| <= |s| && s[i..i + |sep|] == sep
  }

  predicate Contains(s: string, sep: string)
  {
    exists i :: 0 <= i <= |s| && OccursAt(s, sep, i)
  }

  /** `s.split(sep)`: cut s at every leftmost, non-overlapping occurrence of sep. */
  function Split(s: string, sep: string): (pieces: seq<string>)
    requires |sep| > 0
    ensures |pieces| >= 1
    decreases |s|
  {
    if |s| < |sep| then [s]
    else if s[..|sep|] == sep then [""] + Split(s[|sep|..], sep)
    else
      var rest := Split(s[1..], sep);
      [[s[0]] + rest[0]] + rest[1..]
  }

  /** `sep.join(pieces)`. */
  function Join(pieces: seq<string>, sep: string): string
  {
    if pieces == [] then ""
    else if |pieces| == 1 then pieces[0]
    else pieces[0] + sep + Join(pieces[1..], sep)
  }

  /** The first piece of a split is a prefix of the string. */
  lemma {:induction false} FirstPieceIsPrefix(s: string, sep: string)
    requires |sep| > 0
    ensures |Split(s, sep)[0]| <= |s| && Split(s, sep)[0] == s[..|Split(s, sep)[0]|]
    decreases |s|
  {
    if |s| >= |sep| && s[..|sep|] != sep {
      FirstPieceIsPrefix(s[1..], sep);
    }
  }

  /** Putting a character in front of the first piece puts it in front of the joined string. */
  lemma JoinConsFirst(c: char, pieces: seq<string>, sep: string)
    requires |pieces| >= 1
    ensures Join([[c] + pieces[0]] + pieces[1..], sep) == [c] + Join(pieces, sep)
  {
    var ps := [[c] + pieces[0]] + pieces[1..];
    if |pieces| > 1 {
      assert ps[1..] == pieces[1..];
    }
  }

  /** Join undoes Split: joining the pieces with the separator gives the string back. */
  lemma {:induction false} JoinSplit(s: string, sep: string)
    requires |sep| > 0
    ensures Join(Split(s, sep), sep) == s
    decreases |s|
  {
    if |s| < |sep| {
    } else if s[..|sep|] == sep {
      JoinSplit(s[|sep|..], sep);
      var rest := Split(s[|sep|..], sep);
      assert Split(s, sep) == [""] + rest;
      assert ([""] + rest)[1..] == rest;
      assert s == sep + s[|sep|..];
    } else {
      JoinSplit(s[1..], sep);
      JoinConsFirst(s[0], Split(s[1..], sep), sep);
      assert s == [s[0]] + s[1..];
    }
  }

  /** The new first piece `[c] + p` holds no separator when p holds none and the string it came
      from does not start with one. */
  lemma ConsPieceNoSeparator(s: string, sep: string, p: string)
    requires |sep| > 0 && |s| >= 1 && !OccursAt(s, sep, 0)
    requires |p| < |s| && p == s[1..][..|p|] && !Contains(p, sep)
    ensures !Contains([s[0]] + p, sep)
  {
    var q := [s[0]] + p;
    assert q == s[..|q|];
    forall i | 0 < i <= |q| ensures !OccursAt(q, sep, i) {
      if i + |sep| <= |q| {
        assert q[i..i + |sep|] == p[i - 1..i - 1 + |sep|];
        assert !OccursAt(p, sep, i - 1);
      }
    }
    assert !OccursAt(q, sep, 0) by {
      if |sep| <= |q| {
        assert q[..|sep|] == s[..|sep|];
      }
    }
  }

  /** No piece of a split contains the separator. */
  lemma {:induction false} PiecesHaveNoSeparator(s: string, sep: string)
    requires |sep| > 0
    ensures forall k :: 0 <= k < |Split(s, sep)| ==> !Contains(Split(s, sep)[k], sep)
    decreases |s|
  {
    var pieces := Split(s, sep);
    if |s| < |sep| {
      forall i | 0 <= i <= |s| ensures !OccursAt(s, sep, i) { }
    } else if s[..|sep|] == sep {
      PiecesHaveNoSeparator(s[|sep|..], sep);
      var rest := Split(s[|sep|..], sep);
      assert pieces == [""] + rest;
      forall k | 0 <= k < |pieces| ensures !Contains(pieces[k], sep) {
        if k == 0 {
          forall i | 0 <= i <= 0 ensures !OccursAt(pieces[0], sep, i) { }
        } else {
          assert pieces[k] == rest[k - 1];
        }
      }
    } else {
      PiecesHaveNoSeparator(s[1..], sep);
      FirstPieceIsPrefix(s[1..], sep);
      var rest := Split(s[1..], sep);
      ConsPieceNoSeparator(s, sep, rest[0]);
      forall k | 0 <= k < |pieces| ensures !Contains(pieces[k], sep) {
        if k > 0 {
          assert pieces[k] == rest[k];
        }
      }
    }
  }

  /** A string that holds no separator splits into itself alone. */
  lemma {:induction false} SplitWithoutSeparator(s: string, sep: string)
    requires |sep| > 0 && !Contains(s, sep)
    ensures Split(s, sep) == [s]
    decreases |s|
  {
    if |s| >= |sep| {
      assert !OccursAt(s, sep, 0);
      assert !Contains(s[1..], sep) by {
        forall i | 0 <= i <= |s[1..]| ensures !OccursAt(s[1..], sep, i) {
          if i + |sep| <= |s[1..]| {
            assert s[1..][i..i + |sep|] == s[i + 1..i + 1 + |sep|];
            assert !OccursAt(s, sep, i + 1);
          }
        }
      }
      SplitWithoutSeparator(s[1..], sep);
      assert [s[0]] + s[1..] == s;
    }
  }

  /** The first cut falls at the first occurrence of the separator: when sep occurs in `a + sep` at
      index |a| and nowhere before, `a + sep + b` splits into a followed by the pieces of b. */
  lemma {:induction false} SplitAtFirstOccurrence(a: string, sep: string, b: string)
    requires |sep| > 0
    requires forall i :: 0 <= i < |a| ==> !OccursAt(a + sep, sep, i)
    ensures Split(a + sep + b, sep) == [a] + Split(b, sep)
    decreases |a|
  {
    var s := a + sep + b;
    if a == [] {
      assert s == sep + b;
      assert s[..|sep|] == sep;
      assert s[|sep|..] == b;
    } else {
      assert !OccursAt(a + sep, sep, 0);
      assert s[..|sep|] == (a + sep)[..|sep|];
      var a' := a[1..];
      assert s[1..] == a' + sep + b;
      forall i | 0 <= i < |a'| ensures !OccursAt(a' + sep, sep, i) {
        assert (a' + sep)[i..i + |sep|] == (a + sep)[i + 1..i + 1 + |sep|];
        assert !OccursAt(a + sep, sep, i + 1);
      }
      SplitAtFirstOccurrence(a', sep, b);
      assert [a[0]] + a' == a;
    }
  }

  /** Two separators in a row yield an empty piece rather than being merged. */
  lemma LeadingSeparator(sep: string, b: string)
    requires |sep| > 0
    ensures Split(sep + b, sep) == [""] + Split(b, sep)
  {
    SplitAtFirstOccurrence("", sep, b);
    assert "" + sep + b == sep + b;
  }
}
