/** Option values for results that may be missing (a failed lookup). */
module Optional {
  datatype Option<T> = None | Some(value: T)
}

/**
 * The string operations the command router relies on: Python's substring
 * test `p in s` and `s.replace(p, "")`, which removes every occurrence of a
 * phrase, scanning left to right without overlaps.
 */
module Text {

  /** `p` occurs in `s` starting at index `i`. */
  predicate MatchesAt(s: string, p: string, i: int)
  {
    0 <= i && i + |p| <= |s| && s[i..i + |p|] == p
  }

  /** Python's `p in s`: a case-sensitive substring test. */
  predicate Contains(s: string, p: string)
  {
    exists i | 0 <= i <= |s| - |p| :: MatchesAt(s, p, i)
  }

  /** Python's `any(p in s for p in ps)`. */
  predicate ContainsAny(s: string, ps: seq<string>)
  {
    exists j | 0 <= j < |ps| :: Contains(s, ps[j])
  }

  /** If one character of `p` never appears in `s`, then `p` does not occur in `s`. */
  lemma CharAbsent(s: string, p: string, j: nat)
    requires j < |p| && p[j] !in s
    ensures !Contains(s, p)
  {
    forall i | 0 <= i <= |s| - |p|
      ensures !MatchesAt(s, p, i)
    {
      assert s[i..i + |p|][j] == s[i + j];
    }
  }

  /**
   * An occurrence of `p` in `s` lies either within the first `n + |p| - 1`
   * characters or within the suffix from `n`: ruling out both rules it out.
   */
  lemma NotContainsSplit(s: string, p: string, n: nat)
    requires 0 < |p| && n + |p| - 1 <= |s|
    requires !Contains(s[..n + |p| - 1], p)
    requires !Contains(s[n..], p)
    ensures !Contains(s, p)
  {
    forall i | 0 <= i <= |s| - |p|
      ensures !MatchesAt(s, p, i)
    {
      if i < n {
        assert !MatchesAt(s[..n + |p| - 1], p, i);
        assert s[..n + |p| - 1][i..i + |p|] == s[i..i + |p|];
      } else {
        assert !MatchesAt(s[n..], p, i - n);
        assert s[n..][i - n..i - n + |p|] == s[i..i + |p|];
      }
    }
  }

  /** An occurrence in the tail of `s` is an occurrence in `s`. */
  lemma ContainsTail(s: string, p: string)
    requires 0 < |s| && Contains(s[1..], p)
    ensures Contains(s, p)
  {
    var i :| 0 <= i <= |s[1..]| - |p| && MatchesAt(s[1..], p, i);
    assert s[1..][i..i + |p|] == s[i + 1..i + 1 + |p|];
    assert MatchesAt(s, p, i + 1);
  }

  /**
   * `s.replace(p, "")`: every occurrence of `p`, found left to right without
   * overlap, is dropped and every other character is kept in order.
   */
  function RemoveAll(s: string, p: string): string
    requires 0 < |p|
    decreases |s|
  {
    if |s| < |p| then s
    else if s[..|p|] == p then RemoveAll(s[|p|..], p)
    else [s[0]] + RemoveAll(s[1..], p)
  }

  /** A string in which `p` does not occur is left as it is. */
  lemma {:induction false} RemoveAllWithoutOccurrence(s: string, p: string)
    requires 0 < |p| && !Contains(s, p)
    ensures RemoveAll(s, p) == s
  {
    if |s| < |p| {
    } else {
      assert !MatchesAt(s, p, 0);
      if Contains(s[1..], p) {
        ContainsTail(s, p);
      }
      RemoveAllWithoutOccurrence(s[1..], p);
      assert [s[0]] + s[1..] == s;
    }
  }

  /** A leading occurrence of `p` is dropped and the scan goes on after it. */
  lemma RemoveAllLeading(p: string, rest: string)
    requires 0 < |p|
    ensures RemoveAll(p + rest, p) == RemoveAll(rest, p)
  {
    assert (p + rest)[..|p|] == p;
    assert (p + rest)[|p|..] == rest;
  }

  /**
   * The pieces of `s` between the occurrences of `p` that RemoveAll drops:
   * Python's `s.split(p)`.
   */
  function Split(s: string, p: string): (pieces: seq<string>)
    requires 0 < |p|
    ensures 0 < |pieces|
    decreases |s|
  {
    if |s| < |p| then [s]
    else if s[..|p|] == p then [""] + Split(s[|p|..], p)
    else
      var rest := Split(s[1..], p);
      [[s[0]] + rest[0]] + rest[1..]
  }

  /** Python's `sep.join(pieces)`. */
  function Join(pieces: seq<string>, sep: string): string
    requires 0 < |pieces|
  {
    if |pieces| == 1 then pieces[0] else pieces[0] + sep + Join(pieces[1..], sep)
  }

  /** Extending the first piece extends the joined string at its front. */
  lemma JoinExtendFirst(x: string, pieces: seq<string>, sep: string)
    requires 0 < |pieces|
    ensures Join([x + pieces[0]] + pieces[1..], sep) == x + Join(pieces, sep)
  {
    var ext := [x + pieces[0]] + pieces[1..];
    if |pieces| > 1 {
      assert ext[1..] == pieces[1..];
    }
  }

  /** Joining the pieces with `p` gives back `s`. */
  lemma {:induction false} SplitJoinRoundTrip(s: string, p: string)
    requires 0 < |p|
    ensures Join(Split(s, p), p) == s
  {
    if |s| < |p| {
    } else if s[..|p|] == p {
      var rest := Split(s[|p|..], p);
      SplitJoinRoundTrip(s[|p|..], p);
      assert Split(s, p) == [""] + rest;
      assert ([""] + rest)[1..] == rest;
      calc {
        Join([""] + rest, p);
        "" + p + Join(rest, p);
        s[..|p|] + s[|p|..];
        s;
      }
    } else {
      var rest := Split(s[1..], p);
      SplitJoinRoundTrip(s[1..], p);
      assert Split(s, p) == [[s[0]] + rest[0]] + rest[1..];
      JoinExtendFirst([s[0]], rest, p);
      assert [s[0]] + s[1..] == s;
    }
  }

  /** Joining the pieces with nothing between them gives RemoveAll's result. */
  lemma {:induction false} SplitConcatIsRemoveAll(s: string, p: string)
    requires 0 < |p|
    ensures Join(Split(s, p), "") == RemoveAll(s, p)
  {
    if |s| < |p| {
    } else if s[..|p|] == p {
      SplitConcatIsRemoveAll(s[|p|..], p);
      var rest := Split(s[|p|..], p);
      assert ([""] + rest)[1..] == rest;
    } else {
      SplitConcatIsRemoveAll(s[1..], p);
      JoinExtendFirst([s[0]], Split(s[1..], p), "");
    }
  }

  /** The first piece is a prefix of `s`. */
  lemma {:induction false} SplitFirstIsPrefix(s: string, p: string)
    requires 0 < |p|
    ensures Split(s, p)[0] <= s
  {
    if |s| < |p| {
    } else if s[..|p|] == p {
    } else {
      SplitFirstIsPrefix(s[1..], p);
      var r0 := Split(s[1..], p)[0];
      assert [s[0]] + r0 == s[..|r0| + 1];
    }
  }

  /** No piece contains `p`: every occurrence of `p` falls between two pieces. */
  lemma {:induction false} SplitPiecesAvoid(s: string, p: string)
    requires 0 < |p|
    ensures forall k | 0 <= k < |Split(s, p)| :: !Contains(Split(s, p)[k], p)
  {
    if |s| < |p| {
      assert !MatchesAt(s, p, 0);
    } else if s[..|p|] == p {
      SplitPiecesAvoid(s[|p|..], p);
      var rest := Split(s[|p|..], p);
      assert !MatchesAt("", p, 0);
      assert forall k | 1 <= k < |[""] + rest| :: ([""] + rest)[k] == rest[k - 1];
    } else {
      SplitPiecesAvoid(s[1..], p);
      SplitFirstIsPrefix(s[1..], p);
      var rest := Split(s[1..], p);
      var head := [s[0]] + rest[0];
      assert head <= s;
      forall i | 0 <= i <= |head| - |p|
        ensures !MatchesAt(head, p, i)
      {
        if i == 0 {
          assert head[..|p|] == s[..|p|];
        } else {
          assert !MatchesAt(rest[0], p, i - 1);
          assert head[i..i + |p|] == rest[0][i - 1..i - 1 + |p|];
        }
      }
      assert forall k | 1 <= k < |[head] + rest[1..]| :: ([head] + rest[1..])[k] == rest[k];
    }
  }

  /**
   * What RemoveAll does, stated without its scan: `s` is the pieces joined
   * by `p`, no piece contains `p`, and the result is the pieces joined by
   * nothing.
   */
  lemma RemoveAllCharacterised(s: string, p: string)
    requires 0 < |p|
    ensures Join(Split(s, p), p) == s
    ensures forall k | 0 <= k < |Split(s, p)| :: !Contains(Split(s, p)[k], p)
    ensures RemoveAll(s, p) == Join(Split(s, p), "")
  {
    SplitJoinRoundTrip(s, p);
    SplitPiecesAvoid(s, p);
    SplitConcatIsRemoveAll(s, p);
  }
}
