/**
 * The C library's `strtok`, as `main` uses it: a string is cut into the
 * maximal runs of characters that are not delimiters, and the delimiters
 * themselves never reach a token.
 */
module Tokenizer {
  import opened Wrappers

  predicate AllDelims(s: string, delims: set<char>) {
    forall k :: 0 <= k < |s| ==> s[k] in delims
  }

  predicate NoDelims(s: string, delims: set<char>) {
    forall k :: 0 <= k < |s| ==> s[k] !in delims
  }

  /** What is left of `s` once its leading delimiters are skipped. */
  function SkipDelims(s: string, delims: set<char>): (r: string)
    ensures |r| <= |s|
    ensures r == [] || r[0] !in delims
  {
    if s != [] && s[0] in delims then SkipDelims(s[1..], delims) else s
  }

  /** Length of the longest prefix of `s` that holds no delimiter. */
  function RunLength(s: string, delims: set<char>): (n: nat)
    ensures n <= |s|
    ensures n == |s| || s[n] in delims
  {
    if s == [] || s[0] in delims then 0 else 1 + RunLength(s[1..], delims)
  }

  /** SkipDelims drops a prefix of delimiters, and stops only at a non-delimiter. */
  lemma {:induction false} SkipDelimsEmpty(s: string, delims: set<char>)
    ensures SkipDelims(s, delims) == s[|s| - |SkipDelims(s, delims)|..]
    ensures AllDelims(s[..|s| - |SkipDelims(s, delims)|], delims)
    ensures SkipDelims(s, delims) == [] <==> AllDelims(s, delims)
  {
    if s != [] {
      SkipDelimsEmpty(s[1..], delims);
      var r := SkipDelims(s, delims);
      if s[0] in delims {
        assert s[1..][|s| - 1 - |r|..] == s[|s| - |r|..];
        assert s[..|s| - |r|] == [s[0]] + s[1..][..|s| - 1 - |r|];
        if AllDelims(s[1..], delims) {
          forall k | 0 <= k < |s| ensures s[k] in delims {
            if k > 0 { assert s[k] == s[1..][k - 1]; }
          }
        }
      } else {
        assert s[..0] == [];
      }
    }
  }

  lemma {:induction false} RunLengthNoDelims(s: string, delims: set<char>)
    ensures NoDelims(s[..RunLength(s, delims)], delims)
    ensures NoDelims(s, delims) ==> RunLength(s, delims) == |s|
  {
    if s != [] && s[0] !in delims {
      RunLengthNoDelims(s[1..], delims);
      assert s[..RunLength(s, delims)] == [s[0]] + s[1..][..RunLength(s[1..], delims)];
    }
  }

  /**
   * `tok` starts at index `k` of `s`, everything before it is a delimiter,
   * and `rest` is what follows the delimiter that ends `tok` (nothing when
   * `tok` runs to the end of `s`).
   */
  predicate TokenAt(s: string, delims: set<char>, k: nat, tok: string, rest: string) {
    && k + |tok| <= |s|
    && AllDelims(s[..k], delims)
    && s[k..k + |tok|] == tok
    && (k + |tok| == |s| ==> rest == [])
    && (k + |tok| < |s| ==> s[k + |tok|] in delims && rest == s[k + |tok| + 1..])
  }

  /**
   * One call of `strtok`: skip the leading delimiters; if nothing is left
   * there is no token, otherwise the token is the maximal delimiter-free
   * run, and the delimiter that ends it is consumed (`strtok` overwrites it
   * with the terminator and resumes after it).
   */
  function Strtok(s: string, delims: set<char>): (r: Option<(string, string)>)
    ensures r.Some? ==> r.value.0 != [] && |r.value.1| < |s|
  {
    var t := SkipDelims(s, delims);
    if t == [] then None
    else
      var n := RunLength(t, delims);
      Some((t[..n], if n == |t| then [] else t[n + 1..]))
  }

  /** `strtok` finds no token exactly when only delimiters are left, and a token it finds holds no delimiter. */
  lemma {:induction false} StrtokFinds(s: string, delims: set<char>)
    ensures Strtok(s, delims).None? <==> AllDelims(s, delims)
    ensures Strtok(s, delims).Some? ==> NoDelims(Strtok(s, delims).value.0, delims)
  {
    SkipDelimsEmpty(s, delims);
    var t := SkipDelims(s, delims);
    if t != [] {
      RunLengthNoDelims(t, delims);
    }
  }

  /** The token `strtok` returns is where it says it is. */
  lemma {:induction false} StrtokTokenAt(s: string, delims: set<char>, tok: string, rest: string)
    requires Strtok(s, delims) == Some((tok, rest))
    ensures TokenAt(s, delims, |s| - |SkipDelims(s, delims)|, tok, rest)
  {
    SkipDelimsEmpty(s, delims);
    var t := SkipDelims(s, delims);
    assert t != [];
    var k := |s| - |t|;
    var n := RunLength(t, delims);
    assert tok == t[..n];
    assert s[k..] == t;
    assert s[k..k + n] == t[..n];
    if n < |t| {
      assert s[k + n] == t[n];
      assert rest == t[n + 1..];
      assert s[k + n + 1..] == t[n + 1..];
    } else {
      assert rest == [];
    }
  }

  /** The tokens successive `strtok` calls return for `s`, in order. */
  function SplitTokens(s: string, delims: set<char>): seq<string>
    decreases |s|
  {
    var next := Strtok(s, delims);
    if next.None? then [] else [next.value.0] + SplitTokens(next.value.1, delims)
  }

  /** No token is empty or holds a delimiter. */
  lemma {:induction false} SplitTokensWellFormed(s: string, delims: set<char>)
    ensures forall i :: 0 <= i < |SplitTokens(s, delims)| ==>
      SplitTokens(s, delims)[i] != [] && NoDelims(SplitTokens(s, delims)[i], delims)
    decreases |s|
  {
    var next := Strtok(s, delims);
    StrtokFinds(s, delims);
    if next.Some? {
      SplitTokensWellFormed(next.value.1, delims);
      var r := SplitTokens(s, delims);
      assert r == [next.value.0] + SplitTokens(next.value.1, delims);
      assert forall i :: 0 < i < |r| ==> r[i] == SplitTokens(next.value.1, delims)[i - 1];
    }
  }

  /** Joins non-empty tokens with one delimiter between neighbours. */
  function Join(toks: seq<string>, d: char): string {
    if toks == [] then []
    else if |toks| == 1 then toks[0]
    else toks[0] + [d] + Join(toks[1..], d)
  }

  lemma {:induction false} SkipDelimsIdempotent(s: string, delims: set<char>)
    ensures SkipDelims(SkipDelims(s, delims), delims) == SkipDelims(s, delims)
  {
    var t := SkipDelims(s, delims);
    assert t == [] || t[0] !in delims;
  }

  lemma {:induction false} StrtokSkipsDelims(s: string, delims: set<char>)
    ensures Strtok(s, delims) == Strtok(SkipDelims(s, delims), delims)
  {
    SkipDelimsIdempotent(s, delims);
  }

  /** Only what follows the leading delimiters matters to `strtok`. */
  lemma {:induction false} SplitSkipsDelims(s: string, delims: set<char>)
    ensures SplitTokens(s, delims) == SplitTokens(SkipDelims(s, delims), delims)
  {
    StrtokSkipsDelims(s, delims);
  }

  lemma {:induction false} SkipDelimsAcross(a: string, d: char, b: string, delims: set<char>)
    requires d in delims
    ensures AllDelims(a, delims) ==> SkipDelims(a + [d] + b, delims) == SkipDelims(b, delims)
    ensures !AllDelims(a, delims) ==> SkipDelims(a + [d] + b, delims) == SkipDelims(a, delims) + [d] + b
  {
    if a == [] {
      assert ([d] + b)[1..] == b;
    } else {
      assert (a + [d] + b)[1..] == a[1..] + [d] + b;
      SkipDelimsAcross(a[1..], d, b, delims);
      if a[0] in delims {
        if AllDelims(a[1..], delims) {
          forall k | 0 <= k < |a| ensures a[k] in delims {
            if k > 0 { assert a[k] == a[1..][k - 1]; }
          }
        } else {
          var k :| 0 <= k < |a[1..]| && a[1..][k] !in delims;
          assert a[k + 1] !in delims;
        }
      } else {
        assert !AllDelims(a, delims);
      }
    }
  }

  lemma {:induction false} RunLengthAcross(t: string, d: char, b: string, delims: set<char>)
    requires d in delims
    ensures RunLength(t + [d] + b, delims) == RunLength(t, delims)
  {
    if t == [] {
      assert (t + [d] + b)[0] == d;
    } else {
      assert (t + [d] + b)[0] == t[0];
      assert (t + [d] + b)[1..] == t[1..] + [d] + b;
      RunLengthAcross(t[1..], d, b, delims);
    }
  }

  /** A string with no delimiter in it is returned as the single token. */
  lemma {:induction false} SplitSingleRun(t: string, delims: set<char>)
    requires t != [] && NoDelims(t, delims)
    ensures SplitTokens(t, delims) == [t]
  {
    assert t[0] !in delims;
    assert SkipDelims(t, delims) == t;
    RunLengthNoDelims(t, delims);
    assert t[..|t|] == t;
    assert Strtok(t, delims) == Some((t, []));
    assert SplitTokens([], delims) == [];
  }

  /** The first `strtok` call on `t + [d] + b` returns the run that starts `t`. */
  lemma {:induction false} StrtokAcross(t: string, d: char, b: string, delims: set<char>)
    requires d in delims && t != [] && t[0] !in delims
    ensures var n := RunLength(t, delims);
      && Strtok(t, delims) == Some((t[..n], if n == |t| then [] else t[n + 1..]))
      && Strtok(t + [d] + b, delims) == Some((t[..n], if n == |t| then b else t[n + 1..] + [d] + b))
  {
    var n := RunLength(t, delims);
    RunLengthAcross(t, d, b, delims);
    var u := t + [d] + b;
    assert u[0] == t[0];
    assert SkipDelims(u, delims) == u;
    assert SkipDelims(t, delims) == t;
    assert u[..n] == t[..n];
    if n == |t| {
      assert u[n + 1..] == b;
    } else {
      assert u[n + 1..] == t[n + 1..] + [d] + b;
    }
  }

  lemma ConcatAssoc<T>(x: seq<T>, y: seq<T>, z: seq<T>)
    ensures x + (y + z) == (x + y) + z
  {
  }

  /** How the tokens of `t` and of `t + [d] + b` begin when `t` starts with a token character. */
  lemma {:induction false} SplitAcross(t: string, d: char, b: string, delims: set<char>)
    requires d in delims && t != [] && t[0] !in delims
    ensures var n := RunLength(t, delims);
      && SplitTokens(t, delims) == [t[..n]] + (if n == |t| then [] else SplitTokens(t[n + 1..], delims))
      && SplitTokens(t + [d] + b, delims) ==
           [t[..n]] + (if n == |t| then SplitTokens(b, delims) else SplitTokens(t[n + 1..] + [d] + b, delims))
  {
    StrtokAcross(t, d, b, delims);
  }

  /**
   * Cutting at a delimiter: the tokens of `a + [d] + b` are the tokens of
   * `a` followed by the tokens of `b`. Together with SplitSingleRun and
   * SplitOnlyDelims this pins SplitTokens down as "maximal runs".
   */
  lemma {:induction false} SplitAtDelimiter(a: string, d: char, b: string, delims: set<char>)
    requires d in delims
    ensures SplitTokens(a + [d] + b, delims) == SplitTokens(a, delims) + SplitTokens(b, delims)
    decreases |a|, 1
  {
    SkipDelimsAcross(a, d, b, delims);
    SplitSkipsDelims(a + [d] + b, delims);
    SplitSkipsDelims(a, delims);
    SkipDelimsEmpty(a, delims);
    if AllDelims(a, delims) {
      SplitSkipsDelims(b, delims);
      SplitOnlyDelims(a, delims);
    } else {
      SplitAtDelimiterFromToken(SkipDelims(a, delims), d, b, delims);
    }
  }

  /** SplitAtDelimiter for a string that starts with a token character. */
  lemma {:induction false} SplitAtDelimiterFromToken(t: string, d: char, b: string, delims: set<char>)
    requires d in delims && t != [] && t[0] !in delims
    ensures SplitTokens(t + [d] + b, delims) == SplitTokens(t, delims) + SplitTokens(b, delims)
    decreases |t|, 0
  {
    var n := RunLength(t, delims);
    SplitAcross(t, d, b, delims);
    if n < |t| {
      SplitAtDelimiter(t[n + 1..], d, b, delims);
      ConcatAssoc([t[..n]], SplitTokens(t[n + 1..], delims), SplitTokens(b, delims));
    }
  }

  /** A string of delimiters only, leading and trailing ones included, yields no token. */
  lemma {:induction false} SplitOnlyDelims(s: string, delims: set<char>)
    ensures SplitTokens(s, delims) == [] <==> AllDelims(s, delims)
  {
    StrtokFinds(s, delims);
  }

  /** Joining tokens and splitting again gives the tokens back. */
  lemma {:induction false} SplitJoin(toks: seq<string>, d: char, delims: set<char>)
    requires d in delims
    requires forall i :: 0 <= i < |toks| ==> toks[i] != [] && NoDelims(toks[i], delims)
    ensures SplitTokens(Join(toks, d), delims) == toks
  {
    if toks != [] {
      var head, tail := toks[0], toks[1..];
      SplitSingleRun(head, delims);
      HeadTail(toks);
      if |toks| > 1 {
        forall i | 0 <= i < |tail| ensures tail[i] != [] && NoDelims(tail[i], delims) {
          assert tail[i] == toks[i + 1];
        }
        SplitJoin(tail, d, delims);
        SplitAtDelimiter(head, d, Join(tail, d), delims);
      }
    }
  }

  lemma HeadTail<T>(s: seq<T>)
    requires s != []
    ensures [s[0]] + s[1..] == s && (|s| == 1 ==> s == [s[0]])
  {
  }
}
