/**
 * The two JavaScript string operations the dashboard relies on:
 * `String.prototype.trim` and `String.prototype.slice` with relative indices.
 */
module JsString {
  import opened Wrappers

  /**
   * The characters JavaScript counts as white space or line terminators, which
   * `trim`, `parseInt`, `Number` and `BigInt` all skip: tab, line tabulation, form feed,
   * space, no-break space, the byte-order mark, every space separator of Unicode
   * (U+1680, U+2000 to U+200A, U+202F, U+205F, U+3000), line feed, carriage return,
   * and the line and paragraph separators.
   */
  predicate IsSpace(c: char)
  {
    c == ' ' || c == '\t' || c == '\n' || c == '\r' || c == '\U{B}' || c == '\U{C}'
    || c == '\U{A0}' || c == '\U{FEFF}' || c == '\U{1680}' || '\U{2000}' <= c <= '\U{200A}'
    || c == '\U{2028}' || c == '\U{2029}' || c == '\U{202F}' || c == '\U{205F}' || c == '\U{3000}'
  }

  predicate AllSpace(s: string)
  {
    forall i :: 0 <= i < |s| ==> IsSpace(s[i])
  }

  /** `s` without its leading white space. */
  function TrimStart(s: string): string
  {
    if s != [] && IsSpace(s[0]) then TrimStart(s[1..]) else s
  }

  /** `s` without its trailing white space. */
  function TrimEnd(s: string): string
  {
    if s != [] && IsSpace(s[|s| - 1]) then TrimEnd(s[..|s| - 1]) else s
  }

  /** `s.trim()`: `s` without its leading and trailing white space. */
  function Trim(s: string): string
  {
    TrimEnd(TrimStart(s))
  }

  /** `TrimStart` drops exactly the white space in front: what is left is a suffix that starts with a non-space. */
  lemma {:induction false} TrimStartSpec(s: string)
    ensures var r := TrimStart(s);
      && |r| <= |s| && r == s[|s| - |r|..]
      && (r == [] || !IsSpace(r[0]))
      && AllSpace(s[..|s| - |r|])
    decreases |s|
  {
    if s != [] && IsSpace(s[0]) {
      var r := TrimStart(s[1..]);
      TrimStartSpec(s[1..]);
      var k := |s| - |r|;
      assert s[1..][|s[1..]| - |r|..] == s[k..];
      forall i | 0 <= i < k
        ensures IsSpace(s[..k][i])
      {
        if i > 0 {
          assert s[..k][i] == s[1..][..k - 1][i - 1];
        }
      }
    } else {
      assert s[..0] == [] && s[0..] == s;
    }
  }

  /** `TrimEnd` drops exactly the white space at the end: what is left is a prefix that ends with a non-space. */
  lemma {:induction false} TrimEndSpec(s: string)
    ensures var r := TrimEnd(s);
      && |r| <= |s| && r == s[..|r|]
      && (r == [] || !IsSpace(r[|r| - 1]))
      && AllSpace(s[|r|..])
    decreases |s|
  {
    if s != [] && IsSpace(s[|s| - 1]) {
      var r := TrimEnd(s[..|s| - 1]);
      TrimEndSpec(s[..|s| - 1]);
      assert s[..|s| - 1][|r|..] + [s[|s| - 1]] == s[|r|..];
      assert s[..|s| - 1][..|r|] == s[..|r|];
    }
  }

  /**
   * `trim` cuts `s` into white space, the result, and white space, and the
   * result neither starts nor ends with white space.
   */
  lemma TrimSpec(s: string)
    ensures var r := Trim(s);
      && (r == [] || (!IsSpace(r[0]) && !IsSpace(r[|r| - 1])))
      && exists i, j :: 0 <= i <= j <= |s| && s[i..j] == r && AllSpace(s[..i]) && AllSpace(s[j..])
  {
    var t := TrimStart(s);
    TrimStartSpec(s);
    TrimEndSpec(t);
    var r := TrimEnd(t);
    var i := |s| - |t|;
    var j := i + |r|;
    assert s[i..j] == t[..|r|] == r;
    assert s[j..] == t[|r|..];
    if r != [] {
      assert r[0] == t[0];
    }
  }

  lemma {:induction false} TrimStartSkipsSpace(pre: string, s: string)
    requires AllSpace(pre)
    ensures TrimStart(pre + s) == TrimStart(s)
  {
    if pre == [] {
      assert pre + s == s;
    } else {
      assert IsSpace(pre[0]) && (pre + s)[0] == pre[0];
      assert (pre + s)[1..] == pre[1..] + s;
      assert AllSpace(pre[1..]) by {
        forall i | 0 <= i < |pre[1..]| ensures IsSpace(pre[1..][i]) { assert pre[1..][i] == pre[i + 1]; }
      }
      TrimStartSkipsSpace(pre[1..], s);
    }
  }

  lemma {:induction false} TrimEndSkipsSpace(s: string, post: string)
    requires AllSpace(post)
    ensures TrimEnd(s + post) == TrimEnd(s)
  {
    if post == [] {
      assert s + post == s;
    } else {
      var n := |post| - 1;
      assert IsSpace(post[n]) && (s + post)[|s + post| - 1] == post[n];
      assert (s + post)[..|s + post| - 1] == s + post[..n];
      assert AllSpace(post[..n]) by {
        forall i | 0 <= i < n ensures IsSpace(post[..n][i]) { assert post[..n][i] == post[i]; }
      }
      TrimEndSkipsSpace(s, post[..n]);
    }
  }

  lemma {:induction false} TrimStartAppend(s: string, post: string)
    requires !AllSpace(s)
    ensures TrimStart(s + post) == TrimStart(s) + post
  {
    if IsSpace(s[0]) {
      assert (s + post)[1..] == s[1..] + post;
      assert !AllSpace(s[1..]) by {
        var i :| 0 <= i < |s| && !IsSpace(s[i]);
        assert s[1..][i - 1] == s[i];
      }
      TrimStartAppend(s[1..], post);
    }
  }

  /** White space around a string does not change what `trim` returns. */
  lemma TrimIgnoresPadding(pre: string, s: string, post: string)
    requires AllSpace(pre) && AllSpace(post)
    ensures Trim(pre + s + post) == Trim(s)
  {
    assert pre + s + post == pre + (s + post);
    TrimStartSkipsSpace(pre, s + post);
    if AllSpace(s) {
      assert AllSpace(s + post) by {
        forall i | 0 <= i < |s + post| ensures IsSpace((s + post)[i]) {
          if i < |s| { assert (s + post)[i] == s[i]; } else { assert (s + post)[i] == post[i - |s|]; }
        }
      }
      TrimStartSkipsSpace(s + post, []);
      TrimStartSkipsSpace(s, []);
      assert s + post + [] == s + post;
      assert s + [] == s;
    } else {
      TrimStartAppend(s, post);
      TrimEndSkipsSpace(TrimStart(s), post);
    }
  }

  /** Unicode space separators beyond Latin-1 are trimmed too: the ideographic space, say. */
  lemma IdeographicSpaceTrimmed()
    ensures Trim("\U{3000}ab\U{2028}") == "ab"
  {
    var s := "\U{3000}ab\U{2028}";
    assert TrimStart(s) == "ab\U{2028}" by {
      assert IsSpace(s[0]) && s[1..] == "ab\U{2028}";
    }
    assert TrimEnd("ab\U{2028}") == "ab" by {
      assert "ab\U{2028}"[..2] == "ab";
    }
  }

  /** The index a relative `slice` argument denotes in a string of length `n`. */
  function RelativeIndex(i: int, n: nat): (k: nat)
    ensures k <= n
    ensures 0 <= i <= n ==> k == i
    ensures -(n as int) <= i < 0 ==> k == n + i
  {
    if i < 0 then Max(n + i, 0) else Min(i, n)
  }

  /** `s.slice(start, end)`; negative arguments count from the end. */
  function Slice(s: string, start: int, end: int): (r: string)
    ensures |r| <= |s|
    ensures exists i, j :: 0 <= i <= j <= |s| && s[i..j] == r
    ensures 0 <= start <= end <= |s| ==> r == s[start..end]
    ensures -(|s| as int) <= start < 0 && end == |s| ==> r == s[|s| + start..]
  {
    var from, to := RelativeIndex(start, |s|), RelativeIndex(end, |s|);
    if from < to then s[from..to]
    else
      assert s[0..0] == "";
      ""
  }

  /** `s.slice(start)`: the end defaults to the length. */
  function SliceFrom(s: string, start: int): (r: string)
  {
    Slice(s, start, |s|)
  }
}
