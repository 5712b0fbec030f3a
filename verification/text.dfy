/**
 * The JavaScript string operations the prompt compiler relies on:
 * `String.prototype.trim`, the `||` fallback on strings, joining
 * blocks with a separator, and substring containment.
 */
module Text {

  /**
   * The code points ECMAScript's `trim` strips: the WhiteSpace set (TAB, VT, FF,
   * ZWNBSP and every space separator of Unicode category Zs) together with the
   * LineTerminator set (LF, CR, LS, PS).
   */
  predicate IsWhitespace(c: char) {
    || c == '\t' || c == '\U{B}' || c == '\U{C}' || c == ' ' || c == '\U{A0}'
    || c == '\U{FEFF}' || c == '\U{1680}' || ('\U{2000}' <= c <= '\U{200A}')
    || c == '\U{202F}' || c == '\U{205F}' || c == '\U{3000}'
    || c == '\n' || c == '\r' || c == '\U{2028}' || c == '\U{2029}'
  }

  predicate AllWhitespace(s: string) {
    forall k :: 0 <= k < |s| ==> IsWhitespace(s[k])
  }

  /** Neither the first nor the last character is whitespace (vacuous for ""). */
  predicate NoOuterWhitespace(s: string) {
    |s| > 0 ==> !IsWhitespace(s[0]) && !IsWhitespace(s[|s| - 1])
  }

  /** Drops the leading whitespace: what remains is a suffix of `s`. */
  function TrimStart(s: string): (r: string)
    ensures |r| <= |s| && r == s[|s| - |r|..]
    ensures AllWhitespace(s[..|s| - |r|])
    ensures |r| > 0 ==> !IsWhitespace(r[0])
  {
    if |s| > 0 && IsWhitespace(s[0]) then TrimStart(s[1..]) else s
  }

  /** Drops the trailing whitespace: what remains is a prefix of `s`. */
  function TrimEnd(s: string): (r: string)
    ensures |r| <= |s| && r == s[..|r|]
    ensures AllWhitespace(s[|r|..])
    ensures |r| > 0 ==> !IsWhitespace(r[|r| - 1])
  {
    if |s| > 0 && IsWhitespace(s[|s| - 1]) then TrimEnd(s[..|s| - 1]) else s
  }

  /** `r` is the slice of `s` starting at `i`, with only whitespace on either side of it. */
  predicate IsCoreAt(s: string, r: string, i: int) {
    && 0 <= i <= |s| - |r|
    && s[i..i + |r|] == r
    && AllWhitespace(s[..i])
    && AllWhitespace(s[i + |r|..])
  }

  /**
   * `String.prototype.trim`: the result is the slice of `s` left once the
   * whitespace at both ends is removed, and it has no outer whitespace itself.
   */
  function Trim(s: string): (r: string)
    ensures NoOuterWhitespace(r)
    ensures IsCoreAt(s, r, |s| - |TrimStart(s)|)
  {
    TrimCore(s);
    TrimEnd(TrimStart(s))
  }

  lemma TrimCore(s: string)
    ensures NoOuterWhitespace(TrimEnd(TrimStart(s)))
    ensures IsCoreAt(s, TrimEnd(TrimStart(s)), |s| - |TrimStart(s)|)
  {
    var t := TrimStart(s);
    var r := TrimEnd(t);
    assert |t| <= |s| && t == s[|s| - |t|..] && AllWhitespace(s[..|s| - |t|]);
    assert |r| <= |t| && r == t[..|r|] && AllWhitespace(t[|r|..]);
    CoreOfSuffixPrefix(s, t, r);
  }

  /**
   * Dropping leading whitespace (leaving `t`) and then trailing whitespace
   * (leaving `r`) leaves a core of `s`.
   */
  lemma CoreOfSuffixPrefix(s: string, t: string, r: string)
    requires |t| <= |s| && t == s[|s| - |t|..] && AllWhitespace(s[..|s| - |t|])
    requires |t| > 0 ==> !IsWhitespace(t[0])
    requires |r| <= |t| && r == t[..|r|] && AllWhitespace(t[|r|..])
    requires |r| > 0 ==> !IsWhitespace(r[|r| - 1])
    ensures NoOuterWhitespace(r)
    ensures IsCoreAt(s, r, |s| - |t|)
  {
    var i := |s| - |t|;
    SliceOfSuffix(s, i, |r|);
    assert |r| > 0 ==> r[0] == t[0];
  }

  /** Slicing a suffix is slicing the whole string at shifted positions. */
  lemma SliceOfSuffix(s: string, i: nat, k: nat)
    requires i + k <= |s|
    ensures s[i..][..k] == s[i..i + k]
    ensures s[i..][k..] == s[i + k..]
  {
  }

  lemma {:induction false} TrimStartPadded(pre: string, rest: string)
    requires AllWhitespace(pre)
    requires |rest| > 0 ==> !IsWhitespace(rest[0])
    ensures TrimStart(pre + rest) == rest
    decreases |pre|
  {
    if |pre| > 0 {
      assert (pre + rest)[1..] == pre[1..] + rest;
      assert IsWhitespace(pre[0]);
      TrimStartPadded(pre[1..], rest);
    } else {
      assert pre + rest == rest;
    }
  }

  lemma {:induction false} TrimEndPadded(body: string, post: string)
    requires AllWhitespace(post)
    requires |body| > 0 ==> !IsWhitespace(body[|body| - 1])
    ensures TrimEnd(body + post) == body
    decreases |post|
  {
    if |post| > 0 {
      var last := |body + post| - 1;
      assert (body + post)[..last] == body + post[..|post| - 1];
      assert IsWhitespace(post[|post| - 1]);
      TrimEndPadded(body, post[..|post| - 1]);
    } else {
      assert body + post == body;
    }
  }

  /**
   * Trimming a body with no outer whitespace out of any whitespace padding
   * returns exactly the body.
   */
  lemma {:induction false} TrimPadded(pre: string, body: string, post: string)
    requires AllWhitespace(pre) && AllWhitespace(post)
    requires NoOuterWhitespace(body)
    ensures Trim(pre + body + post) == body
  {
    if |body| > 0 {
      assert pre + body + post == pre + (body + post);
      TrimStartPadded(pre, body + post);
      TrimEndPadded(body, post);
    } else {
      assert pre + body + post == pre + post;
      assert AllWhitespace(pre + post);
      TrimStartPadded(pre + post, "");
      assert pre + post + "" == pre + post;
    }
  }

  /** Trimming twice is trimming once. */
  lemma TrimIdempotent(s: string)
    ensures Trim(Trim(s)) == Trim(s)
  {
    var r := Trim(s);
    assert NoOuterWhitespace(r);
    assert AllWhitespace("");
    TrimPadded("", r, "");
    assert "" + r + "" == r;
  }

  /** JavaScript's `a || b` on strings: only the empty string is falsy. */
  function OrElse(a: string, b: string): (r: string)
    ensures a != "" ==> r == a
    ensures a == "" ==> r == b
  {
    if a == "" then b else a
  }

  /** The blocks of `blocks` with `sep` between each neighbouring pair. */
  function Join(blocks: seq<string>, sep: string): string
    decreases |blocks|
  {
    if |blocks| == 0 then ""
    else if |blocks| == 1 then blocks[0]
    else blocks[0] + sep + Join(blocks[1..], sep)
  }

  /** A joined text starts with its first block. */
  lemma JoinStartsWithFirst(blocks: seq<string>, sep: string)
    requires |blocks| > 0
    ensures |blocks[0]| <= |Join(blocks, sep)|
    ensures Join(blocks, sep)[..|blocks[0]|] == blocks[0]
  {
  }

  /** A joined text ends with its last block. */
  lemma {:induction false} JoinEndsWithLast(blocks: seq<string>, sep: string)
    requires |blocks| > 0
    ensures |blocks[|blocks| - 1]| <= |Join(blocks, sep)|
    ensures Join(blocks, sep)[|Join(blocks, sep)| - |blocks[|blocks| - 1]|..] == blocks[|blocks| - 1]
    decreases |blocks|
  {
    if |blocks| > 1 {
      var rest := blocks[1..];
      JoinEndsWithLast(rest, sep);
      assert rest[|rest| - 1] == blocks[|blocks| - 1];
      var j := Join(rest, sep);
      var whole := blocks[0] + sep + j;
      assert whole[|whole| - |j|..] == j;
    }
  }

  /**
   * Trimming whitespace padding off joined blocks leaves the joined blocks,
   * provided the first block starts and the last block ends with a visible character.
   */
  lemma TrimJoinPadded(pre: string, blocks: seq<string>, sep: string, post: string)
    requires AllWhitespace(pre) && AllWhitespace(post)
    requires |blocks| > 0 && |blocks[0]| > 0 && |blocks[|blocks| - 1]| > 0
    requires !IsWhitespace(blocks[0][0])
    requires !IsWhitespace(blocks[|blocks| - 1][|blocks[|blocks| - 1]| - 1])
    ensures Trim(pre + Join(blocks, sep) + post) == Join(blocks, sep)
  {
    var body := Join(blocks, sep);
    var last := blocks[|blocks| - 1];
    JoinStartsWithFirst(blocks, sep);
    JoinEndsWithLast(blocks, sep);
    assert body[0] == blocks[0][0] by {
      assert body[..|blocks[0]|][0] == blocks[0][0];
    }
    assert body[|body| - 1] == last[|last| - 1] by {
      var tail := body[|body| - |last|..];
      assert tail[|tail| - 1] == body[|body| - 1];
    }
    TrimPadded(pre, body, post);
  }

  /** `t` occurs in `s` as a contiguous substring. */
  predicate Contains(s: string, t: string) {
    exists i :: 0 <= i <= |s| && OccursAt(s, t, i)
  }

  /** `t` occurs in `s` starting at index `i`. */
  predicate OccursAt(s: string, t: string, i: int) {
    0 <= i <= |s| - |t| && s[i..i + |t|] == t
  }

  /** A string ending in `t` contains `t`. */
  lemma ContainsSuffix(a: string, t: string)
    ensures Contains(a + t, t)
  {
    var s := a + t;
    assert s[|a|..|a| + |t|] == t;
    assert OccursAt(s, t, |a|);
  }

  /** Appending to a string keeps every substring it contains. */
  lemma ContainsExtended(s: string, t: string, b: string)
    requires Contains(s, t)
    ensures Contains(s + b, t)
  {
    var i :| 0 <= i <= |s| && OccursAt(s, t, i);
    assert (s + b)[i..i + |t|] == s[i..i + |t|];
    assert OccursAt(s + b, t, i);
  }
}
