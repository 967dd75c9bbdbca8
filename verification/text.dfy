/**
 * Go's strings.TrimSpace: removes leading and trailing white space as
 * unicode.IsSpace defines it.
 */
module Text {

  /** unicode.IsSpace: the Latin-1 spaces '\t', '\n', '\v', '\f', '\r', ' ',
      U+0085 and U+00A0, plus the other characters with the White_Space
      property. */
  predicate IsSpace(c: char) {
    var k := c as int;
    (9 <= k <= 13) || k == 0x20 || k == 0x85 || k == 0xA0
    || k == 0x1680 || (0x2000 <= k <= 0x200A) || k == 0x2028 || k == 0x2029
    || k == 0x202F || k == 0x205F || k == 0x3000
  }

  predicate AllSpace(s: string) {
    forall i :: 0 <= i < |s| ==> IsSpace(s[i])
  }

  /** True when `s` neither starts nor ends with white space. */
  predicate Trimmed(s: string) {
    |s| == 0 || (!IsSpace(s[0]) && !IsSpace(s[|s| - 1]))
  }

  /** strings.TrimLeftFunc(s, unicode.IsSpace). */
  function TrimLeft(s: string): (r: string)
    ensures |r| <= |s|
    ensures s == s[..|s| - |r|] + r
    ensures AllSpace(s[..|s| - |r|])
    ensures |r| == 0 || !IsSpace(r[0])
    decreases |s|
  {
    if |s| > 0 && IsSpace(s[0]) then
      var r := TrimLeft(s[1..]);
      assert s[..|s| - |r|] == [s[0]] + s[1..][..|s| - 1 - |r|];
      r
    else s
  }

  /** strings.TrimRightFunc(s, unicode.IsSpace). */
  function TrimRight(s: string): (r: string)
    ensures |r| <= |s|
    ensures s == r + s[|r|..]
    ensures AllSpace(s[|r|..])
    ensures |r| == 0 || !IsSpace(r[|r| - 1])
    decreases |s|
  {
    if |s| > 0 && IsSpace(s[|s| - 1]) then
      var r := TrimRight(s[..|s| - 1]);
      assert s[|r|..] == s[..|s| - 1][|r|..] + [s[|s| - 1]];
      r
    else s
  }

  /** strings.TrimSpace. */
  function TrimSpace(s: string): (r: string)
    ensures Trimmed(r)
    ensures |r| <= |s|
  {
    TrimRight(TrimLeft(s))
  }

  lemma {:induction false} TrimLeftPadded(pre: string, rest: string)
    requires AllSpace(pre)
    requires |rest| == 0 || !IsSpace(rest[0])
    ensures TrimLeft(pre + rest) == rest
    decreases |pre|
  {
    if |pre| > 0 {
      assert (pre + rest)[1..] == pre[1..] + rest;
      TrimLeftPadded(pre[1..], rest);
    } else {
      assert pre + rest == rest;
    }
  }

  lemma {:induction false} TrimRightPadded(rest: string, post: string)
    requires AllSpace(post)
    requires |rest| == 0 || !IsSpace(rest[|rest| - 1])
    ensures TrimRight(rest + post) == rest
    decreases |post|
  {
    if |post| > 0 {
      assert (rest + post)[..|rest + post| - 1] == rest + post[..|post| - 1];
      TrimRightPadded(rest, post[..|post| - 1]);
    } else {
      assert rest + post == rest;
    }
  }

  /** TrimSpace removes exactly the white space around a trimmed core:
      padding `mid` on either side with white space never changes the
      result. */
  lemma {:induction false} TrimSpacePadded(pre: string, mid: string, post: string)
    requires AllSpace(pre) && AllSpace(post)
    requires Trimmed(mid)
    ensures TrimSpace(pre + mid + post) == mid
  {
    if |mid| == 0 {
      assert pre + mid + post == pre + post;
      assert AllSpace(pre + post);
      assert (pre + post) + [] == pre + post;
      TrimLeftPadded(pre + post, []);
      assert TrimLeft(pre + post) == [];
    } else {
      assert pre + mid + post == pre + (mid + post);
      TrimLeftPadded(pre, mid + post);
      TrimRightPadded(mid, post);
    }
  }

  /** A trimmed string is its own trim; in particular trimming twice is
      trimming once. */
  lemma {:induction false} TrimSpaceFixes(r: string)
    requires Trimmed(r)
    ensures TrimSpace(r) == r
  {
    var none: string := [];
    assert none + r + none == r;
    TrimSpacePadded(none, r, none);
  }
}
