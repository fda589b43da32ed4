/**
 * The JavaScript string semantics the user controller relies on: request-body
 * fields that may be `undefined`, truthiness, `f || ''`, and
 * `String.prototype.trim`.
 */
module JsText {
  import opened Wrappers

  /** A string-valued request-body field; `None` is `undefined`. */
  type Field = Option<string>

  /** JavaScript truthiness of a string field: defined and non-empty. */
  predicate Truthy(f: Field) {
    f.Some? && f.value != ""
  }

  /** The expression `f || ''`. */
  function OrEmpty(f: Field): (r: string)
    ensures Truthy(f) ==> Some(r) == f
    ensures !Truthy(f) ==> r == ""
  {
    if Truthy(f) then f.value else ""
  }

  /** The characters `trim` removes: ECMAScript WhiteSpace and LineTerminator. */
  predicate IsWhiteSpace(c: char) {
    || c == '\t' || c == '\n' || c == '\U{000B}' || c == '\U{000C}' || c == '\r'
    || c == ' ' || c == '\U{00A0}' || c == '\U{1680}'
    || ('\U{2000}' <= c <= '\U{200A}')
    || c == '\U{2028}' || c == '\U{2029}' || c == '\U{202F}' || c == '\U{205F}'
    || c == '\U{3000}' || c == '\U{FEFF}'
  }

  predicate AllWhiteSpace(s: string) {
    forall i :: 0 <= i < |s| ==> IsWhiteSpace(s[i])
  }

  /** Neither end of `s` is white space (the empty string qualifies). */
  predicate Unpadded(s: string) {
    s == "" || (!IsWhiteSpace(s[0]) && !IsWhiteSpace(s[|s| - 1]))
  }

  lemma AllWhiteSpaceConcat(a: string, b: string)
    ensures AllWhiteSpace(a + b) <==> AllWhiteSpace(a) && AllWhiteSpace(b)
  {
    if AllWhiteSpace(a + b) {
      forall i | 0 <= i < |a| ensures IsWhiteSpace(a[i]) {
        assert a[i] == (a + b)[i];
      }
      forall i | 0 <= i < |b| ensures IsWhiteSpace(b[i]) {
        assert b[i] == (a + b)[|a| + i];
      }
    }
    if AllWhiteSpace(a) && AllWhiteSpace(b) {
      forall i | 0 <= i < |a + b| ensures IsWhiteSpace((a + b)[i]) {
        if i < |a| { assert (a + b)[i] == a[i]; } else { assert (a + b)[i] == b[i - |a|]; }
      }
    }
  }

  /** Drops leading white space: the result is the suffix left over. */
  function TrimStart(s: string): (r: string)
    ensures |r| <= |s| && r == s[|s| - |r|..]
    ensures AllWhiteSpace(s[..|s| - |r|])
    ensures r == "" || !IsWhiteSpace(r[0])
  {
    if s != "" && IsWhiteSpace(s[0]) then
      var r := TrimStart(s[1..]);
      assert s[..|s| - |r|] == [s[0]] + s[1..][..|s| - 1 - |r|];
      r
    else
      s
  }

  /** Drops trailing white space: the result is the prefix left over. */
  function TrimEnd(s: string): (r: string)
    ensures |r| <= |s| && r == s[..|r|]
    ensures AllWhiteSpace(s[|r|..])
    ensures r == "" || !IsWhiteSpace(r[|r| - 1])
  {
    if s != "" && IsWhiteSpace(s[|s| - 1]) then
      var r := TrimEnd(s[..|s| - 1]);
      assert s[|r|..] == s[..|s| - 1][|r|..] + [s[|s| - 1]];
      r
    else
      s
  }

  /** White space trimmed from the front leaves nothing exactly when all of `s` is white space. */
  lemma TrimStartEmptyIff(s: string)
    ensures TrimStart(s) == "" <==> AllWhiteSpace(s)
  {
    var t := TrimStart(s);
    if t == "" {
      assert s[..|s| - |t|] == s;
    } else {
      assert s[|s| - |t|] == t[0];
    }
  }

  /** White space trimmed from the back leaves nothing exactly when all of `s` is white space. */
  lemma TrimEndEmptyIff(s: string)
    ensures TrimEnd(s) == "" <==> AllWhiteSpace(s)
  {
    var t := TrimEnd(s);
    if t == "" {
      assert s[|t|..] == s;
    } else {
      assert s[|t| - 1] == t[|t| - 1];
    }
  }

  /** `s.trim()`. The result is empty exactly when `s` is all white space. */
  function Trim(s: string): (r: string)
    ensures |r| <= |s|
    ensures Unpadded(r)
    ensures r == "" <==> AllWhiteSpace(s)
  {
    var t := TrimStart(s);
    var r := TrimEnd(t);
    TrimStartEmptyIff(s);
    TrimEndEmptyIff(t);
    assert r != "" ==> r[0] == t[0];
    r
  }

  lemma {:induction false} TrimStartPadding(pre: string, t: string)
    requires AllWhiteSpace(pre)
    requires t == "" || !IsWhiteSpace(t[0])
    ensures TrimStart(pre + t) == t
  {
    if pre != "" {
      assert (pre + t)[1..] == pre[1..] + t;
      TrimStartPadding(pre[1..], t);
    } else {
      assert pre + t == t;
    }
  }

  lemma {:induction false} TrimEndPadding(t: string, post: string)
    requires AllWhiteSpace(post)
    requires t == "" || !IsWhiteSpace(t[|t| - 1])
    ensures TrimEnd(t + post) == t
  {
    if post != "" {
      var s := t + post;
      assert s[..|s| - 1] == t + post[..|post| - 1];
      assert s[|s| - 1] == post[|post| - 1];
      TrimEndPadding(t, post[..|post| - 1]);
    } else {
      assert t + post == t;
    }
  }

  /**
   * `trim` strips exactly the white-space padding: a string with no white
   * space at either end, padded on both sides, trims back to itself.
   */
  lemma TrimStripsPadding(pre: string, core: string, post: string)
    requires AllWhiteSpace(pre) && AllWhiteSpace(post)
    requires Unpadded(core)
    ensures Trim(pre + core + post) == core
  {
    var cp := core + post;
    if core == "" {
      assert pre + core + post == pre + post;
      AllWhiteSpaceConcat(pre, post);
    } else {
      assert pre + core + post == pre + cp;
      TrimStartPadding(pre, cp);
      TrimEndPadding(core, post);
    }
  }
}
