/** Sanitising of the bearer token and session cookie fetched as raw text:
    `text.trim().replace(/\r?\n/g, '')`. The fetch itself is an input of the
    workflow (a `Js.Result<string>`); this module is the text transformation. */
module Credentials {

  /** The characters `String.prototype.trim` removes: ECMAScript WhiteSpace
      (tab, vertical tab, form feed, space, no-break space, byte order mark and
      the Unicode space separators) and LineTerminator (LF, CR, LS, PS). */
  predicate IsTrimmable(c: char)
  {
    c == '\t' || c == '\n' || c == '\U{B}' || c == '\U{C}' || c == '\r' || c == ' '
    || c == '\U{A0}' || c == '\U{1680}' || ('\U{2000}' <= c <= '\U{200A}')
    || c == '\U{2028}' || c == '\U{2029}' || c == '\U{202F}' || c == '\U{205F}'
    || c == '\U{3000}' || c == '\U{FEFF}'
  }

  /** `s` with its leading trimmable characters removed. */
  function TrimStart(s: string): string
  {
    if s != [] && IsTrimmable(s[0]) then TrimStart(s[1..]) else s
  }

  /** `TrimStart(s)` is a suffix of `s`; everything dropped is trimmable, and
      what is left does not start with a trimmable character. */
  lemma {:induction false} TrimStartSpec(s: string)
    ensures |TrimStart(s)| <= |s| && TrimStart(s) == s[|s| - |TrimStart(s)|..]
    ensures forall k :: 0 <= k < |s| - |TrimStart(s)| ==> IsTrimmable(s[k])
    ensures TrimStart(s) != [] ==> !IsTrimmable(TrimStart(s)[0])
  {
    if s != [] && IsTrimmable(s[0]) {
      var rest := s[1..];
      TrimStartSpec(rest);
      var t := TrimStart(rest);
      assert TrimStart(s) == t;
      assert rest[|rest| - |t|..] == s[|s| - |t|..];
      forall k | 0 < k < |s| - |t|
        ensures IsTrimmable(s[k])
      {
        assert s[k] == rest[k - 1];
      }
    }
  }

  /** `s` with its trailing trimmable characters removed. */
  function TrimEnd(s: string): string
  {
    if s != [] && IsTrimmable(s[|s| - 1]) then TrimEnd(s[..|s| - 1]) else s
  }

  /** `TrimEnd(s)` is a prefix of `s`; everything dropped is trimmable, and
      what is left does not end with a trimmable character. */
  lemma {:induction false} TrimEndSpec(s: string)
    ensures |TrimEnd(s)| <= |s| && TrimEnd(s) == s[..|TrimEnd(s)|]
    ensures forall k :: |TrimEnd(s)| <= k < |s| ==> IsTrimmable(s[k])
    ensures TrimEnd(s) != [] ==> !IsTrimmable(TrimEnd(s)[|TrimEnd(s)| - 1])
  {
    if s != [] && IsTrimmable(s[|s| - 1]) {
      TrimEndSpec(s[..|s| - 1]);
    }
  }

  /** `s.trim()`. */
  function Trim(s: string): string
  {
    TrimEnd(TrimStart(s))
  }

  /** The bounds of `Trim(s)` within `s`. */
  lemma TrimBounds(s: string) returns (i: nat, j: nat)
    ensures i <= j <= |s| && Trim(s) == s[i..j]
    ensures forall k :: 0 <= k < i ==> IsTrimmable(s[k])
    ensures forall k :: j <= k < |s| ==> IsTrimmable(s[k])
  {
    var t := TrimStart(s);
    TrimStartSpec(s);
    i := |s| - |t|;
    var r := TrimEnd(t);
    TrimEndSpec(t);
    j := i + |r|;
    assert r == s[i..j] by {
      assert t == s[i..] && r == t[..|r|];
    }
    forall k | j <= k < |s|
      ensures IsTrimmable(s[k])
    {
      assert s[k] == t[k - i];
    }
  }

  /** `Trim(s)` is the contiguous middle of `s` left once trimmable characters
      are removed from both ends. */
  lemma TrimIsMiddle(s: string)
    ensures exists i, j ::
              0 <= i <= j <= |s| && Trim(s) == s[i..j]
              && (forall k :: 0 <= k < i ==> IsTrimmable(s[k]))
              && (forall k :: j <= k < |s| ==> IsTrimmable(s[k]))
  {
    var i, j := TrimBounds(s);
  }

  /** `Trim(s)` neither starts nor ends with a trimmable character. */
  lemma TrimEnds(s: string)
    ensures Trim(s) != [] ==> !IsTrimmable(Trim(s)[0]) && !IsTrimmable(Trim(s)[|Trim(s)| - 1])
  {
    var t := TrimStart(s);
    var r := TrimEnd(t);
    TrimStartSpec(s);
    TrimEndSpec(t);
    if r != [] {
      assert r[0] == t[0];
    }
  }

  /** `s.replace(/\r?\n/g, '')`: every LF is removed together with a CR right
      before it; a CR not followed by LF stays. */
  function StripNewlines(s: string): string
  {
    if s == [] then []
    else if |s| >= 2 && s[0] == '\r' && s[1] == '\n' then StripNewlines(s[2..])
    else if s[0] == '\n' then StripNewlines(s[1..])
    else [s[0]] + StripNewlines(s[1..])
  }

  /** The result holds no LF and is no longer than the input. */
  lemma {:induction false} StripNewlinesRemovesLf(s: string)
    ensures |StripNewlines(s)| <= |s|
    ensures forall k :: 0 <= k < |StripNewlines(s)| ==> StripNewlines(s)[k] != '\n'
  {
    if s == [] {
    } else if |s| >= 2 && s[0] == '\r' && s[1] == '\n' {
      StripNewlinesRemovesLf(s[2..]);
    } else {
      StripNewlinesRemovesLf(s[1..]);
    }
  }

  /** The pieces `StripNewlines` works on. A lone character is kept unless it
      is LF, so a CR that is not followed by LF stays. A CR-LF pair is removed
      whole. */
  lemma StripNewlinesPieces(c: char)
    ensures StripNewlines([c]) == if c == '\n' then [] else [c]
    ensures StripNewlines("\r\n") == []
  {
  }

  /** Text is processed piece by piece: any cut that does not separate a CR
      from an LF right after it splits the result the same way. Every text is
      a concatenation of single characters and CR-LF pairs cut only at such
      places, so together with `StripNewlinesPieces` this fixes the result of
      every text: every character other than a removed line break is kept, in
      order. */
  lemma {:induction false} StripNewlinesAppend(a: string, b: string)
    requires a == [] || a[|a| - 1] != '\r' || b == [] || b[0] != '\n'
    ensures StripNewlines(a + b) == StripNewlines(a) + StripNewlines(b)
  {
    var ab := a + b;
    if a == [] {
      assert ab == b;
    } else if |a| >= 2 && a[0] == '\r' && a[1] == '\n' {
      assert ab[0] == '\r' && ab[1] == '\n';
      assert ab[2..] == a[2..] + b;
      StripNewlinesAppend(a[2..], b);
    } else if a[0] == '\n' {
      assert ab[0] == '\n';
      assert ab[1..] == a[1..] + b;
      StripNewlinesAppend(a[1..], b);
    } else {
      assert ab[0] == a[0];
      assert a[0] == '\r' && |a| >= 2 ==> ab[1] == a[1] != '\n';
      assert a[0] == '\r' && |a| == 1 ==> b == [] || ab[1] == b[0] != '\n';
      assert ab[1..] == a[1..] + b;
      StripNewlinesAppend(a[1..], b);
    }
  }

  /** Examples: CR-LF and a lone LF are removed; a lone CR and every other
      character are kept, in order; of a run of CRs before an LF, only the last
      CR goes with the LF. */
  lemma StripNewlinesExample()
    ensures StripNewlines("a\r\nb\rc\nd") == "ab\rcd"
    ensures StripNewlines("\r\r\n") == "\r"
  {
    assert StripNewlines("\r\n") == [];
    assert StripNewlines("\nd") == "d";
    assert StripNewlines("c\nd") == "cd";
    assert StripNewlines("\rc\nd") == "\rcd";
    assert StripNewlines("b\rc\nd") == "b\rcd";
    assert StripNewlines("\r\nb\rc\nd") == "b\rcd";
  }

  /** Text without LF is left unchanged. */
  lemma {:induction false} StripNewlinesNoLf(s: string)
    requires forall k :: 0 <= k < |s| ==> s[k] != '\n'
    ensures StripNewlines(s) == s
  {
    if s != [] {
      StripNewlinesNoLf(s[1..]);
    }
  }

  /** A last character that is neither CR nor LF survives as the last character. */
  lemma {:induction false} StripNewlinesKeepsLast(s: string)
    requires s != [] && s[|s| - 1] != '\r' && s[|s| - 1] != '\n'
    ensures StripNewlines(s) != [] && StripNewlines(s)[|StripNewlines(s)| - 1] == s[|s| - 1]
  {
    if |s| >= 2 && s[0] == '\r' && s[1] == '\n' {
      StripNewlinesKeepsLast(s[2..]);
    } else if s[0] == '\n' {
      StripNewlinesKeepsLast(s[1..]);
    } else if |s| > 1 {
      StripNewlinesKeepsLast(s[1..]);
    }
  }

  /** The sanitised token or cookie: `text.trim().replace(/\r?\n/g, '')`. */
  function Sanitize(text: string): string
  {
    StripNewlines(Trim(text))
  }

  /** A sanitised credential contains no LF and neither starts nor ends with a
      trimmable character, so it is safe as a single header value. */
  lemma SanitizeClean(text: string)
    ensures forall k :: 0 <= k < |Sanitize(text)| ==> Sanitize(text)[k] != '\n'
    ensures Sanitize(text) != [] ==>
      !IsTrimmable(Sanitize(text)[0]) && !IsTrimmable(Sanitize(text)[|Sanitize(text)| - 1])
  {
    var t := Trim(text);
    TrimEnds(text);
    StripNewlinesRemovesLf(t);
    if t != [] {
      StripNewlinesKeepsLast(t);
      assert t[0] != '\r' && t[0] != '\n';
      assert Sanitize(text)[0] == t[0];
    }
  }

  /** Sanitising an already sanitised credential changes nothing. */
  lemma SanitizeIdempotent(text: string)
    ensures Sanitize(Sanitize(text)) == Sanitize(text)
  {
    var r := Sanitize(text);
    SanitizeClean(text);
    if r != [] {
      assert TrimStart(r) == r;
      assert TrimEnd(r) == r;
    }
    assert Trim(r) == r;
    StripNewlinesNoLf(r);
  }
}
