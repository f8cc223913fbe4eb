/** The two trimming functions behind every stored path, endpoint and bucket, and when trimming an
    endpoint a second time changes it again. */
module Text {

  predicate White(c: char)
  {
    c == ' ' || c == '\t' || c == '\n' || c == '\r' || c == '\U{000B}' || c == '\U{000C}' || c == '\U{0085}' ||
    c == '\U{00A0}' ||
    c == '\U{1680}' || '\U{2000}' <= c <= '\U{200A}' || c == '\U{2028}' || c == '\U{2029}' || c == '\U{202F}' ||
    c == '\U{205F}' || c == '\U{3000}'
  }

  function DropLeading(s: string): (r: string)
    ensures |r| <= |s| && (r == "" || !White(r[0]))
  {
    if s != "" && White(s[0]) then DropLeading(s[1..]) else s
  }

  function DropTrailing(s: string): (r: string)
    ensures |r| <= |s| && (r == "" || !White(r[|r| - 1])) && r <= s
  {
    if s != "" && White(s[|s| - 1]) then DropTrailing(s[..|s| - 1]) else s
  }

  /** Without leading and trailing white space. */
  function TrimSpace(s: string): string
  {
    DropTrailing(DropLeading(s))
  }

  function DropSlashes(s: string): (r: string)
    ensures |r| <= |s| && (r == "" || r[|r| - 1] != '/') && r <= s
  {
    if s != "" && s[|s| - 1] == '/' then DropSlashes(s[..|s| - 1]) else s
  }

  /** How every reader and writer normalises an endpoint. */
  function Endpoint(s: string): string
  {
    DropSlashes(TrimSpace(s))
  }

  predicate Trimmed(s: string)
  {
    s == "" || (!White(s[0]) && !White(s[|s| - 1]))
  }

  lemma TrimSpaceTrims(s: string)
    ensures Trimmed(TrimSpace(s)) && |TrimSpace(s)| <= |s|
  {
  }

  /** Trimming changes nothing exactly on strings that are trimmed. */
  lemma TrimSpaceFixes(s: string)
    ensures TrimSpace(s) == s <==> Trimmed(s)
  {
    TrimSpaceTrims(s);
  }

  ghost predicate AllWhite(s: string)
  {
    forall i :: 0 <= i < |s| ==> White(s[i])
  }

  ghost predicate AllSlashes(s: string)
  {
    forall i :: 0 <= i < |s| ==> s[i] == '/'
  }

  lemma {:induction false} LeadingIs(s: string) returns (before: string)
    ensures AllWhite(before) && s == before + DropLeading(s)
  {
    if s != "" && White(s[0]) {
      var rest := LeadingIs(s[1..]);
      before := [s[0]] + rest;
    } else {
      before := "";
    }
  }

  lemma {:induction false} TrailingIs(s: string) returns (after: string)
    ensures AllWhite(after) && s == DropTrailing(s) + after
  {
    if s != "" && White(s[|s| - 1]) {
      var rest := TrailingIs(s[..|s| - 1]);
      after := rest + [s[|s| - 1]];
    } else {
      after := "";
    }
  }

  lemma {:induction false} SlashesAre(s: string) returns (slashes: string)
    ensures AllSlashes(slashes) && s == DropSlashes(s) + slashes
  {
    if s != "" && s[|s| - 1] == '/' {
      var rest := SlashesAre(s[..|s| - 1]);
      slashes := rest + [s[|s| - 1]];
    } else {
      slashes := "";
    }
  }

  /** Trimming takes away white space at both ends, and as much as there is. */
  lemma TrimSpaceIs(s: string) returns (before: string, after: string)
    ensures AllWhite(before) && AllWhite(after) && s == before + TrimSpace(s) + after && Trimmed(TrimSpace(s))
  {
    before := LeadingIs(s);
    after := TrailingIs(DropLeading(s));
    assert s == before + (TrimSpace(s) + after);
    TrimSpaceTrims(s);
  }

  /** The normal form of an endpoint is the trimmed text without the slashes at its end. */
  lemma EndpointIs(s: string) returns (slashes: string)
    ensures AllSlashes(slashes) && TrimSpace(s) == Endpoint(s) + slashes
    ensures Endpoint(s) == "" || Endpoint(s)[|Endpoint(s)| - 1] != '/'
  {
    slashes := SlashesAre(TrimSpace(s));
  }

  lemma SlashFree(s: string)
    requires s == "" || s[|s| - 1] != '/'
    ensures DropSlashes(s) == s
  {
  }

  /** An endpoint is settled when normalising its normal form again changes nothing. */
  predicate Settled(s: string)
  {
    Endpoint(Endpoint(s)) == Endpoint(s)
  }

  /** That is so exactly when the normal form does not end in white space, which dropping slashes can expose. */
  lemma SettledExactly(s: string)
    ensures Settled(s) <==> Endpoint(s) == "" || !White(Endpoint(s)[|Endpoint(s)| - 1])
  {
    var t := Endpoint(s);
    TrimSpaceTrims(s);
    assert t == "" || t[0] == TrimSpace(s)[0];
    if t == "" || !White(t[|t| - 1]) {
      TrimSpaceFixes(t);
      SlashFree(t);
    } else {
      TrimSpaceFixes(t);
      Shorter(t);
    }
  }

  lemma Shorter(t: string)
    requires t != "" && White(t[|t| - 1]) && !White(t[0])
    ensures |Endpoint(t)| < |t|
  {
    assert DropTrailing(t) == DropTrailing(t[..|t| - 1]);
  }

  /** Normalising shortens or changes nothing. */
  lemma EndpointShrinks(s: string)
    ensures |Endpoint(s)| <= |s| && (|Endpoint(s)| == |s| ==> Endpoint(s) == s)
  {
    DropsShrink(s);
    DropsShrink(DropLeading(s));
    DropsShrink(TrimSpace(s));
  }

  lemma {:induction false} DropsShrink(s: string)
    ensures |DropLeading(s)| == |s| ==> DropLeading(s) == s
    ensures |DropTrailing(s)| == |s| ==> DropTrailing(s) == s
    ensures |DropSlashes(s)| == |s| ==> DropSlashes(s) == s
  {
  }

  /** A concrete URL that is not: white space before its last slash. */
  lemma Unsettled()
    ensures Endpoint("https://h/ /") == "https://h/ " && Endpoint("https://h/ ") == "https://h" &&
            !Settled("https://h/ /")
  {
    var s := "https://h/ /";
    assert s[..11] == "https://h/ " && s[..10] == "https://h/" && s[..9] == "https://h";
    assert s[..11][..10] == s[..10] && s[..10][..9] == s[..9];
    assert DropTrailing(s) == s && DropSlashes(s) == DropSlashes(s[..11]) == s[..11];
    assert DropTrailing(s[..11]) == DropTrailing(s[..10]) == s[..10];
    assert DropSlashes(s[..10]) == DropSlashes(s[..9]) == s[..9];
  }

  /** At the level of the function alone the second normalisation can leave nothing. */
  lemma Vanishing()
    ensures Endpoint("/ /") == "/ " && Endpoint("/ ") == "" && !Settled("/ /")
  {
    assert DropSlashes("/ /") == DropSlashes("/ ") == "/ ";
    assert DropTrailing("/ ") == DropTrailing("/") == "/";
    assert DropSlashes("/") == DropSlashes("") == "";
  }
}
