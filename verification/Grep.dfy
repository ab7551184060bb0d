/** user/grep.c: the regular expression matcher. The NUL that ends a C string is the end of the
    Dafny string. */
module Grep {

  // ------------------------------------------------------------ what patterns mean

  /** One character class, alone or under a star. '.' stands for any character. */
  datatype Token = Single(c: char) | Star(c: char)

  predicate Fits(c: char, x: char) {
    c == '.' || c == x
  }

  /** A pattern behind its '^': tokens, and whether it ends in the anchor '$'. */
  function Tokens(re: string): seq<Token>
    decreases |re|
  {
    if re == "" then []
    else if |re| >= 2 && re[1] == '*' then [Star(re[0])] + Tokens(re[2..])
    else if re == "$" then []
    else [Single(re[0])] + Tokens(re[1..])
  }

  predicate Anchored(re: string)
    decreases |re|
  {
    if re == "" then false
    else if |re| >= 2 && re[1] == '*' then Anchored(re[2..])
    else if re == "$" then true
    else Anchored(re[1..])
  }

  predicate AllFit(c: char, s: string) {
    forall i :: 0 <= i < |s| ==> Fits(c, s[i])
  }

  /** The language of a token sequence. */
  ghost predicate InLang(ts: seq<Token>, s: string)
    decreases |ts|
  {
    if ts == [] then s == ""
    else
      match ts[0]
      case Single(c) => s != "" && Fits(c, s[0]) && InLang(ts[1..], s[1..])
      case Star(c) => exists k :: 0 <= k <= |s| && AllFit(c, s[..k]) && InLang(ts[1..], s[k..])
  }

  /** A prefix of the text is in the language; under '$' it is the whole text. */
  ghost predicate PrefixIn(re: string, text: string, n: nat)
    requires n <= |text|
  {
    InLang(Tokens(re), text[..n]) && (Anchored(re) ==> n == |text|)
  }

  ghost predicate HereSpec(re: string, text: string) {
    exists n: nat :: n <= |text| && PrefixIn(re, text, n)
  }

  /** Some substring matches; under '^' it starts where the text starts. */
  ghost predicate MatchSpec(re: string, text: string) {
    if re != "" && re[0] == '^' then HereSpec(re[1..], text)
    else exists i: nat :: i <= |text| && HereSpec(re, text[i..])
  }

  // ------------------------------------------------------------ the steps of the matcher

  lemma HereEmpty(text: string)
    ensures HereSpec("", text)
  {
    assert PrefixIn("", text, 0);
  }

  lemma HereEnd(text: string)
    ensures HereSpec("$", text) <==> text == ""
  {
    if text == "" { assert PrefixIn("$", text, 0); }
  }

  lemma HereSingle(re: string, text: string)
    requires re != "" && !(|re| >= 2 && re[1] == '*') && re != "$"
    ensures HereSpec(re, text) <==> text != "" && Fits(re[0], text[0]) && HereSpec(re[1..], text[1..])
  {
    if HereSpec(re, text) {
      var n: nat :| n <= |text| && PrefixIn(re, text, n);
      assert Tokens(re)[1..] == Tokens(re[1..]);
      assert text[..n][1..] == text[1..][..n - 1];
      assert PrefixIn(re[1..], text[1..], n - 1);
    }
    if text != "" && Fits(re[0], text[0]) && HereSpec(re[1..], text[1..]) {
      var n: nat :| n <= |text[1..]| && PrefixIn(re[1..], text[1..], n);
      assert Tokens(re)[1..] == Tokens(re[1..]);
      assert text[..n + 1][1..] == text[1..][..n];
      assert PrefixIn(re, text, n + 1);
    }
  }

  /** c*re at the beginning of the text: some run of fitting characters, then re. */
  ghost predicate StarSpec(c: char, re: string, text: string) {
    exists k: nat :: k <= |text| && StarAt(c, re, text, k)
  }

  ghost predicate StarAt(c: char, re: string, text: string, k: nat)
    requires k <= |text|
  {
    AllFit(c, text[..k]) && HereSpec(re, text[k..])
  }

  lemma HereStar(re: string, text: string)
    requires |re| >= 2 && re[1] == '*'
    ensures HereSpec(re, text) <==> StarSpec(re[0], re[2..], text)
  {
    var c, rest := re[0], re[2..];
    assert Tokens(re)[1..] == Tokens(rest);
    if HereSpec(re, text) {
      var n: nat :| n <= |text| && PrefixIn(re, text, n);
      var k :| 0 <= k <= n && AllFit(c, text[..n][..k]) && InLang(Tokens(rest), text[..n][k..]);
      assert text[..n][..k] == text[..k] && text[..n][k..] == text[k..][..n - k];
      assert PrefixIn(rest, text[k..], n - k);
      assert StarAt(c, rest, text, k);
    }
    if StarSpec(c, rest, text) {
      var k: nat :| k <= |text| && StarAt(c, rest, text, k);
      var n: nat :| n <= |text[k..]| && PrefixIn(rest, text[k..], n);
      assert text[..n + k][..k] == text[..k] && text[..n + k][k..] == text[k..][..n];
      assert PrefixIn(re, text, n + k);
    }
  }

  // ------------------------------------------------------------ the matcher

  /** matchhere: does the text begin with a match of re? */
  method MatchHere(re: string, text: string) returns (r: bool)
    ensures r <==> HereSpec(re, text)
    decreases |re|, 0
  {
    if |re| == 0 {
      HereEmpty(text);
      return true;
    }
    if |re| >= 2 && re[1] == '*' {
      HereStar(re, text);
      r := MatchStar(re[0], re[2..], text);
      return;
    }
    assert re == "$" <==> re[0] == '$' && |re| == 1;
    if re[0] == '$' && |re| == 1 {
      HereEnd(text);
      return |text| == 0;
    }
    HereSingle(re, text);
    if |text| != 0 && (re[0] == '.' || re[0] == text[0]) {
      r := MatchHere(re[1..], text[1..]);
      return;
    }
    return false;
  }

  /** matchstar: does the text begin with a match of c*re? */
  method MatchStar(c: char, re: string, text: string) returns (r: bool)
    ensures r <==> StarSpec(c, re, text)
    decreases |re|, 1
  {
    var i := 0;
    while true
      invariant i <= |text| && AllFit(c, text[..i])
      invariant forall k: nat :: k < i ==> !StarAt(c, re, text, k)
      decreases |text| - i
    {
      var here := MatchHere(re, text[i..]);
      if here {
        assert StarAt(c, re, text, i);
        return true;
      }
      if !(i < |text| && (text[i] == c || c == '.')) {
        NoLongerRun(c, re, text, i);
        return false;
      }
      i := i + 1;
    }
  }

  /** A run cannot go past a character that does not fit. */
  lemma NoLongerRun(c: char, re: string, text: string, i: nat)
    requires i <= |text| && (i < |text| ==> !Fits(c, text[i]))
    requires forall k: nat :: k <= i ==> !StarAt(c, re, text, k)
    ensures !StarSpec(c, re, text)
  {
    forall k: nat | k <= |text| ensures !StarAt(c, re, text, k) {
      if k > i { assert text[..k][i] == text[i]; }
    }
  }

  /** match: does re match somewhere in the text? */
  method Match(re: string, text: string) returns (r: bool)
    ensures r <==> MatchSpec(re, text)
  {
    if |re| > 0 && re[0] == '^' {
      r := MatchHere(re[1..], text);
      return;
    }
    var i := 0;
    while i <= |text|
      invariant i <= |text| + 1
      invariant forall j: nat :: j < i ==> !HereSpec(re, text[j..])
    {
      var here := MatchHere(re, text[i..]);
      if here {
        return true;
      }
      i := i + 1;
    }
    return false;
  }

  // ------------------------------------------------------------ facts about the language

  /** A pattern without operators matches exactly the texts that contain it. */
  predicate Plain(re: string) {
    forall i :: 0 <= i < |re| ==> re[i] !in {'.', '*', '$', '^'}
  }

  lemma {:induction false} PlainLang(re: string, s: string)
    requires Plain(re)
    ensures InLang(Tokens(re), s) <==> s == re
    ensures !Anchored(re)
    decreases |re|
  {
    if re != "" {
      var rest := re[1..];
      assert re[0] !in {'.', '*', '$', '^'} && (|re| >= 2 ==> re[1] !in {'.', '*', '$', '^'});
      PlainTokens(re);
      PlainLang(rest, if s == "" then "" else s[1..]);
      if s != "" { assert s == [s[0]] + s[1..] && re == [re[0]] + rest; }
    }
  }

  lemma PlainTokens(re: string)
    requires re != "" && re[0] !in {'.', '*', '$', '^'} && (|re| >= 2 ==> re[1] != '*')
    ensures Tokens(re) == [Single(re[0])] + Tokens(re[1..]) && Anchored(re) == Anchored(re[1..])
  {
    assert re != "$";
  }

  predicate OccursAt(re: string, text: string, i: nat) {
    i + |re| <= |text| && text[i..i + |re|] == re
  }

  lemma PlainMatches(re: string, text: string)
    requires Plain(re)
    ensures MatchSpec(re, text) <==> exists i: nat :: OccursAt(re, text, i)
  {
    if MatchSpec(re, text) {
      var i: nat :| i <= |text| && HereSpec(re, text[i..]);
      var n: nat :| n <= |text[i..]| && PrefixIn(re, text[i..], n);
      PlainLang(re, text[i..][..n]);
      assert text[i..i + |re|] == text[i..][..n];
      assert OccursAt(re, text, i);
    }
    if i: nat :| OccursAt(re, text, i) {
      PlainLang(re, re);
      assert text[i..][..|re|] == re;
      assert PrefixIn(re, text[i..], |re|);
      assert HereSpec(re, text[i..]);
    }
  }
}
