/**
 * Mention extraction: the global match of `<@(\w+)>` over a message text and
 * the mapping of each token to the identity it names.
 */
module Mentions {
  import opened Wrappers
  import opened Strings
  import opened Types

  /** `\w`: ASCII letters, digits and the underscore. */
  predicate IsWordChar(c: char)
  {
    'A' <= c <= 'Z' || 'a' <= c <= 'z' || '0' <= c <= '9' || c == '_'
  }

  /** A whole `<@\w+>` token. */
  predicate IsMentionToken(t: string)
  {
    |t| >= 4 && t[0] == '<' && t[1] == '@' && t[|t| - 1] == '>' &&
    forall k :: 2 <= k < |t| - 1 ==> IsWordChar(t[k])
  }

  /** The end of the longest run of word characters starting at `i`. */
  function WordRunEnd(s: string, i: nat): (j: nat)
    requires i <= |s|
    ensures i <= j <= |s|
    ensures forall k :: i <= k < j ==> IsWordChar(s[k])
    ensures j < |s| ==> !IsWordChar(s[j])
    decreases |s| - i
  {
    if i < |s| && IsWordChar(s[i]) then WordRunEnd(s, i + 1) else i
  }

  /**
   * The end (exclusive) of the match of `<@\w+>` that starts at `i`, if one
   * does. `\w+` is greedy and `>` is not a word character, so no backtracking
   * can produce another match.
   */
  function MatchEnd(s: string, i: nat): (e: Option<nat>)
    requires i <= |s|
    ensures e.Some? ==> i < e.value <= |s| && IsMentionToken(s[i..e.value])
  {
    if i + 2 <= |s| && s[i] == '<' && s[i + 1] == '@' then
      var j := WordRunEnd(s, i + 2);
      if i + 2 < j < |s| && s[j] == '>' then
        var t := s[i..j + 1];
        assert forall k :: 2 <= k < |t| - 1 ==> t[k] == s[i + k];
        Some(j + 1)
      else None
    else None
  }

  /** The matches of `/<@(\w+)>/g` in `s` from index `i` on, left to right. */
  function TokensFrom(s: string, i: nat): (ts: seq<string>)
    requires i <= |s|
    ensures forall k :: 0 <= k < |ts| ==> IsMentionToken(ts[k])
    decreases |s| - i
  {
    if i == |s| then []
    else
      match MatchEnd(s, i)
      case Some(e) => [s[i..e]] + TokensFrom(s, e)
      case None => TokensFrom(s, i + 1)
  }

  /** `text.match(/<@(\w+)>/g)`, with `[]` for `null`. */
  function MentionTokens(text: string): seq<string>
  {
    TokensFrom(text, 0)
  }

  /** The id a mention names: the bot's own id for the bot user, `id:team` otherwise. */
  function MentionedId(userId: string, teamId: string, botId: string, botUserId: Option<string>): string
  {
    if botUserId == Some(userId) then botId else userId + ":" + teamId
  }

  /** `x.replace("<@", "").replace(">", "")`. */
  function UserIdOfToken(x: string): string
  {
    ReplaceFirst(ReplaceFirst(x, "<@", ""), ">", "")
  }

  /** The two replacements strip exactly the brackets of a token. */
  lemma UserIdOfMentionToken(t: string)
    requires IsMentionToken(t)
    ensures UserIdOfToken(t) == t[2..|t| - 1]
  {
    var w := t[2..|t| - 1];
    assert t == "<@" + (w + ">");
    ReplaceFirstLiteralAtStart("<@", w + ">", "");
    assert '>' !in w by {
      forall k | 0 <= k < |w| ensures w[k] != '>' {
        assert w[k] == t[k + 2] && IsWordChar(t[k + 2]);
      }
    }
    assert "" + (w + ">") == w + ['>'];
    ReplaceFirstLiteralAtEnd(w, '>', "");
    assert w + "" == w;
  }

  /** The mention entity built for one token. */
  function MentionOf(t: string, teamId: string, botId: string, botUserId: Option<string>): (m: Mention)
    requires IsMentionToken(t)
    ensures m.kind == "mention" && m.text == t
    ensures m.mentioned == Identity(MentionedId(t[2..|t| - 1], teamId, botId, botUserId), None)
  {
    UserIdOfMentionToken(t);
    Mention("mention", t, Identity(MentionedId(UserIdOfToken(t), teamId, botId, botUserId), None))
  }

  /**
   * `extractMentions(text, teamId, botId, botUserId)`: one mention per token,
   * in text order, duplicates kept.
   */
  function ExtractMentions(text: string, teamId: string, botId: string, botUserId: Option<string>): (r: seq<Mention>)
    ensures |r| == |MentionTokens(text)|
    ensures forall k :: 0 <= k < |r| ==>
      r[k].kind == "mention" && r[k].text == MentionTokens(text)[k] &&
      r[k].mentioned == Identity(MentionedId(r[k].text[2..|r[k].text| - 1], teamId, botId, botUserId), None)
  {
    var tokens := MentionTokens(text);
    seq(|tokens|, k requires 0 <= k < |tokens| => MentionOf(tokens[k], teamId, botId, botUserId))
  }

  /** The greedy run stops exactly where the word characters do. */
  lemma {:induction false} WordRunEndIs(s: string, i: nat, j: nat)
    requires i <= j <= |s|
    requires forall k :: i <= k < j ==> IsWordChar(s[k])
    requires j < |s| ==> !IsWordChar(s[j])
    ensures WordRunEnd(s, i) == j
    decreases j - i
  {
    if i < j {
      WordRunEndIs(s, i + 1, j);
    }
  }

  /** Wherever a token sits in the text, the scan matches it there. */
  lemma MatchEndOfToken(s: string, i: nat, e: nat)
    requires i <= e <= |s| && IsMentionToken(s[i..e])
    ensures MatchEnd(s, i) == Some(e)
  {
    var t := s[i..e];
    forall k | i + 2 <= k < e - 1 ensures IsWordChar(s[k]) {
      assert s[k] == t[k - i];
    }
    assert s[e - 1] == t[|t| - 1];
    WordRunEndIs(s, i + 2, e - 1);
  }

  /** A token somewhere at or after `i` makes the scan from `i` non-empty. */
  lemma {:induction false} TokensFromFindsToken(s: string, i: nat, a: nat, e: nat)
    requires i <= a <= e <= |s| && IsMentionToken(s[a..e])
    ensures TokensFrom(s, i) != []
    decreases a - i
  {
    if i < a && MatchEnd(s, i).None? {
      TokensFromFindsToken(s, i + 1, a, e);
    } else if i == a {
      MatchEndOfToken(s, a, e);
    }
  }

  /** A non-empty scan from `i` points at a token of the text. */
  lemma {:induction false} TokensFromHasSource(s: string, i: nat)
    requires i <= |s| && TokensFrom(s, i) != []
    ensures exists a, e :: i <= a <= e <= |s| && IsMentionToken(s[a..e])
    decreases |s| - i
  {
    match MatchEnd(s, i)
    case Some(e) =>
      assert IsMentionToken(s[i..e]);
    case None =>
      TokensFromHasSource(s, i + 1);
  }

  /** No mention is extracted exactly when the text holds no `<@\w+>` token. */
  lemma NoMentionsIff(text: string, teamId: string, botId: string, botUserId: Option<string>)
    ensures ExtractMentions(text, teamId, botId, botUserId) == [] <==>
      forall a, e :: 0 <= a <= e <= |text| ==> !IsMentionToken(text[a..e])
  {
    if MentionTokens(text) != [] {
      TokensFromHasSource(text, 0);
    }
    forall a, e | 0 <= a <= e <= |text| && IsMentionToken(text[a..e])
      ensures MentionTokens(text) != []
    {
      TokensFromFindsToken(text, 0, a, e);
    }
  }

  /** The run of word characters does not look at what precedes it. */
  lemma {:induction false} WordRunEndShift(p: string, s: string, i: nat)
    requires i <= |s|
    ensures WordRunEnd(p + s, |p| + i) == |p| + WordRunEnd(s, i)
    decreases |s| - i
  {
    if i < |s| && IsWordChar(s[i]) {
      assert (p + s)[|p| + i] == s[i];
      WordRunEndShift(p, s, i + 1);
    } else if i < |s| {
      assert (p + s)[|p| + i] == s[i];
    }
  }

  /** Neither does a match. */
  lemma MatchEndShift(p: string, s: string, i: nat)
    requires i <= |s|
    ensures MatchEnd(p + s, |p| + i) ==
      match MatchEnd(s, i) case None => None case Some(e) => Some(|p| + e)
  {
    var ps := p + s;
    if i + 2 <= |s| {
      assert ps[|p| + i] == s[i] && ps[|p| + i + 1] == s[i + 1];
      WordRunEndShift(p, s, i + 2);
      var j := WordRunEnd(s, i + 2);
      if j < |s| {
        assert ps[|p| + j] == s[j];
      }
    }
  }

  /** Scanning the tail of `p + s` is scanning `s`. */
  lemma {:induction false} TokensFromShift(p: string, s: string, i: nat)
    requires i <= |s|
    ensures TokensFrom(p + s, |p| + i) == TokensFrom(s, i)
    decreases |s| - i
  {
    if i < |s| {
      MatchEndShift(p, s, i);
      match MatchEnd(s, i)
      case Some(e) =>
        assert (p + s)[|p| + i..|p| + e] == s[i..e];
        TokensFromShift(p, s, e);
      case None =>
        TokensFromShift(p, s, i + 1);
    }
  }

  /** Text without `<` contributes no mention: the scan steps over it. */
  lemma {:induction false} TokensSkipPlain(g: string, rest: string, i: nat)
    requires i <= |g| && '<' !in g
    ensures TokensFrom(g + rest, i) == TokensFrom(rest, 0)
    decreases |g| - i
  {
    if i == |g| {
      TokensFromShift(g, rest, 0);
    } else {
      assert (g + rest)[i] == g[i];
      TokensSkipPlain(g, rest, i + 1);
    }
  }

  /** A leading token is extracted first and the scan resumes right after it. */
  lemma LeadingToken(t: string, rest: string)
    requires IsMentionToken(t)
    ensures MentionTokens(t + rest) == [t] + MentionTokens(rest)
  {
    assert (t + rest)[0..|t|] == t;
    MatchEndOfToken(t + rest, 0, |t|);
    TokensFromShift(t, rest, 0);
  }

  /** Text that starts without `<` adds nothing before the rest. */
  lemma LeadingPlain(g: string, rest: string)
    requires '<' !in g
    ensures MentionTokens(g + rest) == MentionTokens(rest)
  {
    TokensSkipPlain(g, rest, 0);
  }

  /** The test message with two user mentions yields both tokens, in order. */
  lemma TokensOfTwoUsers(u: string, z: string)
    requires IsMentionToken(u) && IsMentionToken(z)
    ensures MentionTokens("Hoy are you " + u + " and " + z) == [u, z]
  {
    LeadingPlain("", "");
    LeadingToken(z, "");
    assert z + "" == z;
    LeadingPlain(" and ", z);
    LeadingToken(u, " and " + z);
    LeadingPlain("Hoy are you ", u + (" and " + z));
    assert "Hoy are you " + u + " and " + z == "Hoy are you " + (u + (" and " + z));
  }

  /** A repeated token is extracted twice: no deduplication. */
  lemma TokensOfRepeatedMention(b: string)
    requires IsMentionToken(b)
    ensures MentionTokens(b + " " + b) == [b, b]
  {
    LeadingPlain("", "");
    LeadingToken(b, "");
    assert b + "" == b;
    var rest := " " + b;
    LeadingPlain(" ", b);
    LeadingToken(b, rest);
    assert b + " " + b == b + rest;
  }

  /** Text without a token yields no mention. */
  lemma TokensOfPlainText()
    ensures MentionTokens("This has no mentions") == []
  {
    LeadingPlain("", "");
    LeadingPlain("This has no mentions", "");
    assert "This has no mentions" + "" == "This has no mentions";
  }
}
