/**
 * `safeParse`: the payload of a clicked button arrives as the text of an HTML
 * attribute. It is entity-decoded (five fixed passes), a single-quoted object
 * is turned into a double-quoted one, and the result goes to `JSON.parse`;
 * an empty or missing text and any parse failure give no payload.
 */
module Payload {
  import opened Wrappers
  import opened Js
  import opened Environment

  /** The five decoding passes, in their order; `&amp;` comes last. */
  function Unescape(s: string): string {
    var a := ReplaceAll(s, "&quot;", "\"");
    var b := ReplaceAll(a, "&#34;", "\"");
    var c := ReplaceAll(b, "&apos;", "'");
    var d := ReplaceAll(c, "&#39;", "'");
    ReplaceAll(d, "&amp;", "&")
  }

  /** A braced text with single quotes and no double quote is read as single-quoted JSON. */
  predicate NeedsQuoteRepair(c: string) {
    StartsWith(c, "{") && EndsWith(c, "}") && '"' !in c && '\'' in c
  }

  function Repaired(c: string): (r: string)
    ensures NeedsQuoteRepair(c) ==> '\'' !in r && |r| == |c|
    ensures !NeedsQuoteRepair(c) ==> r == c
  {
    if NeedsQuoteRepair(c) then ReplaceChar(c, '\'', '"') else c
  }

  /** `safeParse(text)`. */
  function SafeParse(h: Host, text: Option<string>): (r: Option<Value>)
    ensures text.None? || text == Some("") ==> r.None?
    ensures text.Some? && text.value != "" ==> r == h.parseJson(Repaired(Unescape(text.value)))
  {
    match text
    case None => None
    case Some(t) => if t == "" then None else h.parseJson(Repaired(Unescape(t)))
  }

  /** A text without `&` is left alone by the decoding passes. */
  lemma UnescapeWithoutAmpersand(s: string)
    requires '&' !in s
    ensures Unescape(s) == s
  {
  }

  /**
   * A double-quoted object without `&` or `'` parses exactly as its
   * single-quoted spelling does: the repair undoes the swap of quotes.
   */
  lemma SingleQuotedObjectsParseAlike(h: Host, c: string)
    requires StartsWith(c, "{") && EndsWith(c, "}")
    requires '"' in c && '\'' !in c && '&' !in c
    ensures SafeParse(h, Some(ReplaceChar(c, '"', '\''))) == SafeParse(h, Some(c))
  {
    var q := ReplaceChar(c, '"', '\'');
    QuoteSwapIsRepaired(c);
    UnescapeWithoutAmpersand(q);
    UnescapeWithoutAmpersand(c);
    assert !NeedsQuoteRepair(c);
  }

  lemma QuoteSwapIsRepaired(c: string)
    requires StartsWith(c, "{") && EndsWith(c, "}")
    requires '"' in c && '\'' !in c && '&' !in c
    ensures '&' !in ReplaceChar(c, '"', '\'')
    ensures NeedsQuoteRepair(ReplaceChar(c, '"', '\''))
    ensures ReplaceChar(ReplaceChar(c, '"', '\''), '\'', '"') == c
  {
    var q := ReplaceChar(c, '"', '\'');
    var back := ReplaceChar(q, '\'', '"');
    assert back == c by {
      forall k | 0 <= k < |c| ensures back[k] == c[k] {
        assert c[k] != '\'';
      }
    }
    assert q[..1] == "{" by { assert q[0] == c[0]; }
    assert q[|q| - 1..] == "}" by { assert q[|q| - 1] == c[|c| - 1]; }
    assert '&' !in q by {
      forall k | 0 <= k < |q| ensures q[k] != '&' { assert c[k] != '&'; }
    }
    var i :| 0 <= i < |c| && c[i] == '"';
    assert q[i] == '\'';
    assert '"' !in q by {
      forall k | 0 <= k < |q| ensures q[k] != '"' { }
    }
  }

  // ---------------------------------------------------------------------
  // Decoding inverts the attribute encoding
  // ---------------------------------------------------------------------

  /** How an HTML attribute encoder spells each character. */
  function EscapedChar(c: char): string {
    if c == '&' then "&amp;" else if c == '"' then "&quot;" else if c == '\'' then "&#39;" else [c]
  }

  function EscapedTokens(s: string): (r: seq<string>)
    ensures |r| == |s| && forall k :: 0 <= k < |s| ==> r[k] == EscapedChar(s[k])
  {
    if s == [] then [] else [EscapedChar(s[0])] + EscapedTokens(s[1..])
  }

  function Concat(ts: seq<string>): string {
    if ts == [] then [] else ts[0] + Concat(ts[1..])
  }

  /** The attribute text of `s`. */
  function Escape(s: string): string {
    Concat(EscapedTokens(s))
  }

  /** A character entity: `&`, then neither `&` nor `;`, then `;`. */
  predicate Entity(e: string) {
    |e| >= 2 && e[0] == '&' && e[|e| - 1] == ';'
    && forall k :: 0 < k < |e| - 1 ==> e[k] != '&' && e[k] != ';'
  }

  /** A piece of an encoded text: one character other than `&`, or a whole entity. */
  predicate Token(t: string) {
    (|t| == 1 && t[0] != '&') || Entity(t)
  }

  /** `pat` matches `s` at `i`. */
  predicate MatchAt(s: string, pat: string, i: nat) {
    i + |pat| <= |s| && s[i..i + |pat|] == pat
  }

  /** One decoding pass on one token. */
  function Step(t: string, pat: string, rep: string): string {
    if t == pat then rep else t
  }

  /** Swap every token equal to `pat` for `rep`. */
  function Swap(ts: seq<string>, pat: string, rep: string): (r: seq<string>)
    ensures |r| == |ts| && forall k :: 0 <= k < |ts| ==> r[k] == Step(ts[k], pat, rep)
  {
    if ts == [] then [] else [Step(ts[0], pat, rep)] + Swap(ts[1..], pat, rep)
  }

  /** The pattern matches at none of the positions of the prefix `u` of `u + rest`. */
  predicate NoMatchIn(u: string, rest: string, pat: string)
    decreases |u|
  {
    u == [] || (!MatchAt(u + rest, pat, 0) && NoMatchIn(u[1..], rest, pat))
  }

  /** A scan that finds no match at the first character keeps it and goes on from the next one. */
  lemma SkipOne(u: string, rest: string, pat: string, rep: string, r: string)
    requires pat != [] && u != [] && !MatchAt(u + rest, pat, 0)
    requires ReplaceAll(u[1..] + rest, pat, rep) == u[1..] + r
    ensures ReplaceAll(u + rest, pat, rep) == u + r
  {
    var s := u + rest;
    assert s[1..] == u[1..] + rest;
    if |s| >= |pat| {
      assert s[..|pat|] != pat;
    }
    assert u == [u[0]] + u[1..];
  }

  /** Positions without a match, seen position by position. */
  lemma {:induction false} NoMatchFromAll(u: string, rest: string, pat: string)
    requires forall i :: 0 <= i < |u| ==> !MatchAt(u + rest, pat, i)
    ensures NoMatchIn(u, rest, pat)
    decreases |u|
  {
    if u != [] {
      var s := u + rest;
      assert !MatchAt(s, pat, 0);
      assert s[1..] == u[1..] + rest;
      forall i | 0 <= i < |u[1..]|
        ensures !MatchAt(u[1..] + rest, pat, i)
      {
        assert !MatchAt(s, pat, i + 1);
        if i + |pat| <= |s[1..]| {
          assert s[1..][i..i + |pat|] == s[i + 1..i + 1 + |pat|];
        }
      }
      NoMatchFromAll(u[1..], rest, pat);
    }
  }

  /** The scan passes over a prefix at none of whose positions the pattern matches. */
  lemma {:induction false} ReplaceSkips(u: string, rest: string, pat: string, rep: string)
    requires pat != [] && NoMatchIn(u, rest, pat)
    ensures ReplaceAll(u + rest, pat, rep) == u + ReplaceAll(rest, pat, rep)
    decreases |u|
  {
    if u != [] {
      ReplaceSkips(u[1..], rest, pat, rep);
      SkipOne(u, rest, pat, rep, ReplaceAll(rest, pat, rep));
    } else {
      assert u + rest == rest;
    }
  }

  /** An entity other than `pat` never starts a match of `pat`. */
  lemma EntityNotPrefix(t: string, pat: string, rest: string)
    requires Entity(t) && Entity(pat) && t != pat
    ensures !MatchAt(t + rest, pat, 0)
  {
    var s := t + rest;
    if |pat| <= |s| {
      if |pat| < |t| {
        assert s[..|pat|][|pat| - 1] == t[|pat| - 1] != ';';
      } else if |pat| == |t| {
        assert s[..|pat|] == t;
      } else {
        assert s[..|pat|][|t| - 1] == t[|t| - 1] == ';' != pat[|t| - 1];
      }
    }
  }

  /** Decoding one entity over an encoded text swaps exactly the tokens that spell it. */
  lemma {:induction false} ReplaceTokens(ts: seq<string>, pat: string, rep: string)
    requires Entity(pat)
    requires forall k :: 0 <= k < |ts| ==> Token(ts[k])
    ensures ReplaceAll(Concat(ts), pat, rep) == Concat(Swap(ts, pat, rep))
    decreases |ts|
  {
    if ts != [] {
      var t, rest := ts[0], Concat(ts[1..]);
      ReplaceTokens(ts[1..], pat, rep);
      assert Swap(ts, pat, rep)[1..] == Swap(ts[1..], pat, rep);
      if t == pat {
        assert (t + rest)[..|pat|] == pat;
      } else {
        forall i | 0 <= i < |t|
          ensures !MatchAt(t + rest, pat, i)
        {
          if i == 0 && Entity(t) {
            EntityNotPrefix(t, pat, rest);
          } else {
            assert (t + rest)[i] == t[i] != pat[0];
          }
        }
        NoMatchFromAll(t, rest, pat);
        ReplaceSkips(t, rest, pat, rep);
      }
    }
  }

  lemma {:induction false} ConcatSingles(ts: seq<string>, s: string)
    requires |ts| == |s| && forall k :: 0 <= k < |s| ==> ts[k] == [s[k]]
    ensures Concat(ts) == s
  {
    if s != [] {
      ConcatSingles(ts[1..], s[1..]);
    }
  }

  /** The five passes on one token. */
  function StepAll(t: string): string {
    Step(Step(Step(Step(Step(t, "&quot;", "\""), "&#34;", "\""), "&apos;", "'"), "&#39;", "'"), "&amp;", "&")
  }

  lemma EscapedCharDecodes(c: char)
    ensures StepAll(EscapedChar(c)) == [c]
  {
    if c == '&' {
      assert "&amp;" != "&quot;" && "&amp;" != "&#34;" && "&amp;" != "&apos;" && "&amp;" != "&#39;";
    } else if c == '"' {
      assert "\"" != "&#34;" && "\"" != "&apos;" && "\"" != "&#39;" && "\"" != "&amp;";
    } else if c == '\'' {
      assert "&#39;" != "&quot;" && "&#39;" != "&#34;" && "&#39;" != "&apos;";
      assert "'" != "&amp;";
    } else {
      assert [c] != "&quot;" && [c] != "&#34;" && [c] != "&apos;" && [c] != "&#39;" && [c] != "&amp;";
    }
  }

  lemma SwapKeepsTokens(ts: seq<string>, pat: string, rep: string)
    requires Token(rep) && forall k :: 0 <= k < |ts| ==> Token(ts[k])
    ensures forall k :: 0 <= k < |ts| ==> Token(Swap(ts, pat, rep)[k])
  {
  }

  lemma EscapedTokensAreTokens(s: string)
    ensures forall k :: 0 <= k < |s| ==> Token(EscapedTokens(s)[k])
  {
    forall k | 0 <= k < |s|
      ensures Token(EscapedTokens(s)[k])
    {
      var c := s[k];
      if c == '&' {
        assert Entity("&amp;");
      } else if c == '"' {
        assert Entity("&quot;");
      } else if c == '\'' {
        assert Entity("&#39;");
      }
    }
  }

  /** Decoding inverts the attribute encoding of any text. */
  lemma UnescapeInvertsEscape(s: string)
    ensures Unescape(Escape(s)) == s
  {
    var t0 := EscapedTokens(s);
    EscapedTokensAreTokens(s);
    assert Entity("&quot;") && Entity("&#34;") && Entity("&apos;") && Entity("&#39;") && Entity("&amp;");
    assert Token("\"") && Token("'");
    ReplaceTokens(t0, "&quot;", "\"");
    var t1 := Swap(t0, "&quot;", "\"");
    SwapKeepsTokens(t0, "&quot;", "\"");
    ReplaceTokens(t1, "&#34;", "\"");
    var t2 := Swap(t1, "&#34;", "\"");
    SwapKeepsTokens(t1, "&#34;", "\"");
    ReplaceTokens(t2, "&apos;", "'");
    var t3 := Swap(t2, "&apos;", "'");
    SwapKeepsTokens(t2, "&apos;", "'");
    ReplaceTokens(t3, "&#39;", "'");
    var t4 := Swap(t3, "&#39;", "'");
    SwapKeepsTokens(t3, "&#39;", "'");
    ReplaceTokens(t4, "&amp;", "&");
    var t5 := Swap(t4, "&amp;", "&");
    forall k | 0 <= k < |s|
      ensures t5[k] == [s[k]]
    {
      assert t5[k] == StepAll(t0[k]);
      EscapedCharDecodes(s[k]);
    }
    ConcatSingles(t5, s);
  }
}
