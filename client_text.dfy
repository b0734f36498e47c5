/** The string helpers of the browser client (script.js): HTML escaping
    of text before it is shown, and the text handed to LINE once a
    summary has been reached. */
module ClientText {

  // ----- escapeHTML (script.js:326-328) -----

  /** The five characters the client escapes. */
  predicate IsSpecial(c: char) {
    c == '&' || c == '<' || c == '>' || c == '"' || c == '\''
  }

  /** The replacement of one character: an entity for the five special
      characters, the character itself otherwise. */
  function EscapeChar(c: char): (e: string)
    ensures !IsSpecial(c) ==> e == [c]
    ensures IsSpecial(c) ==> |e| >= 4 && e[0] == '&' && e[|e| - 1] == ';'
  {
    match c
    case '&' => "&amp;"
    case '<' => "&lt;"
    case '>' => "&gt;"
    case '"' => "&quot;"
    case '\'' => "&#39;"
    case _ => [c]
  }

  /** No character that could open a tag or close an attribute value. */
  predicate MarkupFree(s: string) {
    forall i :: 0 <= i < |s| ==> s[i] != '<' && s[i] != '>' && s[i] != '"' && s[i] != '\''
  }

  predicate NoSpecials(s: string) {
    forall i :: 0 <= i < |s| ==> !IsSpecial(s[i])
  }

  /** A text is free of special characters when its first character and
      the rest are. */
  lemma NoSpecialsCons(s: string)
    requires s != []
    ensures NoSpecials(s) <==> !IsSpecial(s[0]) && NoSpecials(s[1..])
  {
    if !IsSpecial(s[0]) && NoSpecials(s[1..]) {
      forall i | 1 <= i < |s|
        ensures !IsSpecial(s[i])
      {
        assert s[i] == s[1..][i - 1];
      }
    }
  }

  /** Every character replaced by its escape, left to right. */
  function EscapeHTML(s: string): (r: string)
    ensures MarkupFree(r)
    ensures |r| >= |s|
    ensures NoSpecials(s) ==> r == s
    ensures |r| == |s| ==> NoSpecials(s)
  {
    if s == [] then []
    else
      var head := EscapeChar(s[0]);
      var tail := EscapeHTML(s[1..]);
      NoSpecialsCons(s);
      assert MarkupFree(head + tail) by {
        assert forall i :: 0 <= i < |tail| ==> (head + tail)[|head| + i] == tail[i];
      }
      head + tail
  }

  /** Escaping works character by character, so it distributes over concatenation. */
  lemma {:induction false} EscapeConcat(a: string, b: string)
    ensures EscapeHTML(a + b) == EscapeHTML(a) + EscapeHTML(b)
    decreases |a|
  {
    if a == [] {
      assert a + b == b;
    } else {
      assert (a + b)[0] == a[0];
      assert (a + b)[1..] == a[1..] + b;
      EscapeConcat(a[1..], b);
      calc {
        EscapeHTML(a + b);
        EscapeChar(a[0]) + EscapeHTML(a[1..] + b);
        EscapeChar(a[0]) + (EscapeHTML(a[1..]) + EscapeHTML(b));
        (EscapeChar(a[0]) + EscapeHTML(a[1..])) + EscapeHTML(b);
      }
    }
  }

  /** The character at the front of escaped text and how many characters
      encode it: one of the five entities, or a plain character. */
  function Decoded(s: string): (d: (char, nat))
    requires s != []
    ensures 1 <= d.1 <= |s|
  {
    if |s| >= 5 && s[..5] == "&amp;" then ('&', 5)
    else if |s| >= 4 && s[..4] == "&lt;" then ('<', 4)
    else if |s| >= 4 && s[..4] == "&gt;" then ('>', 4)
    else if |s| >= 6 && s[..6] == "&quot;" then ('"', 6)
    else if |s| >= 5 && s[..5] == "&#39;" then ('\'', 5)
    else (s[0], 1)
  }

  /** The inverse of escaping: each of the five entities back to its
      character; any other character is kept. */
  function Unescape(s: string): string
    decreases |s|
  {
    if s == [] then []
    else
      var d := Decoded(s);
      [d.0] + Unescape(s[d.1..])
  }

  /** An escaped character is decoded back, whatever follows it. */
  lemma DecodedChar(c: char, rest: string)
    ensures Decoded(EscapeChar(c) + rest) == (c, |EscapeChar(c)|)
  {
    var s := EscapeChar(c) + rest;
    match c
    case '&' => assert s[..5] == "&amp;";
    case '<' =>
      assert s[..4] == "&lt;";
      assert |s| >= 5 ==> s[..5][1] == 'l';
    case '>' =>
      assert s[..4] == "&gt;";
      assert |s| >= 5 ==> s[..5][1] == 'g';
      assert s[..4][1] == 'g';
    case '"' =>
      assert s[..6] == "&quot;";
      assert s[..5][1] == 'q' && s[..4][1] == 'q';
    case '\'' =>
      assert s[..5] == "&#39;";
      assert s[..5][1] == '#' && s[..4][1] == '#' && (|s| >= 6 ==> s[..6][1] == '#');
    case _ =>
      assert s[0] == c;
      assert |s| >= 4 ==> s[..4][0] == c;
      assert |s| >= 5 ==> s[..5][0] == c;
      assert |s| >= 6 ==> s[..6][0] == c;
  }

  /** Unescaping undoes one escaped character in front of anything. */
  lemma UnescapeChar(c: char, rest: string)
    ensures Unescape(EscapeChar(c) + rest) == [c] + Unescape(rest)
  {
    var s := EscapeChar(c) + rest;
    DecodedChar(c, rest);
    assert s[|EscapeChar(c)|..] == rest;
  }

  /** Escaping loses nothing: the original text can be recovered. */
  lemma {:induction false} UnescapeEscape(s: string)
    ensures Unescape(EscapeHTML(s)) == s
    decreases |s|
  {
    if s != [] {
      UnescapeChar(s[0], EscapeHTML(s[1..]));
      UnescapeEscape(s[1..]);
      assert [s[0]] + s[1..] == s;
    }
  }

  /** Escaping is injective: different texts are shown differently. */
  lemma EscapeInjective(a: string, b: string)
    requires EscapeHTML(a) == EscapeHTML(b)
    ensures a == b
  {
    UnescapeEscape(a);
    UnescapeEscape(b);
  }

  // ----- buildLinePayload (script.js:26-31) -----

  /** The longest body handed to LINE, and the length it is cut to before the ellipsis. */
  const MaxBody := 480
  const CutBody := 477
  const Ellipsis := '…'
  const AnswerHead := "【回答】"

  /** `【keyword】`, or `【回答】` when no keyword is set. */
  function Head(keyword: string): (h: string)
    ensures keyword != "" ==> |h| == |keyword| + 2 && h[1..|h| - 1] == keyword
    ensures keyword == "" ==> h == AnswerHead
    ensures |h| >= 2 && h[0] == '【' && h[|h| - 1] == '】'
  {
    if keyword != "" then "【" + keyword + "】" else AnswerHead
  }

  /** The summary text, cut to fit the deep link. */
  function TruncateBody(t: string): (r: string)
    ensures |r| <= MaxBody
    ensures |t| <= MaxBody ==> r == t
    ensures |t| > MaxBody ==> |r| == CutBody + 1 && r[..CutBody] == t[..CutBody] && r[CutBody] == Ellipsis
  {
    if |t| > MaxBody then t[..CutBody] + [Ellipsis] else t
  }

  /** The text handed to LINE: the head, a line break, the cut body. */
  function LinePayload(keyword: string, summaryText: string): (r: string)
    ensures var h := Head(keyword);
      && |h| < |r| <= |h| + 1 + MaxBody
      && r[..|h|] == h && r[|h|] == '\n'
      && r[|h| + 1..] == TruncateBody(summaryText)
  {
    var h := Head(keyword);
    var r := h + "\n" + TruncateBody(summaryText);
    assert r[..|h|] == h;
    assert r[|h| + 1..] == TruncateBody(summaryText);
    r
  }

  /** A summary that fits is handed over whole, and the keyword can be
      read back from the head. */
  lemma LinePayloadShort(keyword: string, summaryText: string)
    requires keyword != ""
    requires |summaryText| <= MaxBody
    ensures var r := LinePayload(keyword, summaryText);
      && r[1..|keyword| + 1] == keyword
      && r[|keyword| + 3..] == summaryText
  {
    var r := LinePayload(keyword, summaryText);
    var h := Head(keyword);
    assert r[..|h|] == h;
    assert r[1..|keyword| + 1] == h[1..|h| - 1];
  }
}
