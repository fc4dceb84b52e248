/** The markup helpers of the older renderer: the row id of a home-screen
    category, and the `onclick` attribute of a song card, which carries the
    song as JSON inside a single-quoted attribute. */
module LegacyCards {
  import opened JsValues
  import Catalog

  /** The categories of the home screen, in display order. */
  const HomeCategories: seq<string> := [
    "Malayalam", "English", "Hindi", "Tamil", "Telugu", "Punjabi",
    "Pop", "K-Pop", "Chill", "Romantic", "Marathi"
  ]

  /** The home screen asks for exactly the categories the main process has a
      query for. */
  lemma HomeCategoriesAreMapped()
    ensures forall c :: c in HomeCategories <==> c in Catalog.QueryMap
  {
  }

  /** `cat.replace(/\s+/g, "").replace(/-/g, "")`. */
  function SafeCatId(category: string): string {
    RemoveChar(RemoveWhitespace(category), '-')
  }

  /** The id holds no whitespace and no `-`, only characters of the category,
      and every other character of the category survives. */
  lemma SafeCatIdCharacters(category: string)
    ensures forall i :: 0 <= i < |SafeCatId(category)| ==>
      var c := SafeCatId(category)[i]; !IsWhitespace(c) && c != '-' && c in category
    ensures forall i :: 0 <= i < |category| && !IsWhitespace(category[i]) && category[i] != '-' ==>
      category[i] in SafeCatId(category)
  {
    var w := RemoveWhitespace(category);
    forall i | 0 <= i < |SafeCatId(category)|
      ensures !IsWhitespace(SafeCatId(category)[i])
    {
      var c := SafeCatId(category)[i];
      var k :| 0 <= k < |w| && w[k] == c;
    }
    forall i | 0 <= i < |category| && !IsWhitespace(category[i]) && category[i] != '-'
      ensures category[i] in SafeCatId(category)
    {
      var k :| 0 <= k < |w| && w[k] == category[i];
    }
  }

  // ---------------------------------------------------------------------
  // The card's onclick attribute

  /** `s.replace(/"/g, "&quot;")`. */
  function EscapeQuotes(s: string): string {
    ReplaceChar(s, '"', "&quot;")
  }

  /** No raw double quote is left after escaping, and every other character
      of the input is still there. When the text holds no `&`, the browser's
      decoding of the attribute gives back exactly the text: each `"` became
      `&quot;` and nothing else changed. */
  lemma EscapeQuotesRemovesQuotes(s: string)
    ensures '"' !in EscapeQuotes(s)
    ensures forall d :: d in s && d != '"' ==> d in EscapeQuotes(s)
    ensures '&' !in s ==> DecodeReferences(EscapeQuotes(s)) == s
  {
    if '&' !in s {
      EscapeQuotesDecodes(s);
    }
  }

  lemma {:induction false} EscapeQuotesDecodes(s: string)
    requires '&' !in s
    ensures DecodeReferences(EscapeQuotes(s)) == s
    decreases |s|
  {
    if s != [] {
      var rest := EscapeQuotes(s[1..]);
      EscapeQuotesDecodes(s[1..]);
      var c := s[0];
      if c == '"' {
        var x := "&quot;" + rest;
        assert EscapeQuotes(s) == x;
        assert x[1] == 'q';
        assert x[..5] != "&amp;";
        assert x[..6] == "&quot;" && x[6..] == rest;
      } else {
        var x := [c] + rest;
        assert EscapeQuotes(s) == x;
        assert x[0] == c && c != '&';
        assert x[1..] == rest;
      }
      assert s == [c] + s[1..];
    }
  }

  /** The script the click should run: `playSongFromQueue(<json>, <index>, "<source>")`. */
  function CallText(songJson: string, index: nat, source: string): string {
    "playSongFromQueue(" + songJson + ", " + NatText(index) + ", \"" + source + "\")"
  }

  /** The attribute value as the renderer writes it: only double quotes are
      escaped, in the JSON and in the source key (`queueSource || ""`). The
      value is delimited by single quotes. */
  function OnclickAsWritten(songJson: string, index: nat, source: Option<string>): string {
    CallText(EscapeQuotes(songJson), index, EscapeQuotes(Or(source, Some("")).value))
  }

  /** An apostrophe anywhere in the serialised song (a title such as
      "Don't Stop") survives into the attribute value, where the HTML parser
      takes it as the closing delimiter and cuts the script short. */
  lemma AsWrittenLeaksApostrophe(songJson: string, index: nat, source: Option<string>)
    requires '\'' in songJson
    ensures '\'' in OnclickAsWritten(songJson, index, source)
  {
    var e := EscapeQuotes(songJson);
    assert '\'' in e;
    var k :| 0 <= k < |e| && e[k] == '\'';
    assert OnclickAsWritten(songJson, index, source)[18 + k] == '\'';
  }

  /** A concrete record that shows it. */
  lemma ApostropheTitleExample()
    ensures '\'' in OnclickAsWritten("{\"title\":\"Don't Stop\"}", 0, Some("__search__"))
  {
    var json := "{\"title\":\"Don't Stop\"}";
    assert json[13] == '\'';
    AsWrittenLeaksApostrophe(json, 0, Some("__search__"));
  }

  /** The escaping the attribute needs: `&`, `"` and `'` become character
      references, everything else is kept. */
  function EscapeAttribute(s: string): string {
    if s == [] then []
    else EscapeChar(s[0]) + EscapeAttribute(s[1..])
  }

  function EscapeChar(c: char): string {
    if c == '&' then "&amp;"
    else if c == '"' then "&quot;"
    else if c == '\'' then "&#39;"
    else [c]
  }

  /** The browser's decoding of character references in an attribute value,
      for the three references the escaper produces; any other `&` is kept. */
  function DecodeReferences(s: string): string
    decreases |s|
  {
    if |s| >= 5 && s[..5] == "&amp;" then "&" + DecodeReferences(s[5..])
    else if |s| >= 6 && s[..6] == "&quot;" then "\"" + DecodeReferences(s[6..])
    else if |s| >= 5 && s[..5] == "&#39;" then "'" + DecodeReferences(s[5..])
    else if s == [] then []
    else [s[0]] + DecodeReferences(s[1..])
  }

  /** The corrected attribute value: the whole script, escaped. */
  function Onclick(songJson: string, index: nat, source: Option<string>): string {
    EscapeAttribute(CallText(songJson, index, Or(source, Some("")).value))
  }

  /** The escaped text contains neither quote character. */
  lemma {:induction false} EscapeAttributeHasNoQuotes(s: string)
    ensures '\'' !in EscapeAttribute(s) && '"' !in EscapeAttribute(s)
    decreases |s|
  {
    if s != [] {
      EscapeAttributeHasNoQuotes(s[1..]);
    }
  }

  /** Decoding the escaped text gives back the text. */
  lemma {:induction false} EscapeAttributeRoundTrip(s: string)
    ensures DecodeReferences(EscapeAttribute(s)) == s
    decreases |s|
  {
    if s != [] {
      var rest := EscapeAttribute(s[1..]);
      var x := EscapeChar(s[0]) + rest;
      assert EscapeAttribute(s) == x;
      EscapeAttributeRoundTrip(s[1..]);
      var c := s[0];
      if c == '&' {
        assert x[..5] == "&amp;" && x[5..] == rest;
      } else if c == '"' {
        assert x[1] == 'q';
        assert x[..5] != "&amp;";
        assert x[..6] == "&quot;" && x[6..] == rest;
      } else if c == '\'' {
        assert x[1] == '#';
        assert x[..5] != "&amp;";
        assert |x| >= 6 ==> x[..6] != "&quot;";
        assert x[..5] == "&#39;" && x[5..] == rest;
      } else {
        assert x[0] == c;
        assert x[1..] == rest;
      }
      assert s == [c] + s[1..];
    }
  }

  /** With the corrected escaping, the attribute cannot be closed early and
      the browser hands exactly the intended script to the click handler,
      whatever the record holds. */
  lemma OnclickRunsTheCall(songJson: string, index: nat, source: Option<string>)
    ensures '\'' !in Onclick(songJson, index, source)
    ensures DecodeReferences(Onclick(songJson, index, source)) == CallText(songJson, index, Or(source, Some("")).value)
  {
    var call := CallText(songJson, index, Or(source, Some("")).value);
    EscapeAttributeHasNoQuotes(call);
    EscapeAttributeRoundTrip(call);
  }
}
