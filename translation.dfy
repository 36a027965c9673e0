/** The mock translation stage: a fixed template per target language, with a
    generic fallback for any other language code. */
module Translation {
  import opened Strings

  /** The language codes the page offers, in the order of its language selector. */
  const Languages: seq<string> :=
    ["hindi", "tamil", "telugu", "malayalam", "bengali", "kannada", "marathi", "gujarati"]

  /** Each language's fixed phrase; the input text follows it in double quotes. */
  const Greetings: map<string, string> := map[
    "hindi" := "नमस्ते, यह एक नमूना अनुवाद है: ",
    "tamil" := "வணக்கம், இது ஒரு மாதிரி மொழிபெயர்ப்பு: ",
    "telugu" := "నమస్కారం, ఇది ఒక నమూనా అనువాదం: ",
    "malayalam" := "നമസ്കാരം, ഇത് ഒരു സാമ്പിൾ വിവർത്തനമാണ്: ",
    "bengali" := "নমস্কার, এটি একটি নমুনা অনুবাদ: ",
    "kannada" := "ನಮಸ್ಕಾರ, ಇದು ಒಂದು ಮಾದರಿ ಅನುವಾದ: ",
    "marathi" := "नमस्कार, हे एक नमुना भाषांतर आहे: ",
    "gujarati" := "નમસ્તે, આ એક નમૂનો અનુવાદ છે: "
  ]

  /** The beginning of the generic result for a language without a template. */
  function FallbackHead(language: string): string
  {
    "Translation to " + language + ": "
  }

  /** `mockTranslations[language] || `Translation to ${language}: ${text}``. */
  function Translate(language: string, text: string): (r: string)
    ensures Occurs(r, text)
    ensures language !in Greetings ==> Occurs(r, language)
  {
    if language in Greetings then
      var head := Greetings[language] + "\"";
      assert OccursAt(head + text + "\"", text, |head|);
      head + text + "\""
    else
      assert OccursAt(FallbackHead(language) + text, text, |FallbackHead(language)|);
      assert OccursAt(FallbackHead(language) + text, language, 15);
      FallbackHead(language) + text
  }

  /** The text a translation result was made from, if `r` has the shape
      `Translate(language, _)` produces. */
  function Recover(language: string, r: string): Option<string>
  {
    if language in Greetings then
      var head := Greetings[language] + "\"";
      if |head| < |r| && r[..|head|] == head && r[|r| - 1] == '"' then Some(r[|head|..|r| - 1]) else None
    else
      var head := FallbackHead(language);
      if |head| <= |r| && r[..|head|] == head then Some(r[|head|..]) else None
  }

  /** Every result gives back the exact text it was made from: the lookup never
      loses, trims or alters the input. */
  lemma RecoverTranslate(language: string, text: string)
    ensures Recover(language, Translate(language, text)) == Some(text)
  {
    var r := Translate(language, text);
    if language in Greetings {
      var head := Greetings[language] + "\"";
      assert r == head + text + "\"";
      assert r[..|head|] == head;
      assert r[|head|..|r| - 1] == text;
    } else {
      var head := FallbackHead(language);
      assert r[..|head|] == head;
      assert r[|head|..] == text;
    }
  }

  /** Conversely, a string that `Recover` accepts is the translation of what it recovers. */
  lemma TranslateRecover(language: string, r: string, text: string)
    requires Recover(language, r) == Some(text)
    ensures Translate(language, text) == r
  {
    if language in Greetings {
      Reassemble(r, Greetings[language] + "\"");
    } else {
      var head := FallbackHead(language);
      assert r == r[..|head|] + r[|head|..];
    }
  }

  /** A string that starts with `head` and ends with a double quote is `head`, the
      part in between, and the quote. */
  lemma Reassemble(r: string, head: string)
    requires |head| < |r| && r[..|head|] == head && r[|r| - 1] == '"'
    ensures head + r[|head|..|r| - 1] + "\"" == r
  {
    assert r == r[..|head|] + r[|head|..|r| - 1] + [r[|r| - 1]];
  }

  /** The eight selectable languages are exactly the ones with a template. */
  lemma EveryLanguageHasTemplate(language: string)
    ensures language in Greetings <==> language in Languages
  {
  }
}
