/** The text the processor derives from a document: what is spoken and shown
    for a new word, the hashtags handed to the uploader, and the Google TTS
    language code. */
module ProcessorText {
  import opened Wrappers
  import opened PyStrings
  import opened PyJson
  import opened Conversations

  /** An entry that only carries an example sentence: order 0, or no word,
      or no meaning. Python's `order == 0` also holds for `False`. */
  predicate ExampleOnly(w: NewWord) {
    EqualsZero(w.order) || w.word == Null || w.meaning == Null
  }

  /** `_prepare_new_word_text`: the example alone, or the word, its meaning
      and the example as one sentence (two spaces after "Example:"). */
  function PrepareNewWordText(w: NewWord): (t: Json)
    ensures ExampleOnly(w) ==> t == w.example
    ensures !ExampleOnly(w) ==> t.Str?
  {
    if ExampleOnly(w) then w.example
    else Str(Display(w.word) + ". Meaning: " + Display(w.meaning) + ". Example:  " + Display(w.example) + ".")
  }

  /** The sentence starts with the word and its meaning and ends with the example. */
  lemma NewWordTextShape(w: NewWord)
    requires !ExampleOnly(w)
    ensures StartsWith(PrepareNewWordText(w).s, Display(w.word) + ". Meaning: " + Display(w.meaning) + ". ")
    ensures EndsWith(PrepareNewWordText(w).s, ". Example:  " + Display(w.example) + ".")
  {
    SentenceShape(Display(w.word), Display(w.meaning), Display(w.example));
  }

  lemma SentenceShape(word: string, meaning: string, example: string)
    ensures var t := word + ". Meaning: " + meaning + ". Example:  " + example + ".";
      StartsWith(t, word + ". Meaning: " + meaning + ". ") && EndsWith(t, ". Example:  " + example + ".")
  {
    var m := word + ". Meaning: " + meaning;
    var e := "Example:  " + example + ".";
    assert ". Example:  " + example + "." == ". " + e;
    assert m + ". Example:  " + example + "." == m + ". " + e;
    Affixes(m, ". ", e);
  }

  /** `a + b + c` starts with `a + b` and ends with `b + c`. */
  lemma Affixes(a: string, b: string, c: string)
    ensures StartsWith(a + b + c, a + b) && EndsWith(a + b + c, b + c)
  {
    var s := a + b + c;
    assert s[..|a + b|] == a + b;
    assert s[|s| - |b + c|..] == b + c;
  }

  /** `_prepare_new_word_slide_content`: the example alone, or the meaning
      and the example separated by a blank line. */
  function PrepareNewWordSlideContent(w: NewWord): (t: Json)
    ensures ExampleOnly(w) ==> t == w.example
    ensures !ExampleOnly(w) ==> t.Str?
  {
    if ExampleOnly(w) then w.example
    else Str("Meaning: " + Display(w.meaning) + "\n\nExample: " + Display(w.example))
  }

  /** The slide shows the meaning, a blank line, then the example. */
  lemma NewWordSlideShape(w: NewWord)
    requires !ExampleOnly(w)
    ensures StartsWith(PrepareNewWordSlideContent(w).s, "Meaning: " + Display(w.meaning) + "\n\n")
    ensures EndsWith(PrepareNewWordSlideContent(w).s, "\n\nExample: " + Display(w.example))
  {
    SlideShape(Display(w.meaning), Display(w.example));
  }

  lemma SlideShape(meaning: string, example: string)
    ensures var t := "Meaning: " + meaning + "\n\nExample: " + example;
      StartsWith(t, "Meaning: " + meaning + "\n\n") && EndsWith(t, "\n\nExample: " + example)
  {
    var m := "Meaning: " + meaning;
    var e := "Example: " + example;
    assert "\n\nExample: " + example == "\n\n" + e;
    assert m + "\n\nExample: " + example == m + "\n\n" + e;
    Affixes(m, "\n\n", e);
  }

  /** Each helper hands back the example itself exactly for the entries that
      only carry an example: a formatted text is always longer than the
      example it ends with, so it never equals the example. */
  lemma {:induction false} NewWordTextsFallBack(w: NewWord)
    ensures PrepareNewWordText(w) == w.example <==> ExampleOnly(w)
    ensures PrepareNewWordSlideContent(w) == w.example <==> ExampleOnly(w)
  {
    if !ExampleOnly(w) && w.example.Str? {
      var t := PrepareNewWordText(w).s;
      var c := PrepareNewWordSlideContent(w).s;
      assert Display(w.example) == w.example.s;
      NewWordTextShape(w);
      NewWordSlideShape(w);
      assert |t| > |w.example.s| by {
        assert EndsWith(t, ". Example:  " + Display(w.example) + ".");
      }
      assert |c| > |w.example.s| by {
        assert EndsWith(c, "\n\nExample: " + Display(w.example));
      }
    }
  }

  predicate StartsWith(s: string, prefix: string) {
    |prefix| <= |s| && s[..|prefix|] == prefix
  }

  /** One tag with its leading '#' characters removed; `lstrip` exists only on strings. */
  function StripHashes(tag: Json): (r: Result<string, PyError>)
    ensures r.Ok? <==> tag.Str?
    ensures r.Ok? ==> r.value == [] || r.value[0] != '#'
    ensures r.Ok? ==> |r.value| <= |tag.s| && r.value == tag.s[|tag.s| - |r.value|..]
    ensures r.Ok? ==> forall i :: 0 <= i < |tag.s| - |r.value| ==> tag.s[i] == '#'
  {
    if tag.Str? then Ok(LStripChar(tag.s, '#'))
    else Err(AttributeError("object has no attribute 'lstrip'"))
  }

  /** `_clean_hashtags`: every tag without its leading '#', in order and one
      per tag; a falsy value (`None`, an empty list) gives `[]`. */
  function CleanHashtags(hashtags: Json): (r: Result<seq<string>, PyError>)
    ensures !Truthy(hashtags) ==> r == Ok([])
    ensures Truthy(hashtags) && r.Ok? ==> Iterate(hashtags).Ok? && |r.value| == |Iterate(hashtags).value|
    ensures Truthy(hashtags) && r.Ok? ==> forall i :: 0 <= i < |r.value| ==>
      Iterate(hashtags).value[i].Str? && r.value[i] == LStripChar(Iterate(hashtags).value[i].s, '#')
    ensures Truthy(hashtags) ==>
      (r.Ok? <==> Iterate(hashtags).Ok? && forall i :: 0 <= i < |Iterate(hashtags).value| ==> Iterate(hashtags).value[i].Str?)
    ensures r.Ok? ==> forall i :: 0 <= i < |r.value| ==> r.value[i] == [] || r.value[i][0] != '#'
  {
    if !Truthy(hashtags) then Ok([])
    else
      var tags :- Iterate(hashtags);
      MapResult(tags, StripHashes)
  }

  function AsStrings(tags: seq<string>): (r: seq<Json>)
    ensures |r| == |tags| && forall i :: 0 <= i < |tags| ==> r[i] == Str(tags[i])
  {
    seq(|tags|, i requires 0 <= i < |tags| => Str(tags[i]))
  }

  /** Cleaning is idempotent: cleaning the cleaned tags changes nothing. */
  lemma CleanHashtagsIdempotent(hashtags: Json)
    requires CleanHashtags(hashtags).Ok?
    ensures CleanHashtags(Arr(AsStrings(CleanHashtags(hashtags).value))) == CleanHashtags(hashtags)
  {
    var tags := CleanHashtags(hashtags).value;
    if tags != [] {
      CleanTagsStay(tags);
    }
  }

  /** Tags without a leading '#' clean to themselves. */
  lemma CleanTagsStay(tags: seq<string>)
    requires tags != []
    requires forall i :: 0 <= i < |tags| ==> tags[i] == [] || tags[i][0] != '#'
    ensures CleanHashtags(Arr(AsStrings(tags))) == Ok(tags)
  {
    var items := AsStrings(tags);
    assert Iterate(Arr(items)) == Ok(items);
    forall i | 0 <= i < |items|
      ensures StripHashes(items[i]) == Ok(tags[i])
    {
      assert LStripChar(tags[i], '#') == tags[i];
    }
    var m := MapResult(items, StripHashes);
    assert m.Ok?;
    assert m.value == tags;
  }

  /** A tag written with any number of leading '#' cleans to the bare tag. */
  lemma CleanHashtagsOf(tags: seq<string>, hashes: seq<nat>)
    requires |hashes| == |tags|
    requires forall i :: 0 <= i < |tags| ==> tags[i] == [] || tags[i][0] != '#'
    ensures CleanHashtags(Arr(seq(|tags|, i requires 0 <= i < |tags| => Str(seq(hashes[i], _ => '#') + tags[i])))) == Ok(tags)
  {
    var written := seq(|tags|, i requires 0 <= i < |tags| => Str(seq(hashes[i], _ => '#') + tags[i]));
    forall i | 0 <= i < |tags|
      ensures LStripChar(written[i].s, '#') == tags[i]
    {
      LStripHashes(hashes[i], tags[i]);
    }
    if tags != [] {
      var r := CleanHashtags(Arr(written));
      assert r.Ok?;
      assert r.value == tags;
    }
  }

  lemma {:induction false} LStripHashes(k: nat, t: string)
    requires t == [] || t[0] != '#'
    ensures LStripChar(seq(k, _ => '#') + t, '#') == t
  {
    if k > 0 {
      var s := seq(k, _ => '#') + t;
      assert s[1..] == seq(k - 1, _ => '#') + t;
      LStripHashes(k - 1, t);
    } else {
      assert seq(k, _ => '#') + t == t;
    }
  }

  /** The languages Google TTS is configured for, and their codes. */
  const LANGUAGE_CODES: map<string, string> := map["English" := "en-US", "French" := "fr-FR", "Spanish" := "es-ES"]

  /** `_get_language_code`: the document language's code, else the default
      language's. The default is looked up first and must be in the table;
      a list or dict as language cannot be hashed. */
  function LanguageCode(language: Json, defaultLanguage: string): (r: Result<string, PyError>)
    ensures r.Ok? <==> defaultLanguage in LANGUAGE_CODES && Hashable(language)
    ensures r.Ok? ==> r.value in LANGUAGE_CODES.Values
    ensures r.Ok? && language.Str? && language.s in LANGUAGE_CODES ==> r.value == LANGUAGE_CODES[language.s]
    ensures r.Ok? && !(language.Str? && language.s in LANGUAGE_CODES) ==> r.value == LANGUAGE_CODES[defaultLanguage]
  {
    if defaultLanguage !in LANGUAGE_CODES then Err(KeyError(defaultLanguage))
    else if !Hashable(language) then Err(TypeError("unhashable type"))
    else if language.Str? && language.s in LANGUAGE_CODES then Ok(LANGUAGE_CODES[language.s])
    else Ok(LANGUAGE_CODES[defaultLanguage])
  }

  /** The code names the language it came from: no two languages share one,
      so a document in a listed language is never read in another. */
  lemma LanguageCodeIdentifies(language: string, defaultLanguage: string)
    requires defaultLanguage in LANGUAGE_CODES
    ensures LanguageCode(Str(language), defaultLanguage).Ok?
    ensures var code := LanguageCode(Str(language), defaultLanguage).value;
      forall l :: l in LANGUAGE_CODES && LANGUAGE_CODES[l] == code ==>
        l == (if language in LANGUAGE_CODES then language else defaultLanguage)
  {
  }
}
