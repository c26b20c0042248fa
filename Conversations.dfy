/** The document a lesson video is made from: its speakers, its conversation
    lines and its new words, built from an already parsed JSON value. The
    constructor reads the value with `dict.get`, subscripting, iteration and
    keyword expansion, and every way those can raise is an `Err` here. */
module Conversations {
  import opened Wrappers
  import opened PyJson

  /** A speaker. Speakers taken from the document's speaker table have a
      string name; a line may name an unlisted speaker by any JSON value. */
  datatype Speaker = Speaker(name: Json, gender: Json)

  /** One line of the conversation. `slide`, `video`, `audioLength` and
      `audio` are `Null` (Python's `None`) until the media pipeline fills them. */
  datatype Conversation = Conversation(
    order: Json, speaker: Speaker, text: Json,
    slide: Json, video: Json, audioLength: Json, audio: Json)

  /** One new-word entry: exactly the four keyword arguments of the constructor. */
  datatype NewWord = NewWord(order: Json, word: Json, meaning: Json, example: Json)

  /** The `Conversations` object. The three merge results are attributes the
      constructor does not create; `None` stands for an attribute not set yet. */
  datatype Document = Document(
    topic: Json, description: Json, title: Json, audience: Json,
    level: Json, category: Json, language: Json, hashtags: Json,
    speakers: seq<(string, Speaker)>,
    conversations: seq<Conversation>,
    newWords: seq<NewWord>,
    mergedVideoConversations: Option<string>,
    mergedVideoNewWords: Option<string>,
    mergedVideoAll: Option<string>)

  const UNKNOWN: Json := Str("unknown")

  /** The speaker table's entries each name their own key. */
  predicate NamedTable(speakers: seq<(string, Speaker)>) {
    forall i :: 0 <= i < |speakers| ==> speakers[i].1.name == Str(speakers[i].0)
  }

  predicate DistinctNames(speakers: seq<(string, Speaker)>) {
    forall i, j :: 0 <= i < j < |speakers| ==> speakers[i].0 != speakers[j].0
  }

  /** The speaker table entry for `key`, if any. */
  function LookupSpeaker(speakers: seq<(string, Speaker)>, key: string): (r: Option<Speaker>)
    ensures r.Some? ==> exists i :: 0 <= i < |speakers| && speakers[i] == (key, r.value)
    ensures r.None? ==> forall i :: 0 <= i < |speakers| ==> speakers[i].0 != key
  {
    if speakers == [] then None
    else if speakers[0].0 == key then Some(speakers[0].1)
    else
      var r := LookupSpeaker(speakers[1..], key);
      assert r.Some? ==> exists i :: 0 <= i < |speakers[1..]| && speakers[1..][i] == (key, r.value);
      r
  }

  /** `speakers.get(name, Speaker(name, "unknown"))`, which the constructor
      uses for every line and `get_speaker` exposes: the table's speaker, or a
      fresh speaker of unknown gender; the table itself is never extended. */
  function GetSpeaker(speakers: seq<(string, Speaker)>, name: Json): (r: Result<Speaker, PyError>)
    ensures r.Err? <==> !Hashable(name)
    ensures r.Ok? && name.Str? && LookupSpeaker(speakers, name.s).Some? ==>
      exists i :: 0 <= i < |speakers| && speakers[i] == (name.s, r.value)
    ensures r.Ok? && !(name.Str? && LookupSpeaker(speakers, name.s).Some?) ==>
      r.value == Speaker(name, UNKNOWN)
    ensures r.Ok? && NamedTable(speakers) ==> r.value.name == name
  {
    if !Hashable(name) then Err(TypeError("unhashable type"))
    else if name.Str? then
      match LookupSpeaker(speakers, name.s)
      case Some(s) => Ok(s)
      case None => Ok(Speaker(name, UNKNOWN))
    else Ok(Speaker(name, UNKNOWN))
  }

  /** One entry of the speaker table: the key and a speaker of that name,
      the gender defaulting to "unknown". A details value that is not an
      object has no `get` and raises AttributeError. */
  function SpeakerEntry(entry: (string, Json)): (r: Result<(string, Speaker), PyError>)
    ensures r.Ok? <==> entry.1.Obj?
    ensures r.Ok? ==> r.value.0 == entry.0 && r.value.1.name == Str(entry.0)
    ensures r.Ok? ==> r.value.1.gender == Get(entry.1.fields, "gender", UNKNOWN)
  {
    if entry.1.Obj? then Ok((entry.0, Speaker(Str(entry.0), Get(entry.1.fields, "gender", UNKNOWN))))
    else Err(AttributeError("object has no attribute 'get'"))
  }

  /** The speaker table: one entry per key of the `speakers` object, in its
      order; the names are distinct because the keys are, and each entry's
      speaker carries its key as name. */
  lemma SpeakerTable(entries: seq<(string, Json)>)
    requires DistinctKeys(entries)
    requires MapResult(entries, SpeakerEntry).Ok?
    ensures NamedTable(MapResult(entries, SpeakerEntry).value)
    ensures DistinctNames(MapResult(entries, SpeakerEntry).value)
  {
    var t := MapResult(entries, SpeakerEntry).value;
    assert forall i :: 0 <= i < |t| ==> t[i] == SpeakerEntry(entries[i]).value;
  }

  /** One conversation line: `order`, `speaker` and `text` must be present,
      the other fields default to `None`. */
  function ConversationFrom(item: Json, speakers: seq<(string, Speaker)>): (r: Result<Conversation, PyError>)
    ensures r.Ok? <==>
      && item.Obj?
      && Lookup(item.fields, "order").Some?
      && Lookup(item.fields, "speaker").Some?
      && Hashable(Lookup(item.fields, "speaker").value)
      && Lookup(item.fields, "text").Some?
    ensures r.Ok? ==>
      && r.value.order == Lookup(item.fields, "order").value
      && r.value.text == Lookup(item.fields, "text").value
      && r.value.speaker == GetSpeaker(speakers, Lookup(item.fields, "speaker").value).value
      && r.value.slide == Get(item.fields, "slide", Null)
      && r.value.video == Get(item.fields, "video", Null)
      && r.value.audioLength == Get(item.fields, "audio_length", Null)
      && r.value.audio == Get(item.fields, "audio", Null)
  {
    if !item.Obj? then Err(TypeError("indices must be integers"))
    else
      var f := item.fields;
      match Lookup(f, "order")
      case None => Err(KeyError("order"))
      case Some(order) =>
        match Lookup(f, "speaker")
        case None => Err(KeyError("speaker"))
        case Some(name) =>
          match GetSpeaker(speakers, name)
          case Err(e) => Err(e)
          case Ok(speaker) =>
            match Lookup(f, "text")
            case None => Err(KeyError("text"))
            case Some(text) =>
              Ok(Conversation(order, speaker, text,
                Get(f, "slide", Null), Get(f, "video", Null),
                Get(f, "audio_length", Null), Get(f, "audio", Null)))
  }

  const NEW_WORD_KEYS: set<string> := {"order", "word", "meaning", "example"}

  /** `NewWord(**word)`: the item must be a mapping whose keys are exactly the
      four parameters; a missing or an extra key raises TypeError. */
  function NewWordFrom(item: Json): (r: Result<NewWord, PyError>)
    ensures r.Ok? <==> item.Obj? && KeySet(item.fields) == NEW_WORD_KEYS
    ensures r.Ok? ==>
      && Lookup(item.fields, "order") == Some(r.value.order)
      && Lookup(item.fields, "word") == Some(r.value.word)
      && Lookup(item.fields, "meaning") == Some(r.value.meaning)
      && Lookup(item.fields, "example") == Some(r.value.example)
  {
    if !item.Obj? then Err(TypeError("argument after ** must be a mapping"))
    else if KeySet(item.fields) != NEW_WORD_KEYS then Err(TypeError("unexpected or missing keyword argument"))
    else
      var f := item.fields;
      assert "order" in KeySet(f) && "word" in KeySet(f) && "meaning" in KeySet(f) && "example" in KeySet(f);
      Ok(NewWord(Lookup(f, "order").value, Lookup(f, "word").value,
                 Lookup(f, "meaning").value, Lookup(f, "example").value))
  }

  /** The speaker table `{name: Speaker(name, details.get("gender", "unknown"))}`
      built from `data.get("speakers", {}).items()`. */
  function SpeakerTableOf(f: seq<(string, Json)>): (r: Result<seq<(string, Speaker)>, PyError>)
    ensures r.Ok? ==> Get(f, "speakers", Obj([])).Obj?
    ensures r.Ok? ==> |r.value| == |Get(f, "speakers", Obj([])).fields|
    ensures r.Ok? ==> forall i :: 0 <= i < |r.value| ==> r.value[i].0 == Get(f, "speakers", Obj([])).fields[i].0
    ensures r.Ok? ==> NamedTable(r.value)
  {
    var table := Get(f, "speakers", Obj([]));
    if !table.Obj? then Err(AttributeError("object has no attribute 'items'"))
    else MapResult(table.fields, SpeakerEntry)
  }

  /** The lines built from `data.get("conversations", [])`, in order. */
  function LinesOf(f: seq<(string, Json)>, speakers: seq<(string, Speaker)>): (r: Result<seq<Conversation>, PyError>)
    ensures r.Ok? ==> Iterate(Get(f, "conversations", Arr([]))).Ok?
    ensures r.Ok? ==> |r.value| == |Iterate(Get(f, "conversations", Arr([]))).value|
    ensures r.Ok? ==> forall i :: 0 <= i < |r.value| ==>
      ConversationFrom(Iterate(Get(f, "conversations", Arr([]))).value[i], speakers) == Ok(r.value[i])
  {
    var lines :- Iterate(Get(f, "conversations", Arr([])));
    MapResult(lines, item => ConversationFrom(item, speakers))
  }

  /** The new words built from `data.get("new_words", [])`, in order. */
  function WordsOf(f: seq<(string, Json)>): (r: Result<seq<NewWord>, PyError>)
    ensures r.Ok? ==> Iterate(Get(f, "new_words", Arr([]))).Ok?
    ensures r.Ok? ==> |r.value| == |Iterate(Get(f, "new_words", Arr([]))).value|
    ensures r.Ok? ==> forall i :: 0 <= i < |r.value| ==>
      NewWordFrom(Iterate(Get(f, "new_words", Arr([]))).value[i]) == Ok(r.value[i])
  {
    var words :- Iterate(Get(f, "new_words", Arr([])));
    MapResult(words, NewWordFrom)
  }

  /** `Conversations.__init__` on the parsed value `data`. */
  function FromJson(data: Json): (r: Result<Document, PyError>)
    ensures r.Ok? ==> data.Obj?
    ensures r.Ok? ==> NamedTable(r.value.speakers)
    ensures r.Ok? ==> r.value.mergedVideoConversations.None? && r.value.mergedVideoNewWords.None? && r.value.mergedVideoAll.None?
  {
    if !data.Obj? then Err(AttributeError("object has no attribute 'get'"))
    else
      var f := data.fields;
      var speakers :- SpeakerTableOf(f);
      var conversations :- LinesOf(f, speakers);
      var newWords :- WordsOf(f);
      Ok(Document(
        Get(f, "topic", Null), Get(f, "description", Null), Get(f, "title", Null),
        Get(f, "audience", Null), Get(f, "level", Null), Get(f, "category", Null),
        Get(f, "language", Null), Get(f, "hashtags", Arr([])),
        speakers, conversations, newWords, None, None, None))
  }

  /** What the constructor builds, element by element: one speaker per table
      key in the table's order, one line per conversation item and one new
      word per entry, each in input order, and every line's speaker carries
      the name the line gave. */
  lemma FromJsonShape(data: Json)
    requires FromJson(data).Ok?
    ensures var d := FromJson(data).value;
      var f := data.fields;
      && Get(f, "speakers", Obj([])).Obj?
      && |d.speakers| == |Get(f, "speakers", Obj([])).fields|
      && (forall i :: 0 <= i < |d.speakers| ==> d.speakers[i].0 == Get(f, "speakers", Obj([])).fields[i].0)
      && Iterate(Get(f, "conversations", Arr([]))).Ok?
      && |d.conversations| == |Iterate(Get(f, "conversations", Arr([]))).value|
      && (forall i :: 0 <= i < |d.conversations| ==>
            var item := Iterate(Get(f, "conversations", Arr([]))).value[i];
            item.Obj? && d.conversations[i].speaker.name == Lookup(item.fields, "speaker").value
            && d.conversations[i].order == Lookup(item.fields, "order").value)
      && Iterate(Get(f, "new_words", Arr([]))).Ok?
      && |d.newWords| == |Iterate(Get(f, "new_words", Arr([]))).value|
      && (forall i :: 0 <= i < |d.newWords| ==>
            var item := Iterate(Get(f, "new_words", Arr([]))).value[i];
            item.Obj? && Lookup(item.fields, "word") == Some(d.newWords[i].word)
            && Lookup(item.fields, "example") == Some(d.newWords[i].example))
  {
    var d := FromJson(data).value;
    var f := data.fields;
    var speakers := SpeakerTableOf(f).value;
    assert d.speakers == speakers;
    assert d.conversations == LinesOf(f, speakers).value;
    assert d.newWords == WordsOf(f).value;
    var lines := Iterate(Get(f, "conversations", Arr([]))).value;
    forall i | 0 <= i < |d.conversations|
      ensures lines[i].Obj? && d.conversations[i].speaker.name == Lookup(lines[i].fields, "speaker").value
    {
      assert ConversationFrom(lines[i], speakers) == Ok(d.conversations[i]);
    }
  }

  /** A document with no `speakers`, `conversations`, `new_words` or
      `hashtags` key gets empty collections for all four. */
  lemma FromJsonMissingKeys(data: Json)
    requires data.Obj?
    requires forall k :: k in {"speakers", "conversations", "new_words", "hashtags"} ==> k !in KeySet(data.fields)
    ensures FromJson(data).Ok?
    ensures FromJson(data).value.speakers == []
    ensures FromJson(data).value.conversations == []
    ensures FromJson(data).value.newWords == []
    ensures FromJson(data).value.hashtags == Arr([])
  {
    var f := data.fields;
    assert Lookup(f, "speakers").None? && Lookup(f, "conversations").None?;
    assert Lookup(f, "new_words").None? && Lookup(f, "hashtags").None?;
  }

  /** A line's speaker is looked up, never added: looking a name up gives the
      table's speaker when listed and an "unknown" speaker otherwise, and
      the name is kept either way. */
  lemma GetSpeakerKeepsName(speakers: seq<(string, Speaker)>, name: string)
    requires NamedTable(speakers)
    ensures GetSpeaker(speakers, Str(name)).Ok?
    ensures GetSpeaker(speakers, Str(name)).value.name == Str(name)
    ensures (forall i :: 0 <= i < |speakers| ==> speakers[i].0 != name) ==>
      GetSpeaker(speakers, Str(name)).value.gender == UNKNOWN
  {
    if forall i :: 0 <= i < |speakers| ==> speakers[i].0 != name {
      assert LookupSpeaker(speakers, name).None?;
    }
  }
}
