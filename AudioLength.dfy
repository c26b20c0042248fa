/** Back-filling audio lengths into a conversation file
    (`tts/AudioLengthProcessor.py`): the MP3 files next to the JSON file give
    one length per file name, and every conversation line gets the length of
    the file named after its order and speaker, or 0. */
module AudioLength {
  import opened Wrappers
  import opened PyStrings
  import opened PyPath
  import opened PyJson

  /** An entry of the audio directory's listing: its name, and the length
      in milliseconds its MP3 header gives. */
  type Entry = (string, nat)

  predicate IsMp3Name(name: string) {
    EndsWith(name, ".mp3")
  }

  /** The dictionary the listing loop builds: one key per `.mp3` name, a
      later entry overwriting an earlier one of the same name. */
  function Mp3Lengths(listing: seq<Entry>): map<string, nat> {
    if listing == [] then map[]
    else
      var lengths := Mp3Lengths(listing[..|listing| - 1]);
      var e := listing[|listing| - 1];
      if IsMp3Name(e.0) then lengths[e.0 := e.1] else lengths
  }

  /** The keys are exactly the listed names that end in `.mp3`. */
  lemma {:induction false} Mp3LengthsKeys(listing: seq<Entry>, name: string)
    ensures name in Mp3Lengths(listing) <==>
      IsMp3Name(name) && exists i :: 0 <= i < |listing| && listing[i].0 == name
  {
    if listing != [] {
      var init := listing[..|listing| - 1];
      Mp3LengthsKeys(init, name);
      if exists i :: 0 <= i < |init| && init[i].0 == name {
        var i :| 0 <= i < |init| && init[i].0 == name;
        assert listing[i] == init[i];
      }
      if exists i :: 0 <= i < |listing| && listing[i].0 == name {
        var i :| 0 <= i < |listing| && listing[i].0 == name;
        if i < |init| {
          assert init[i] == listing[i];
        }
      }
    }
  }

  /** A listed `.mp3` file's key holds its length, when no later entry has
      the same name (a directory listing never repeats a name). */
  lemma {:induction false} Mp3LengthsValue(listing: seq<Entry>, i: nat)
    requires i < |listing| && IsMp3Name(listing[i].0)
    requires forall j :: i < j < |listing| ==> listing[j].0 != listing[i].0
    ensures listing[i].0 in Mp3Lengths(listing)
    ensures Mp3Lengths(listing)[listing[i].0] == listing[i].1
  {
    var init := listing[..|listing| - 1];
    if i < |listing| - 1 {
      assert init[i] == listing[i];
      Mp3LengthsValue(init, i);
    }
  }

  /** The name of a line's audio file: `f"{order}_{speaker}.mp3"`. */
  function AudioFileName(order: Json, speaker: Json): string {
    Display(order) + "_" + Display(speaker) + ".mp3"
  }

  /** `audio_lengths.get(name, 0)`. */
  function LengthOf(lengths: map<string, nat>, name: string): nat {
    if name in lengths then lengths[name] else 0
  }

  /** One line of the loop: the line must be a mapping with `order` and
      `speaker`, and gets its `audio_length` set. */
  function WithAudioLength(item: Json, lengths: map<string, nat>): (r: Result<Json, PyError>)
    ensures r.Ok? <==> item.Obj? && Lookup(item.fields, "order").Some? && Lookup(item.fields, "speaker").Some?
  {
    if !item.Obj? then Err(TypeError("indices must be integers"))
    else
      var f := item.fields;
      match Lookup(f, "order")
      case None => Err(KeyError("order"))
      case Some(order) =>
        match Lookup(f, "speaker")
        case None => Err(KeyError("speaker"))
        case Some(speaker) =>
          Ok(Obj(SetKey(f, "audio_length", Num(LengthOf(lengths, AudioFileName(order, speaker))))))
  }

  /** An updated line holds the length of its audio file, or 0, under
      `audio_length`, and every other key as before. */
  lemma WithAudioLengthSets(item: Json, lengths: map<string, nat>)
    requires WithAudioLength(item, lengths).Ok?
    ensures var out := WithAudioLength(item, lengths).value;
      && out.Obj? && KeySet(out.fields) == KeySet(item.fields) + {"audio_length"}
      && Lookup(out.fields, "audio_length") ==
           Some(Num(LengthOf(lengths, AudioFileName(Lookup(item.fields, "order").value, Lookup(item.fields, "speaker").value))))
      && (forall k :: k != "audio_length" ==> Lookup(out.fields, k) == Lookup(item.fields, k))
  {
    var f := item.fields;
    var v := Num(LengthOf(lengths, AudioFileName(Lookup(f, "order").value, Lookup(f, "speaker").value)));
    SetKeyLookup(f, "audio_length", v);
    SetKeyKeys(f, "audio_length", v);
  }

  /** The per-line step of the loop, for a given table of lengths. */
  function LineStep(lengths: map<string, nat>): Json -> Result<Json, PyError> {
    item => WithAudioLength(item, lengths)
  }

  /** The loop over the lines, up to the first that raises. */
  function Backfilled(items: seq<Json>, step: Json -> Result<Json, PyError>): (r: Result<seq<Json>, PyError>)
    ensures r.Ok? ==> |r.value| == |items|
  {
    if items == [] then Ok([])
    else
      var init :- Backfilled(items[..|items| - 1], step);
      var last :- step(items[|items| - 1]);
      Ok(init + [last])
  }

  /** The loop completes exactly when every line can be updated. */
  lemma {:induction false} BackfilledOk(items: seq<Json>, step: Json -> Result<Json, PyError>)
    ensures Backfilled(items, step).Ok? <==> forall i :: 0 <= i < |items| ==> step(items[i]).Ok?
  {
    if items != [] {
      var init := items[..|items| - 1];
      BackfilledOk(init, step);
      assert forall i :: 0 <= i < |init| ==> init[i] == items[i];
    }
  }

  /** The loop keeps the lines in order and updates each one alone. */
  lemma {:induction false} BackfilledItems(items: seq<Json>, step: Json -> Result<Json, PyError>)
    requires Backfilled(items, step).Ok?
    ensures forall i :: 0 <= i < |items| ==> step(items[i]) == Ok(Backfilled(items, step).value[i])
  {
    if items != [] {
      var init := items[..|items| - 1];
      BackfilledItems(init, step);
      forall i | 0 <= i < |items|
        ensures step(items[i]) == Ok(Backfilled(items, step).value[i])
      {
        if i < |init| {
          assert init[i] == items[i];
        }
      }
    }
  }

  /** A line that raises stops the loop with its exception, when every
      earlier line could be updated. */
  lemma {:induction false} BackfilledFirstError(items: seq<Json>, step: Json -> Result<Json, PyError>, i: nat)
    requires i < |items| && step(items[i]).Err?
    requires forall j :: 0 <= j < i ==> step(items[j]).Ok?
    ensures Backfilled(items, step) == Err(step(items[i]).error)
  {
    var init := items[..|items| - 1];
    if i < |items| - 1 {
      assert init[i] == items[i];
      assert forall j :: 0 <= j < i ==> init[j] == items[j];
      BackfilledFirstError(init, step, i);
    } else {
      BackfilledOk(init, step);
      assert forall j :: 0 <= j < |init| ==> init[j] == items[j];
    }
  }

  /** The document after the loop: `data.get("conversations", [])` needs a
      mapping; a list of lines is updated where it stands, and a missing
      key leaves the document as it was. */
  function Backfill(data: Json, lengths: map<string, nat>): Result<Json, PyError> {
    if !data.Obj? then Err(AttributeError("object has no attribute 'get'"))
    else
      var conversations := Get(data.fields, "conversations", Arr([]));
      var items :- Iterate(conversations);
      var updated :- Backfilled(items, LineStep(lengths));
      if conversations.Arr? && "conversations" in KeySet(data.fields) then
        Ok(Obj(SetKey(data.fields, "conversations", Arr(updated))))
      else Ok(data)
  }

  /** Only the conversation lines change: every other key keeps its value,
      the lines keep their number and order, and each line gains its
      `audio_length` and nothing else. */
  lemma BackfillChangesOnlyLengths(data: Json, lengths: map<string, nat>)
    requires Backfill(data, lengths).Ok?
    ensures var out := Backfill(data, lengths).value;
      && data.Obj? && out.Obj? && KeySet(out.fields) == KeySet(data.fields)
      && (forall k :: k != "conversations" ==> Lookup(out.fields, k) == Lookup(data.fields, k))
    ensures var out := Backfill(data, lengths).value;
      var before := Get(data.fields, "conversations", Arr([]));
      var after := Get(out.fields, "conversations", Arr([]));
      before.Arr? ==> (after.Arr? && |after.items| == |before.items| &&
        forall i :: 0 <= i < |before.items| ==> WithAudioLength(before.items[i], lengths) == Ok(after.items[i]))
  {
    BackfillKeys(data, lengths);
    BackfillLinesOf(data, lengths);
  }

  lemma BackfillKeys(data: Json, lengths: map<string, nat>)
    requires Backfill(data, lengths).Ok?
    ensures var out := Backfill(data, lengths).value;
      && data.Obj? && out.Obj? && KeySet(out.fields) == KeySet(data.fields)
      && (forall k :: k != "conversations" ==> Lookup(out.fields, k) == Lookup(data.fields, k))
  {
    var conversations := Get(data.fields, "conversations", Arr([]));
    if conversations.Arr? && "conversations" in KeySet(data.fields) {
      var items := Iterate(conversations).value;
      var updated := Backfilled(items, LineStep(lengths)).value;
      SetKeyLookup(data.fields, "conversations", Arr(updated));
      SetKeyKeys(data.fields, "conversations", Arr(updated));
    }
  }

  lemma BackfillLinesOf(data: Json, lengths: map<string, nat>)
    requires Backfill(data, lengths).Ok?
    ensures var out := Backfill(data, lengths).value;
      var before := Get(data.fields, "conversations", Arr([]));
      var after := Get(out.fields, "conversations", Arr([]));
      before.Arr? ==> (after.Arr? && |after.items| == |before.items| &&
        forall i :: 0 <= i < |before.items| ==> LineStep(lengths)(before.items[i]) == Ok(after.items[i]))
  {
    var conversations := Get(data.fields, "conversations", Arr([]));
    var items := Iterate(conversations).value;
    BackfilledItems(items, LineStep(lengths));
    if conversations.Arr? && "conversations" in KeySet(data.fields) {
      var updated := Backfilled(items, LineStep(lengths)).value;
      SetKeyLookup(data.fields, "conversations", Arr(updated));
    }
  }

  /** Entry `i` is the last one of the listing named `name`. */
  predicate LastListed(listing: seq<Entry>, name: string, i: int) {
    0 <= i < |listing| && listing[i].0 == name && forall j :: i < j < |listing| ==> listing[j].0 != name
  }

  /** No entry of the listing is named `name`. */
  predicate Unlisted(listing: seq<Entry>, name: string) {
    forall i :: 0 <= i < |listing| ==> listing[i].0 != name
  }

  /** Looking up an `.mp3` name gives the length of the last listed file
      of that name, and 0 when none is listed. */
  lemma ListedLength(listing: seq<Entry>, name: string)
    requires IsMp3Name(name)
    ensures forall i :: LastListed(listing, name, i) ==> LengthOf(Mp3Lengths(listing), name) == listing[i].1
    ensures Unlisted(listing, name) ==> LengthOf(Mp3Lengths(listing), name) == 0
  {
    Mp3LengthsKeys(listing, name);
    forall i | LastListed(listing, name, i)
      ensures LengthOf(Mp3Lengths(listing), name) == listing[i].1
    {
      Mp3LengthsValue(listing, i);
    }
  }

  /** A line ends up with the length of the listed file named after its
      order and speaker, and with 0 when no such file is listed. */
  lemma LineLength(listing: seq<Entry>, item: Json)
    requires WithAudioLength(item, Mp3Lengths(listing)).Ok?
    ensures var name := AudioFileName(Lookup(item.fields, "order").value, Lookup(item.fields, "speaker").value);
      var length := Lookup(WithAudioLength(item, Mp3Lengths(listing)).value.fields, "audio_length");
      && (forall i :: LastListed(listing, name, i) ==> length == Some(Num(listing[i].1)))
      && (Unlisted(listing, name) ==> length == Some(Num(0)))
  {
    var name := AudioFileName(Lookup(item.fields, "order").value, Lookup(item.fields, "speaker").value);
    var lengths := Mp3Lengths(listing);
    WithAudioLengthSets(item, lengths);
    AudioFileIsMp3(Lookup(item.fields, "order").value, Lookup(item.fields, "speaker").value);
    ListedLength(listing, name);
  }

  lemma AudioFileIsMp3(order: Json, speaker: Json)
    ensures IsMp3Name(AudioFileName(order, speaker))
  {
    var n := AudioFileName(order, speaker);
    assert n == (Display(order) + "_" + Display(speaker)) + ".mp3";
  }

  /** `splitext(json_file)[0] + "_withlength.json"`. */
  function WithLengthName(jsonFile: string): string {
    SplitextRoot(jsonFile) + "_withlength.json"
  }

  /** The output never overwrites the input file: the extension that
      `splitext` drops starts with '.', the suffix with '_'. */
  lemma WithLengthNameIsNew(jsonFile: string)
    ensures WithLengthName(jsonFile) != jsonFile
    ensures EndsWith(WithLengthName(jsonFile), "_withlength.json")
  {
    var root := SplitextRoot(jsonFile);
    var suffix := "_withlength.json";
    var out := root + suffix;
    assert out[|root|] == '_';
    assert out[|out| - |suffix|..] == suffix;
  }

  /** The whole update, as a value. The lengths are computed after the
      document is loaded and before its lines are read, so a missing audio
      directory is reported before anything about the lines. The result is
      the new file's name and its contents. */
  function UpdatedFile(jsonFile: string, audiosDir: string, data: Json, dirExists: bool, listing: seq<Entry>):
    Result<(string, Json), PyError>
  {
    if !dirExists then Err(FileNotFoundError(audiosDir))
    else
      var updated :- Backfill(data, Mp3Lengths(listing));
      Ok((WithLengthName(jsonFile), updated))
  }

  /** The loop over the conversation lines of `update_json_with_audio_lengths`:
      `step` updates one line (there, `LineStep`), and the first line it
      cannot update stops the loop with its error. */
  method BackfillLines(items: seq<Json>, step: Json -> Result<Json, PyError>) returns (r: Result<seq<Json>, PyError>)
    ensures r == Backfilled(items, step)
  {
    var updated: seq<Json> := [];
    var i := 0;
    while i < |items|
      invariant 0 <= i <= |items|
      invariant Backfilled(items[..i], step) == Ok(updated)
    {
      var line := step(items[i]);
      assert items[..i + 1][..i] == items[..i];
      if line.Err? {
        BackfilledOk(items[..i], step);
        assert forall j :: 0 <= j < i ==> items[..i][j] == items[j];
        BackfilledFirstError(items, step, i);
        return Err(line.error);
      }
      updated := updated + [line.value];
      i := i + 1;
    }
    assert items[..|items|] == items;
    return Ok(updated);
  }

  /** An `AudioLengthProcessor`: the JSON file, its directory and the audio
      directory beside it. */
  class AudioLengthProcessor {
    var jsonFile: string
    var jsonDir: string
    var audiosDir: string

    /** `__init__`. */
    constructor (jsonFile: string)
      ensures this.jsonFile == jsonFile
      ensures jsonDir == Dirname(jsonFile)
      ensures audiosDir == PathJoin(Dirname(jsonFile), "audio_conversations")
    {
      this.jsonFile := jsonFile;
      jsonDir := Dirname(jsonFile);
      audiosDir := PathJoin(Dirname(jsonFile), "audio_conversations");
    }

    /** `calculate_audio_lengths` over the directory's listing, given with
      each file's length; a missing directory raises. */
    method CalculateAudioLengths(dirExists: bool, listing: seq<Entry>) returns (r: Result<map<string, nat>, PyError>)
      ensures !dirExists ==> r == Err(FileNotFoundError(audiosDir))
      ensures dirExists ==> r == Ok(Mp3Lengths(listing))
    {
      if !dirExists {
        return Err(FileNotFoundError(audiosDir));
      }
      var lengths: map<string, nat> := map[];
      for i := 0 to |listing|
        invariant lengths == Mp3Lengths(listing[..i])
      {
        var (name, length) := listing[i];
        assert listing[..i + 1][..i] == listing[..i];
        if EndsWith(name, ".mp3") {
          lengths := lengths[name := length];
        }
      }
      assert listing[..|listing|] == listing;
      return Ok(lengths);
    }

    /** `update_json_with_audio_lengths` on the loaded document: the new
      file's name and contents, or the exception that stops it. */
    method UpdateJsonWithAudioLengths(data: Json, dirExists: bool, listing: seq<Entry>)
      returns (r: Result<(string, Json), PyError>)
      ensures r == UpdatedFile(jsonFile, audiosDir, data, dirExists, listing)
    {
      var lengths :- CalculateAudioLengths(dirExists, listing);
      if !data.Obj? {
        return Err(AttributeError("object has no attribute 'get'"));
      }
      var conversations := Get(data.fields, "conversations", Arr([]));
      var items :- Iterate(conversations);
      var updated :- BackfillLines(items, LineStep(lengths));
      var newData := if conversations.Arr? && "conversations" in KeySet(data.fields)
        then Obj(SetKey(data.fields, "conversations", Arr(updated))) else data;
      return Ok((SplitextRoot(jsonFile) + "_withlength.json", newData));
    }
  }
}
