/** The `TextToSpeechProcessor` object (`tts/TextToSpeechProcessor.py`):
    the document it works on, the settings it reads, the voice each speaker
    was given, and the three merge passes that record on the document where
    their merged video went. The media work itself is left to `MergePlan`'s
    view of files as the clips they hold. */
module Processor {
  import opened Wrappers
  import opened PyStrings
  import opened PyPath
  import opened PyJson
  import opened Conversations
  import opened VoiceAssignment
  import opened MergePlan
  import Settings

  const CONVERSATIONS_SUFFIX: string := "_conversations_merged_video.mp4"
  const NEW_WORDS_SUFFIX: string := "_new_words_merged_video.mp4"
  const ALL_SUFFIX: string := "_merged_video.mp4"

  /** The settings the merges read. */
  function MergeSettings(config: Settings.AppSettings): MergeConfig {
    MergeConfig(config.useV2Merge, config.useV2MergeAll, config.videoBatchSize)
  }

  /** `[conv.video for conv in conversations]`. */
  function ConversationVideos(doc: Document): (r: seq<Json>)
    ensures |r| == |doc.conversations|
    ensures forall i :: 0 <= i < |r| ==> r[i] == doc.conversations[i].video
  {
    seq(|doc.conversations|, i requires 0 <= i < |doc.conversations| => doc.conversations[i].video)
  }

  /** What a merge leaves in the file system: the chosen strategy's output
      written at `out`, or the exception it raises. */
  function MergedInto(files: seq<Json>, out: Path, fs: FileSystem, cfg: MergeConfig): Result<FileSystem, MergeError> {
    var w :- MergeSpec(files, fs, cfg);
    Ok(Apply(fs, out, w))
  }

  /** The document after a merge pass: only the recorded merge results may differ. */
  predicate SameContent(doc: Document, before: Document) {
    doc == before.(mergedVideoConversations := doc.mergedVideoConversations,
                   mergedVideoNewWords := doc.mergedVideoNewWords,
                   mergedVideoAll := doc.mergedVideoAll)
  }

  class TextToSpeechProcessor {
    var jsonFile: Path
    var config: Settings.AppSettings
    var doc: Document
    var speakerToVoice: map<string, string>
    var usedVoices: set<string>

    /** The fields `__init__` sets before it assigns the voices. */
    constructor (jsonFile: Path, config: Settings.AppSettings, doc: Document)
      ensures this.jsonFile == jsonFile && this.config == config && this.doc == doc
      ensures speakerToVoice == map[] && usedVoices == {}
    {
      this.jsonFile := jsonFile;
      this.config := config;
      this.doc := doc;
      speakerToVoice := map[];
      usedVoices := {};
    }

    /** `TextToSpeechProcessor(json_file)` on a loaded document: the object
      with every speaker's voice assigned, or the exception the assignment
      raises. */
    static method Create(jsonFile: Path, config: Settings.AppSettings, doc: Document)
      returns (r: Result<TextToSpeechProcessor, PyError>)
      ensures var run := RunFrom(NO_VOICES, doc.speakers, config.defaultSpeaker);
        && (r.Ok? <==> run.error.None?)
        && (r.Err? ==> r.error == run.error.value)
        && (r.Ok? ==> (fresh(r.value) && r.value.jsonFile == jsonFile && r.value.config == config &&
              r.value.doc == doc && r.value.speakerToVoice == run.state.toVoice && r.value.usedVoices == run.state.used))
    {
      var p := new TextToSpeechProcessor(jsonFile, config, doc);
      var o := p.AssignVoicesToSpeakers();
      if o.Fail? {
        return Err(o.error);
      }
      return Ok(p);
    }

    /** `assign_voices_to_speakers`: the speakers in table order, each taking
      the first voice of its pool not yet used, else keeping the voice it
      has, else taking the default pool's first voice. */
    method AssignVoicesToSpeakers() returns (o: Outcome<PyError>)
      modifies this
      ensures jsonFile == old(jsonFile) && config == old(config) && doc == old(doc)
      ensures var run := RunFrom(VoiceState(old(speakerToVoice), old(usedVoices)), doc.speakers, config.defaultSpeaker);
        && speakerToVoice == run.state.toVoice && usedVoices == run.state.used
        && (o.Fail? <==> run.error.Some?)
        && (o.Fail? ==> o.error == run.error.value)
    {
      var speakers := doc.speakers;
      var defaultSpeaker := config.defaultSpeaker;
      ghost var start := VoiceState(speakerToVoice, usedVoices);
      for i := 0 to |speakers|
        invariant jsonFile == old(jsonFile) && config == old(config) && doc == old(doc)
        invariant RunFrom(start, speakers[..i], defaultSpeaker).error.None?
        invariant RunFrom(start, speakers[..i], defaultSpeaker).state == VoiceState(speakerToVoice, usedVoices)
      {
        var (name, speaker) := speakers[i];
        assert speakers[..i + 1][..i] == speakers[..i];
        var step := AssignVoice(name, speaker.gender, defaultSpeaker);
        if step.Fail? {
          RunStops(start, speakers, defaultSpeaker, i + 1);
          return step;
        }
      }
      assert speakers[..|speakers|] == speakers;
      return Pass;
    }

    /** One round of the loop over the speakers: `gender.lower()`, the pool
      (the default speaker's pool is looked up first), the scan for a free
      voice that stops at the first, and the fallback for a speaker that
      still has no voice. */
    method AssignVoice(name: string, gender: Json, defaultSpeaker: string) returns (o: Outcome<PyError>)
      modifies this
      ensures jsonFile == old(jsonFile) && config == old(config) && doc == old(doc)
      ensures var step := AssignOne(VoiceState(old(speakerToVoice), old(usedVoices)), name, gender, defaultSpeaker);
        && (o.Fail? <==> step.Err?)
        && (o.Fail? ==> o.error == step.error && speakerToVoice == old(speakerToVoice) && usedVoices == old(usedVoices))
        && (step.Ok? ==> VoiceState(speakerToVoice, usedVoices) == step.value.0)
    {
      if !gender.Str? {
        return Fail(AttributeError("object has no attribute 'lower'"));
      }
      var lowered := LowerAscii(gender.s);
      if defaultSpeaker !in VOICES {
        return Fail(KeyError(defaultSpeaker));
      }
      var pool := if lowered in VOICES then VOICES[lowered] else VOICES[defaultSpeaker];
      assert pool == Pool(gender.s, defaultSpeaker);
      ghost var before := VoiceState(speakerToVoice, usedVoices);
      for j := 0 to |pool|
        invariant VoiceState(speakerToVoice, usedVoices) == before
        invariant forall k :: 0 <= k < j ==> pool[k] in usedVoices
      {
        if pool[j] !in usedVoices {
          FirstFreeIs(pool, usedVoices, j);
          speakerToVoice := speakerToVoice[name := pool[j]];
          usedVoices := usedVoices + {pool[j]};
          break;
        }
      }
      if name !in speakerToVoice {
        speakerToVoice := speakerToVoice[name := VOICES[defaultSpeaker][0]];
      }
      return Pass;
    }

    /** `_merge_video_clips`: the strategy the settings choose, and what it
      leaves at `output`. */
    method MergeVideoClips(files: seq<Json>, output: Path, fs: FileSystem) returns (r: Result<FileSystem, MergeError>)
      ensures r == MergedInto(files, output, fs, MergeSettings(config))
      ensures config.videoBatchSize >= 1 && r.Ok? ==> r.value == Apply(fs, output, Expected(files, fs))
    {
      var cfg := MergeSettings(config);
      if cfg.batchSize >= 1 {
        MergeWritesLoaded(files, fs, cfg);
      }
      if cfg.useV2Merge {
        var w :- Binary(files, fs, cfg.batchSize);
        return Ok(Apply(fs, output, w));
      }
      var plan :- MergeSequential(files, fs, cfg.batchSize);
      return Ok(Apply(fs, output, PlanOutput(plan)));
    }

    /** `_merge_conversation_videos`: "EMPTY" for no lines, else the output
      path beside the JSON file, recorded once the merge returns. */
    method MergeConversationVideos(fs: FileSystem) returns (r: Result<FileSystem, MergeError>)
      modifies this
      ensures jsonFile == old(jsonFile) && config == old(config)
      ensures speakerToVoice == old(speakerToVoice) && usedVoices == old(usedVoices)
      ensures var pass := ItemsPass(ConversationVideos(old(doc)), SplitextRoot(jsonFile) + CONVERSATIONS_SUFFIX, fs, MergeSettings(config));
        && (r.Ok? <==> pass.Ok?)
        && (r.Ok? ==> r.value == pass.value.1 && doc == old(doc).(mergedVideoConversations := Some(pass.value.0)))
        && (r.Err? ==> r.error == pass.error && doc == old(doc))
    {
      var output: Path;
      var files := fs;
      if doc.conversations == [] {
        output := EMPTY;
      } else {
        output := SplitextRoot(jsonFile) + CONVERSATIONS_SUFFIX;
        files :- MergeVideoClips(ConversationVideos(doc), output, fs);
      }
      doc := doc.(mergedVideoConversations := Some(output));
      return Ok(files);
    }

    /** `_merge_new_word_videos`, with the `video` each new word was given
      by the media pipeline. */
    method MergeNewWordVideos(newWordVideos: seq<Json>, fs: FileSystem) returns (r: Result<FileSystem, MergeError>)
      requires |newWordVideos| == |doc.newWords|
      modifies this
      ensures jsonFile == old(jsonFile) && config == old(config)
      ensures speakerToVoice == old(speakerToVoice) && usedVoices == old(usedVoices)
      ensures var pass := ItemsPass(newWordVideos, SplitextRoot(jsonFile) + NEW_WORDS_SUFFIX, fs, MergeSettings(config));
        && (r.Ok? <==> pass.Ok?)
        && (r.Ok? ==> r.value == pass.value.1 && doc == old(doc).(mergedVideoNewWords := Some(pass.value.0)))
        && (r.Err? ==> r.error == pass.error && doc == old(doc))
    {
      var output: Path;
      var files := fs;
      if doc.newWords == [] {
        output := EMPTY;
      } else {
        output := SplitextRoot(jsonFile) + NEW_WORDS_SUFFIX;
        files :- MergeVideoClips(newWordVideos, output, fs);
      }
      doc := doc.(mergedVideoNewWords := Some(output));
      return Ok(files);
    }

    /** `_merge_all_videos` and `_merge_all_videos_v2`: the recorded merge
      results that are usable (V2), or every line's and every new word's
      video (V1), merged into one file; "EMPTY" when there is nothing. */
    method MergeAllVideos(newWordVideos: seq<Json>, fs: FileSystem) returns (r: Result<FileSystem, MergeError>)
      requires |newWordVideos| == |doc.newWords|
      modifies this
      ensures jsonFile == old(jsonFile) && config == old(config)
      ensures speakerToVoice == old(speakerToVoice) && usedVoices == old(usedVoices)
      ensures var pass := AllPass(ConversationVideos(old(doc)), newWordVideos, old(doc).mergedVideoConversations,
                                  old(doc).mergedVideoNewWords, SplitextRoot(jsonFile) + ALL_SUFFIX, fs, MergeSettings(config));
        && (r.Ok? <==> pass.Ok?)
        && (r.Ok? ==> r.value == pass.value.1 && doc == old(doc).(mergedVideoAll := Some(pass.value.0)))
        && (r.Err? ==> r.error == pass.error && doc == old(doc))
    {
      var output := SplitextRoot(jsonFile) + ALL_SUFFIX;
      var videos: seq<Json>;
      if config.useV2MergeAll {
        videos :- RecordedVideos(fs);
      } else {
        videos := [];
        if doc.conversations != [] {
          videos := videos + ConversationVideos(doc);
        }
        if doc.newWords != [] {
          videos := videos + newWordVideos;
        }
        assert videos == ConversationVideos(doc) + newWordVideos;
      }
      var files := fs;
      if videos == [] {
        output := EMPTY;
      } else {
        files :- MergeVideoClips(videos, output, fs);
      }
      doc := doc.(mergedVideoAll := Some(output));
      return Ok(files);
    }

    /** The collection step of `_merge_all_videos_v2`: each recorded merge
      result that is set, not "EMPTY" and exists, conversations first. */
    method RecordedVideos(fs: FileSystem) returns (r: Result<seq<Json>, MergeError>)
      ensures r == CombinedInputs(doc.mergedVideoConversations, doc.mergedVideoNewWords, fs)
    {
      if doc.mergedVideoConversations.None? {
        return Err(UnsetAttribute("merged_video_conversations"));
      }
      var conversationsVideo := doc.mergedVideoConversations.value;
      if doc.mergedVideoNewWords.None? {
        return Err(UnsetAttribute("merged_video_new_words"));
      }
      var newWordsVideo := doc.mergedVideoNewWords.value;
      var videos: seq<Json> := [];
      if conversationsVideo != [] && conversationsVideo != EMPTY && conversationsVideo in fs {
        videos := videos + [Str(conversationsVideo)];
      }
      assert videos == if Usable(conversationsVideo, fs) then [Str(conversationsVideo)] else [];
      if newWordsVideo != [] && newWordsVideo != EMPTY && newWordsVideo in fs {
        videos := videos + [Str(newWordsVideo)];
      }
      assert videos == (if Usable(conversationsVideo, fs) then [Str(conversationsVideo)] else []) +
        (if Usable(newWordsVideo, fs) then [Str(newWordsVideo)] else []);
      assert CombinedInputs(doc.mergedVideoConversations, doc.mergedVideoNewWords, fs).Ok?;
      return Ok(videos);
    }

    /** `merge_videos`: the conversation pass, the new-word pass, then the
      pass over everything; an exception stops it with the paths recorded
      so far. */
    method MergeVideos(newWordVideos: seq<Json>, fs: FileSystem) returns (r: Result<FileSystem, MergeError>)
      requires |newWordVideos| == |doc.newWords|
      modifies this
      ensures jsonFile == old(jsonFile) && config == old(config)
      ensures speakerToVoice == old(speakerToVoice) && usedVoices == old(usedVoices)
      ensures SameContent(doc, old(doc))
      ensures var root := SplitextRoot(jsonFile);
        var spec := MergePlan.MergeVideos(ConversationVideos(old(doc)), newWordVideos, root + CONVERSATIONS_SUFFIX,
                                          root + NEW_WORDS_SUFFIX, root + ALL_SUFFIX, fs, MergeSettings(config));
        && (r.Ok? <==> spec.Ok?)
        && (r.Ok? ==> (r.value == spec.value.3 &&
              doc.mergedVideoConversations == Some(spec.value.0) &&
              doc.mergedVideoNewWords == Some(spec.value.1) &&
              doc.mergedVideoAll == Some(spec.value.2)))
        && (r.Err? ==> r.error == spec.error)
    /* The paths recorded when a pass raises: none, the conversations', or
       both per-kind results. */
    ensures var root := SplitextRoot(jsonFile);
      var c := ItemsPass(ConversationVideos(old(doc)), root + CONVERSATIONS_SUFFIX, fs, MergeSettings(config));
      && (c.Err? ==> r.Err? && doc == old(doc))
      && (c.Ok? ==>
            var n := ItemsPass(newWordVideos, root + NEW_WORDS_SUFFIX, c.value.1, MergeSettings(config));
            && (n.Err? ==> r.Err? && doc == old(doc).(mergedVideoConversations := Some(c.value.0)))
            && (n.Ok? && r.Err? ==>
                  doc == old(doc).(mergedVideoConversations := Some(c.value.0), mergedVideoNewWords := Some(n.value.0))))
    {
      var afterConversations :- MergeConversationVideos(fs);
      var afterNewWords :- MergeNewWordVideos(newWordVideos, afterConversations);
      r := MergeAllVideos(newWordVideos, afterNewWords);
    }
  }
}
