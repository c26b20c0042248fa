# TtsMultimodal decision logic in Dafny

TtsMultimodal turns a JSON lesson document into narrated slide videos. It has
three parts: a document of speakers, conversation lines and new words; Google
TTS voices handed to the speakers; and per-line videos merged into a
conversation video, a new-word video and one video of everything. The
application settings and the YouTube settings come from environment variables.
A separate tool back-fills audio lengths into a conversation file.

This project models the decisions those steps make, and proves what they promise:

- **Document construction** (`Conversations`). `Conversations.__init__` works
  on an already parsed JSON value. Every way Python's `dict.get`, subscripting,
  iteration and `NewWord(**word)` can raise is an `Err`. The speaker table is
  read, never extended.
- **Voice assignment** (`VoiceAssignment`, `Processor`). The loop of
  `assign_voices_to_speakers` is a method of the processor class. It is proved
  against a run function, and lemmas about that function say:
  - every speaker gets a voice;
  - scanned voices are first-free and pairwise distinct;
  - a speaker with no free voice gets the default speaker pool's first voice.
- **Merge planning** (`MergePlan`, `Processor`). A file is the sequence of
  clips it holds, and the file system is a map from existing paths to clips.
  - The sequential strategy of `_merge_video_clips` is a loop over
    `range(0, len, b)` with numbered temporary files.
  - The binary strategy of `_merge_video_clips_v2` is a recursive halving.
  - Both write the clips of the existing files in order. The binary one raises
    when a half wrote nothing.
  - The three merge passes record the paths they wrote, or `"EMPTY"`, on the
    document.
- **Text helpers** (`ProcessorText`): the new-word sentence and slide text,
  `_clean_hashtags` and `_get_language_code`.
- **Settings** (`Settings`, `YouTubeConfig`):
  - `_get_env` defaults and the error when no default exists;
  - `int()` parsing, the `== 'true'` flags and `_parse_rgb_color` with its
    white fallback;
  - `_parse_tags`;
  - both singletons, as a class object holding `_instance` and an instance
    holding `_initialized`.
- **Audio-length back-fill** (`AudioLength`): the `.mp3` length table over a
  directory listing, and the loop that sets every line's `audio_length`.

The Python built-ins the code leans on are modelled where their behaviour
matters. They live in `PyStrings`, `PyNumbers`, `PyPath` and `PyJson`:
`strip`, `lstrip`, `split`, `join`, `lower` on ASCII, `int()`, `str()`,
`repr()`, `os.path.splitext`/`dirname`/`join`, `dict.get`, item assignment,
truth value and iteration.

Where the code and its accompanying documentation differ, the model follows
the code:

- A speaker that finds its pool used up gets the first voice of the *default
  speaker's* pool, not of its own gender's (`TextToSpeechProcessor.py:89-91`).
- `NewWord(**word)` needs exactly the keys `order`, `word`, `meaning` and
  `example`. A missing or extra key raises TypeError. Only an explicit JSON
  `null` gives `None`.
- `Conversations.__init__` never sets the `merged_video_*` attributes. Reading
  one before its pass has run raises AttributeError (`UnsetAttribute`).
- In the binary strategy, a part that wrote nothing still has its temporary
  file opened by its parent (`TextToSpeechProcessor.py:329`), so the merge
  raises (`MissingTemp`). The sequential strategy writes the same input fine
  (`MergePlan.BinaryRaisesWhereSequentialWrites`).

## Model

| member | source | states |
|---|---|---|
| AudioLength.AudioLengthProcessor.constructor | tts/AudioLengthProcessor.py:7-11 | the JSON path is kept, its directory is `dirname(json_file)` and the audio directory is `audio_conversations` inside it |
| AudioLength.AudioLengthProcessor.CalculateAudioLengths | tts/AudioLengthProcessor.py:13-26 | a missing audio directory raises FileNotFoundError naming it; otherwise the loop over the listing builds exactly the `.mp3` length table |
| AudioLength.Mp3LengthsKeys | tts/AudioLengthProcessor.py:19-24 | a name is a key of the table iff it is listed and ends in `.mp3` |
| AudioLength.Mp3LengthsValue | tts/AudioLengthProcessor.py:19-24 | a listed `.mp3` file's key holds its length when no later entry repeats the name |
| AudioLength.ListedLength | tts/AudioLengthProcessor.py:19-42 | `audio_lengths.get(name, 0)` is the length of the last listed file of that name, and 0 when none is listed |
| AudioLength.WithAudioLength | tts/AudioLengthProcessor.py:39-42 | one line can be updated iff it is a mapping holding `order` and `speaker` |
| AudioLength.WithAudioLengthSets | tts/AudioLengthProcessor.py:39-42 | an updated line gains exactly the key `audio_length`, holding the table's length for `"{order}_{speaker}.mp3"` or 0, and keeps every other key's value |
| AudioLength.LineLength | tts/AudioLengthProcessor.py:38-42 | a line's `audio_length` is the length of the listed file named after its order and speaker, or 0 when no such file is listed |
| AudioLength.AudioFileIsMp3 | tts/AudioLengthProcessor.py:41 | the name looked up for a line always ends in `.mp3`, so the filter never hides it |
| AudioLength.Backfilled | tts/AudioLengthProcessor.py:38-42 | a loop that completes yields one line per input line |
| AudioLength.BackfilledOk | tts/AudioLengthProcessor.py:38-42 | the loop completes iff every line can be updated |
| AudioLength.BackfilledItems | tts/AudioLengthProcessor.py:38-42 | line `i` of the result is line `i` of the input updated on its own; order is kept |
| AudioLength.BackfilledFirstError | tts/AudioLengthProcessor.py:38-42 | the first line that cannot be updated stops the loop with its exception |
| AudioLength.BackfillLines | tts/AudioLengthProcessor.py:38-42 | the imperative loop over the lines computes the per-line update of every line, or the first line's exception |
| AudioLength.BackfillChangesOnlyLengths | tts/AudioLengthProcessor.py:38-42 | only the lines change: the document keeps its keys and every other key's value, and the lines keep their number and order, each updated alone |
| AudioLength.BackfillKeys | tts/AudioLengthProcessor.py:38-42 | the back-filled document has the same keys, and every key but `conversations` keeps its value |
| AudioLength.BackfillLinesOf | tts/AudioLengthProcessor.py:38-42 | the `conversations` list keeps its length, and each entry is the input line with its length set |
| AudioLength.WithLengthNameIsNew | tts/AudioLengthProcessor.py:45 | the output name ends in `_withlength.json` and never equals the input file's name |
| AudioLength.AudioLengthProcessor.UpdateJsonWithAudioLengths | tts/AudioLengthProcessor.py:28-45 | the lengths are computed after the document is loaded and before its lines are read; the result is the new file's name and the back-filled document, or the first exception |
| Conversations.LookupSpeaker | tts/Conversations.py:80 | a found speaker is the table's entry for the key; not found means no entry has the key |
| Conversations.GetSpeaker | tts/Conversations.py:95-97 | raises iff the name cannot be hashed; gives the table's speaker for a listed name, else `Speaker(name, "unknown")`; the table is not changed |
| Conversations.GetSpeakerKeepsName | tts/Conversations.py:95-97 | a looked-up speaker carries the name asked for, and an unlisted name gets gender "unknown" |
| Conversations.SpeakerEntry | tts/Conversations.py:71-74 | an entry needs details that are a mapping; its speaker is named by the key, with gender defaulting to "unknown" |
| Conversations.SpeakerTable | tts/Conversations.py:71-74 | the table has one speaker per key, each named by its key, and the names are distinct |
| Conversations.SpeakerTableOf | tts/Conversations.py:71-74 | the table is built from the `speakers` mapping (default `{}`), one entry per key in its order |
| Conversations.ConversationFrom | tts/Conversations.py:77-86 | a line needs a mapping with `order`, a hashable `speaker` and `text`; it copies those, takes the speaker from the table, and `slide`/`video`/`audio_length`/`audio` default to None |
| Conversations.LinesOf | tts/Conversations.py:77-88 | one conversation per item of `conversations` (default `[]`), in order |
| Conversations.NewWordFrom | tts/Conversations.py:91-93 | `NewWord(**word)` succeeds iff the item is a mapping with exactly the four keys, and keeps each value |
| Conversations.WordsOf | tts/Conversations.py:90-93 | one new word per item of `new_words` (default `[]`), in order |
| Conversations.FromJson | tts/Conversations.py:55-93 | a built document came from a mapping, its speaker table names every speaker by its key, and no merge result is set yet |
| Conversations.FromJsonShape | tts/Conversations.py:61-93 | one speaker per key in order, one line per item in order with the line's order and speaker name, one new word per entry in order with its word and example |
| Conversations.FromJsonMissingKeys | tts/Conversations.py:61-93 | a mapping without `speakers`, `conversations`, `new_words` and `hashtags` gives empty collections for all four |
| Wrappers.MapResult | tts/Conversations.py:77-88 | a comprehension succeeds iff every item does, keeps length and order, and otherwise raises the first item's exception |
| ProcessorText.PrepareNewWordText | tts/TextToSpeechProcessor.py:191-195 | an entry with order 0, no word or no meaning gives its example; any other gives a string |
| ProcessorText.NewWordTextShape | tts/TextToSpeechProcessor.py:195 | the sentence starts with `"{word}. Meaning: {meaning}. "` and ends with `". Example:  {example}."` (two spaces) |
| ProcessorText.PrepareNewWordSlideContent | tts/TextToSpeechProcessor.py:197-201 | the same condition gives the example; any other entry gives a string |
| ProcessorText.NewWordSlideShape | tts/TextToSpeechProcessor.py:201 | the slide starts with `"Meaning: {meaning}\n\n"` and ends with `"\n\nExample: {example}"` |
| ProcessorText.NewWordTextsFallBack | tts/TextToSpeechProcessor.py:191-201 | each helper returns the example itself iff the entry only carries an example |
| ProcessorText.StripHashes | tts/TextToSpeechProcessor.py:559 | `tag.lstrip('#')` needs a string and removes exactly the leading '#' characters |
| ProcessorText.CleanHashtags | tts/TextToSpeechProcessor.py:549-559 | a falsy value gives `[]`; otherwise one cleaned tag per tag, in order, none starting with '#', and it raises iff some tag is not a string or the value cannot be iterated |
| ProcessorText.CleanHashtagsOf | tts/TextToSpeechProcessor.py:559 | tags written with any number of leading '#' clean to the bare tags |
| ProcessorText.CleanTagsStay | tts/TextToSpeechProcessor.py:559 | tags with no leading '#' clean to themselves |
| ProcessorText.CleanHashtagsIdempotent | tts/TextToSpeechProcessor.py:559 | cleaning cleaned tags changes nothing |
| ProcessorText.LanguageCode | tts/TextToSpeechProcessor.py:65-71 | the default language is looked up first and must be listed; the code is the document language's if listed, else the default's, and always one of the table's codes |
| ProcessorText.LanguageCodeIdentifies | tts/TextToSpeechProcessor.py:24-28 | no two languages share a code, so the code names the language it came from |
| VoiceAssignment.Pool | tts/TextToSpeechProcessor.py:77-80 | the pool is the lower-cased gender's, else the default speaker's, and is never empty |
| VoiceAssignment.FirstFree | tts/TextToSpeechProcessor.py:83-87 | a voice found is in the pool and unused; none is found iff every voice of the pool is used |
| VoiceAssignment.FirstFreeIs | tts/TextToSpeechProcessor.py:83-87 | the scan stops at the first unused voice |
| VoiceAssignment.AssignOne | tts/TextToSpeechProcessor.py:75-91 | one speaker: raises iff the gender is not a string or the default speaker has no pool; the speaker gets a voice and others keep theirs; a scanned voice is the first free one and is added to the used set; otherwise the used set is unchanged and the speaker keeps its voice or gets the default pool's first voice |
| VoiceAssignment.RunFrom | tts/TextToSpeechProcessor.py:75-91 | the loop serves at most one speaker per step, and every speaker when nothing raises |
| VoiceAssignment.RunStops | tts/TextToSpeechProcessor.py:75-91 | once a speaker raises, the later speakers change nothing |
| VoiceAssignment.FreshRun | tts/TextToSpeechProcessor.py:73-91 | from no assignments, every speaker gets a voice; a scanned voice is the first of its pool not scanned before; a fallback happens only with the pool used up and gives the default pool's first voice; the used set is exactly the scanned voices |
| VoiceAssignment.ScannedVoicesDistinct | tts/TextToSpeechProcessor.py:83-87 | two speakers served by the scan never share a voice |
| VoiceAssignment.VoiceFromPool | tts/TextToSpeechProcessor.py:77-91 | every speaker's voice is from its own pool or is the default pool's first voice |
| VoiceAssignment.RunFails | tts/TextToSpeechProcessor.py:76-80 | the loop raises iff there are speakers and some gender is not a string or the default speaker has no pool |
| VoiceAssignment.SecondNeutralGetsDefaultVoice | tts/TextToSpeechProcessor.py:89-91 | with default speaker "female", a second neutral speaker finds the one neutral voice taken and gets Aoede, not Achird |
| Processor.TextToSpeechProcessor.constructor | tts/TextToSpeechProcessor.py:38-48 | the processor starts with its document, settings, JSON path, an empty voice map and an empty used set |
| Processor.TextToSpeechProcessor.Create | tts/TextToSpeechProcessor.py:31-63 | constructing the processor assigns voices from nothing, and raises exactly what the assignment raises |
| Processor.TextToSpeechProcessor.AssignVoicesToSpeakers | tts/TextToSpeechProcessor.py:73-91 | the loop leaves the voice map and used set of the run over the speaker table, stops at the first exception, and changes nothing else |
| Processor.TextToSpeechProcessor.AssignVoice | tts/TextToSpeechProcessor.py:76-91 | one round of the loop updates the voice map and used set as `AssignOne` says, and leaves them unchanged when it raises |
| Processor.ConversationVideos | tts/TextToSpeechProcessor.py:218 | one video per line, in order |
| Processor.TextToSpeechProcessor.MergeVideoClips | tts/TextToSpeechProcessor.py:381-385 | the merge follows the configured strategy; with a positive batch size a merge that succeeds writes the clips of the existing files at the output |
| Processor.TextToSpeechProcessor.MergeConversationVideos | tts/TextToSpeechProcessor.py:209-222 | records "EMPTY" for no lines, else `splitext(json_file)[0] + "_conversations_merged_video.mp4"`; a raising merge records nothing |
| Processor.TextToSpeechProcessor.MergeNewWordVideos | tts/TextToSpeechProcessor.py:224-237 | the same for new words with `_new_words_merged_video.mp4` |
| Processor.TextToSpeechProcessor.RecordedVideos | tts/TextToSpeechProcessor.py:244-256 | collects the recorded results that are set, not "EMPTY" and existing, conversations first; an unset result raises |
| Processor.TextToSpeechProcessor.MergeAllVideos | tts/TextToSpeechProcessor.py:239-296 | V2 merges the usable recorded results, V1 every line video then every new-word video; "EMPTY" when nothing is collected |
| Processor.TextToSpeechProcessor.MergeVideos | tts/TextToSpeechProcessor.py:203-207 | the three passes in order record their paths and leave the files `MergePlan.MergeVideos` describes; the document's content is unchanged |
| MergePlan.Loaded | tts/TextToSpeechProcessor.py:406-410 | only set paths of existing files are loaded, at most one per input file |
| MergePlan.LoadedAppend | tts/TextToSpeechProcessor.py:406-410 | loading two lists one after the other is loading their concatenation |
| MergePlan.LoadedContentAppend | tts/TextToSpeechProcessor.py:406-419 | the clips of a concatenation are the clips of the first list followed by those of the second |
| MergePlan.LoadedFrame | tts/TextToSpeechProcessor.py:407 | writing a file that is none of the inputs changes neither what is loaded nor its clips |
| MergePlan.BatchSizes | tts/TextToSpeechProcessor.py:401-402 | every batch has between 1 and `b` files, and all but the last exactly `b` |
| MergePlan.BatchesFlatten | tts/TextToSpeechProcessor.py:401-402 | the batches concatenate back to the input list |
| MergePlan.BatchAt | tts/TextToSpeechProcessor.py:401-402 | batch `k` is the slice `files[k*b : (k+1)*b]` |
| MergePlan.TempsOf | tts/TextToSpeechProcessor.py:412-416 | there are at most as many temporary files as batches |
| MergePlan.TempsNumbered | tts/TextToSpeechProcessor.py:412-416 | temporary file `i // b` holds the clips of batch `i // b`, only batches with an existing file get one, and the numbers increase |
| MergePlan.TempsCover | tts/TextToSpeechProcessor.py:401-431 | the temporary files hold every existing file's clips in order, and there are none iff no file exists |
| MergePlan.LoadClips | tts/TextToSpeechProcessor.py:403-410 | the inner loop loads exactly the batch's existing files, in order |
| MergePlan.SequentialTemps | tts/TextToSpeechProcessor.py:398-431 | the batch loop produces exactly the numbered temporary files of the batches |
| MergePlan.MergeSequential | tts/TextToSpeechProcessor.py:386-452 | no files return at once; `range()` raises for batch size 0 and is empty for a negative one; otherwise the temporary files, and a join for several, a rename for one, nothing for none |
| MergePlan.SequentialOutcome | tts/TextToSpeechProcessor.py:386-452 | with a positive batch size the sequential strategy writes exactly the existing files' clips in order, and nothing when none exists |
| MergePlan.Leaves | tts/TextToSpeechProcessor.py:313-351 | every part merged directly has between 1 and `batch_size` files |
| MergePlan.LeavesFlatten | tts/TextToSpeechProcessor.py:313-317 | the directly merged parts concatenate back to the input list |
| MergePlan.AllLeavesLoadSplit | tts/TextToSpeechProcessor.py:313-326 | every part of a list has an existing file iff that holds for both halves |
| MergePlan.BinaryOutcome | tts/TextToSpeechProcessor.py:298-366 | the binary strategy writes every existing file's clips in order iff every directly merged part has an existing file; otherwise a short list writes nothing and a long one raises |
| MergePlan.BinarySplit | tts/TextToSpeechProcessor.py:313-342 | a halved list writes the left half's clips then the right half's, and raises when a half wrote nothing |
| MergePlan.BinaryAgreesWithSequential | tts/TextToSpeechProcessor.py:298-452 | where the binary strategy succeeds it writes what the sequential one writes |
| MergePlan.BinaryRaisesWhereSequentialWrites | tts/TextToSpeechProcessor.py:325-329 | with batch size 1 and a missing second file, the binary strategy raises while the sequential one writes the first file's clips |
| MergePlan.MergeWritesLoaded | tts/TextToSpeechProcessor.py:381-385 | with a positive batch size a merge that succeeds writes the existing files' clips; it succeeds unless it is binary, longer than the batch size and has a part with no existing file, and then it raises MissingTemp |
| MergePlan.ItemsPass | tts/TextToSpeechProcessor.py:209-237 | no items record "EMPTY" and write nothing; otherwise the output path is recorded with what the merge wrote, and a raising merge records nothing |
| MergePlan.CombinedInputs | tts/TextToSpeechProcessor.py:244-256 | both recorded results must be set; the inputs are the usable ones, conversations first |
| MergePlan.ExpectedAppend | tts/TextToSpeechProcessor.py:283-294 | merging a concatenation writes the first list's clips then the second's |
| MergePlan.SequentialPass | tts/TextToSpeechProcessor.py:209-222 | a sequential pass with a positive batch size never raises and writes the merge of its videos |
| MergePlan.RecordedExpected | tts/TextToSpeechProcessor.py:239-264 | merging the two recorded results writes the conversation clips then the new-word clips |
| MergePlan.ItemsPasses | tts/TextToSpeechProcessor.py:203-237 | the two per-kind passes record their paths and write their merges |
| MergePlan.MergeAllAgain | tts/TextToSpeechProcessor.py:266-296 | V1 of merging everything writes the merge of every line video then every new-word video |
| MergePlan.MergeAllRecorded | tts/TextToSpeechProcessor.py:239-264 | V2 writes the conversation merge's clips then the new-word merge's clips |
| MergePlan.MergeAllStrategiesAgree | tts/TextToSpeechProcessor.py:239-296 | with fresh distinct outputs both ways of merging everything leave the same files, with the conversation clips then the new-word clips at the final path |
| Settings.GetEnv | tts/AppConfig.py:90-98 | the variable's value if set, else the default, else ValueError naming the variable |
| Settings.TextNeverRaises | tts/AppConfig.py:90-98 | a variable with a default never raises |
| Settings.GetInt | tts/AppConfig.py:43 | `int(...)` succeeds iff the text parses, gives its value, and otherwise raises ValueError quoting the text |
| Settings.IsTrueSpellings | tts/AppConfig.py:48 | "true" in any case is on; "false", "1", "yes", " true" and "" are off |
| Settings.FlagDefaults | tts/AppConfig.py:48-78 | an unset flag with default 'false' is off and with default 'true' is on |
| Settings.ParseRgb | tts/AppConfig.py:100-112 | every component is in 0..255; the colour is white unless the text splits into three parts that parse to its components, and three parts that `int()` accepts, all in 0..255, give exactly that colour |
| Settings.ParseRgbOf | tts/AppConfig.py:105-109 | three integers joined by commas, with any whitespace around each, give that colour when all are in 0..255, else white |
| Settings.DefaultTextColour | tts/AppConfig.py:68-73 | the default '255,255,255' is white |
| Settings.DefaultBackgroundColour | tts/AppConfig.py:74-76 | the default '166, 214, 214' parses despite its spaces |
| Settings.GetFloatText | tts/AppConfig.py:54 | `float(...)` succeeds iff the text is one Python accepts, keeps that text, and otherwise raises ValueError quoting it |
| Settings.ReadNumbersValues | tts/AppConfig.py:43-65 | the five integer reads and the float read of the volume succeed iff all parse, and hold the parsed integers and the volume's text |
| Settings.ReadNumbersFirstError | tts/AppConfig.py:43-65 | a failed read reports the first numeric variable, in reading order and the volume included, that does not parse |
| Settings.DefaultNumbers | tts/AppConfig.py:43-65 | unset numeric variables give 30, 30, 6, the volume '0.15', 26 and 24 |
| Settings.LoadSettingsFails | tts/AppConfig.py:29-65 | reading raises iff the credentials are missing or a numeric variable, integer or the float volume, does not parse; missing credentials are reported first, then the first numeric failure |
| Settings.LoadSettingsRejectsVolume | tts/AppConfig.py:54 | a volume of 'loud' makes reading raise the ValueError of `float()` |
| Settings.LoadSettingsDefaults | tts/AppConfig.py:29-79 | with only the credentials set: batches of 6 at 30 fps, V1 merges, no music at volume '0.15', slide titles on, white text on pale teal, English, the neutral speaker, output and temp under the project root |
| Settings.AssembleFlagDefaults | tts/AppConfig.py:48-78 | unset flags leave only slide titles on |
| Settings.AssembleColourDefaults | tts/AppConfig.py:68-76 | unset colours give white text and title on a pale teal background |
| Settings.LoadSettingsOverrides | tts/AppConfig.py:29-79 | set variables win over the defaults, for text, integer, volume and flag settings; a set volume is text `float()` accepts |
| Settings.AppConfig.constructor | tts/AppConfig.py:10-15 | a new instance starts uninitialized |
| Settings.AppConfig.Init | tts/AppConfig.py:17-81 | an initialized instance is left alone; otherwise a complete read stores the settings and marks it initialized, and a raise (missing credentials, or an integer or the volume that does not parse) leaves it uninitialized |
| Settings.AppConfigClass.constructor | tts/AppConfig.py:8 | the class starts with no instance |
| Settings.AppConfigClass.Call | tts/AppConfig.py:10-21 | every call returns the one instance, created on the first call, and the settings are read only until one read succeeds |
| YouTubeConfig.StripAll | tts/config/YouTubeConfig.py:63 | one stripped part per part |
| YouTubeConfig.DropBlank | tts/config/YouTubeConfig.py:63 | dropping blanks never adds strings |
| YouTubeConfig.DropBlankMembers | tts/config/YouTubeConfig.py:63 | a string is kept iff it is among the input and not empty |
| YouTubeConfig.DropBlankAppend | tts/config/YouTubeConfig.py:63 | the filter distributes over concatenation, so order is kept |
| YouTubeConfig.DropBlankKeeps | tts/config/YouTubeConfig.py:63 | non-empty strings are all kept |
| YouTubeConfig.ParseTags | tts/config/YouTubeConfig.py:51-63 | `""` gives `[]`; there are at most as many tags as parts, each stripped and non-empty |
| YouTubeConfig.ParseTagsMembers | tts/config/YouTubeConfig.py:63 | a tag comes from a non-blank stripped part, and every such part gives one |
| YouTubeConfig.ParseTagsConcat | tts/config/YouTubeConfig.py:63 | the tags of `a + "," + b` are the tags of `a` followed by those of `b` |
| YouTubeConfig.ParseTagsJoin | tts/config/YouTubeConfig.py:63 | stripped, non-empty, comma-free tags survive being joined with commas and parsed |
| YouTubeConfig.ParseTagsIdempotent | tts/config/YouTubeConfig.py:51-63 | parsing the joined tags again gives the same tags |
| YouTubeConfig.LoadYouTubeSettings | tts/config/YouTubeConfig.py:17-33 | raises the missing-variable ValueError iff `YOUTUBE_CLIENT_SECRETS_FILE` is unset, and otherwise keeps its value |
| YouTubeConfig.YouTubeDefaults | tts/config/YouTubeConfig.py:29-31 | the defaults are privacy 'private', category '27' and no tags |
| YouTubeConfig.YouTubeOverrides | tts/config/YouTubeConfig.py:26-31 | set variables win, and the tags are those of the variable's text |
| YouTubeConfig.YouTubeConfig.constructor | tts/config/YouTubeConfig.py:10-15 | a new instance starts uninitialized |
| YouTubeConfig.YouTubeConfig.Init | tts/config/YouTubeConfig.py:17-33 | an initialized instance is left alone; otherwise a complete read stores the settings and marks it initialized |
| YouTubeConfig.YouTubeConfigClass.constructor | tts/config/YouTubeConfig.py:8 | the class starts with no instance |
| YouTubeConfig.YouTubeConfigClass.Call | tts/config/YouTubeConfig.py:10-21 | every call returns the one instance, created on the first call, and initialisation runs until it succeeds once |
| PyStrings.Strip | tts/config/YouTubeConfig.py:63 | `strip()` leaves no whitespace at either end and never lengthens |
| PyStrings.StripPadded | tts/config/YouTubeConfig.py:63 | whitespace around a stripped string is exactly what `strip()` removes |
| PyStrings.StripStripped | tts/config/YouTubeConfig.py:63 | `strip()` leaves a stripped string alone |
| PyStrings.StripKeepsOut | tts/config/YouTubeConfig.py:63 | `strip()` adds no character |
| PyStrings.LStripChar | tts/TextToSpeechProcessor.py:559 | `lstrip(c)` removes exactly the leading run of `c` |
| PyStrings.Split | tts/AppConfig.py:106 | `split(sep)` gives at least one part and no part holds the separator |
| PyStrings.JoinSplit | tts/AppConfig.py:106 | joining the parts of a split gives back the string |
| PyStrings.SplitJoin | tts/AppConfig.py:106 | splitting a join gives back parts that hold no separator |
| PyStrings.SplitConcat | tts/config/YouTubeConfig.py:63 | splitting `a + sep + b` gives the parts of `a` then those of `b` |
| PyNumbers.NatToDecimal | tts/AudioLengthProcessor.py:41 | `str(n)` of a natural number is a non-empty run of decimal digits |
| PyNumbers.ParseIntDecimal | tts/AppConfig.py:43 | `int(str(n)) == n`, with any whitespace around |
| PyNumbers.ParseIntRejects | tts/AppConfig.py:43 | `int("")` and `int("abc")` raise |
| PyNumbers.ParseIntRejectsDoubleUnderscore | tts/AppConfig.py:43 | `int("1__0")` raises |
| PyNumbers.ParseShortDigits | tts/AppConfig.py:43 | `int()` of one or two digits is their decimal value |
| PyNumbers.IntTextIsFloatText | tts/AppConfig.py:54 | every text `int()` accepts, `float()` accepts too |
| PyNumbers.FloatParsesExamples | tts/AppConfig.py:54 | `float()` accepts '0.15', '1e-3' and '-Infinity' and rejects 'loud', '.' and '1_.5' |
| PyPath.SplitextRoot | tts/AudioLengthProcessor.py:45 | `splitext(p)[0]` is a prefix of `p`; what it drops starts with the last '.' of the last component, which is not all dots before it |
| PyPath.SplitFileName | tts/AudioLengthProcessor.py:10-45 | for `dir/name.ext`, `splitext` drops `.ext` and `dirname` gives `dir` |
| PyJson.Lookup | tts/Conversations.py:79-81 | `d[key]` finds the key's entry, and is missing iff the key is not in the dict |
| PyJson.SetKey | tts/AudioLengthProcessor.py:42 | item assignment keeps every key in its place and adds a new key last |
| PyJson.SetKeyLookup | tts/AudioLengthProcessor.py:42 | after `d[key] = v`, `d[key]` is `v` and every other key reads as before |
| PyJson.SetKeyKeys | tts/AudioLengthProcessor.py:42 | item assignment adds `key` to the keys and keeps them distinct |
| PyJson.Iterate | tts/AudioLengthProcessor.py:38 | a `for` loop needs a list, string or dict, visits one element per item, and visits none iff the value is falsy |

## Left out

- Media work is left out: moviepy clip loading, concatenation and encoding (codecs, fps), and temporary directories and their clean-up. A file is modelled as the clips it holds. Temporary files have no lasting effect, so they are not kept in the file system.
- File and directory I/O is left out: `json.load`/`json.dump`, `os.path.exists`, `os.listdir` and `os.makedirs`. The parsed document, the existing files, the directory listing and whether the audio directory exists are parameters.
- MP3 durations (`int(audio.info.length * 1000)`) involve floating point and a foreign library. Each listing entry carries its length as a natural number. So the exception `MP3(audio_path)` raises for an entry named `*.mp3` that cannot be read as an MP3 (a corrupt file or a directory) is not modelled.
- `load_dotenv` and `os.getenv` are left out. The environment after `.env` is loaded is a map parameter. The project root found from `__file__` is a parameter too.
- `background_music_volume` is a float. Its value is kept as the text given to `float()`. Which texts `float()` accepts, and the ValueError it raises otherwise, are modelled.
- Settings.GetInt: `int()` is modelled on ASCII digits. Python also accepts other Unicode decimal digits and rejects texts of more than 4300 digits. Neither is modelled, and the same holds for PyNumbers.ParseInt.
- Settings.ParseRgb: `int()` is modelled on ASCII digits, as for Settings.GetInt.
- Settings.GetFloatText: `float()` is modelled on ASCII digits, and the same holds for PyNumbers.FloatParses.
- Settings.AppConfig.Init: when a read raises, Python has already set the attributes read before it. The model records no settings in that case.
- ProcessorText.NewWordTextShape: states the prefix and suffix of the sentence rather than the whole string.
- ProcessorText.NewWordSlideShape: states the prefix and suffix of the slide text rather than the whole string.
- VoiceAssignment.RunFrom: its own contract gives only the number of speakers served. What the run assigns is stated by FreshRun, VoiceFromPool, ScannedVoicesDistinct and RunFails.
- `str.lower()` is modelled on ASCII letters only. The comparisons in the code are with "true" and with the pool names, which have no letter that a non-ASCII character lower-cases to, so they come out the same.
- `str()` of a non-string JSON value follows `repr()` for null, booleans and integers, and for the structure of lists and dicts. JSON floats are not modelled.
- `repr()`'s escaping of strings (`PyJson.ReprString`) is approximated. Control characters and Latin-1 non-printables are escaped as Python does. Other non-printable characters (format, private-use, unassigned and surrogate code points) are kept as they are, and `\U%08x` escapes are not produced.
- Processor.TextToSpeechProcessor.MergeVideos: when a pass raises, the model returns only the error and the paths recorded so far. The files the earlier passes wrote, and whatever the failing pass wrote before it raised, are not returned.
- Loading a document from MongoDB (`Conversations.from_mongodb`, `get_location`), the speech, slide and video generators, and the YouTube and MongoDB uploads are left out. They are foreign or network calls. `Processor.TextToSpeechProcessor.Create` takes the loaded document as a parameter.
- A line's or new word's `video` is assumed to be a string or None, as `process_conversations` and `process_new_words` set it. Any other value counts as not loadable (MergePlan.Loadable), where `os.path.exists` would raise TypeError for a list or dict and treat an int or bool as a file descriptor.
- `process_conversations` and `process_new_words` are left out. They only pass paths through the external generators. The videos they give the new words are the `newWordVideos` parameter of the merge passes, because `NewWord` itself has no `video` attribute.
- `get_conversations` and `get_new_words` only return the document's lists. They are the `conversations` and `newWords` fields of `Conversations.Document`.
- Concurrency does not arise: the code is single-threaded. The singletons are modelled for a single caller.
