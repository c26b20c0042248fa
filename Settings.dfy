/** The application settings read from the environment (`tts/AppConfig.py`):
    a value per variable with its default, integers and flags parsed from
    text, RGB colours with a white fallback, and the singleton that reads
    them once. */
module Settings {
  import opened Wrappers
  import opened PyStrings
  import opened PyNumbers
  import opened PyPath
  import opened PyJson

  /** The process environment, after `.env` has been loaded. */
  type Env = map<string, string>

  /** `_get_env`: the variable's value, else the default; with neither it raises. */
  function GetEnv(env: Env, key: string, default: Option<string>): (r: Result<string, PyError>)
    ensures r.Ok? <==> key in env || default.Some?
    ensures key in env ==> r.value == env[key]
    ensures key !in env && default.Some? ==> r.value == default.value
    ensures r.Err? ==> r.error == ValueError(MissingMessage(key))
  {
    if key in env then Ok(env[key])
    else if default.Some? then Ok(default.value)
    else Err(ValueError(MissingMessage(key)))
  }

  function MissingMessage(key: string): string {
    "Environment variable " + key + " not set and no default provided"
  }

  /** `self._get_env(key, default)` for a variable that has a default. */
  function Text(env: Env, key: string, default: string): string {
    if key in env then env[key] else default
  }

  /** A variable with a default never raises, and reads as `Text` says. */
  lemma TextNeverRaises(env: Env, key: string, default: string)
    ensures GetEnv(env, key, Some(default)) == Ok(Text(env, key, default))
  {
  }

  /** `int(self._get_env(key, default))`. */
  function GetInt(env: Env, key: string, default: string): (r: Result<int, PyError>)
    ensures r.Ok? <==> ParseInt(Text(env, key, default)).Some?
    ensures r.Ok? ==> Some(r.value) == ParseInt(Text(env, key, default))
    ensures r.Err? ==> r.error == ValueError("invalid literal for int() with base 10: " + ReprString(Text(env, key, default)))
  {
    var text := Text(env, key, default);
    match ParseInt(text)
    case Some(n) => Ok(n)
    case None => Err(ValueError("invalid literal for int() with base 10: " + ReprString(text)))
  }

  /** `float(self._get_env(key, default))`. The float's value is not
      modelled: a text `float()` accepts is kept as it is. */
  function GetFloatText(env: Env, key: string, default: string): (r: Result<string, PyError>)
    ensures r.Ok? <==> FloatParses(Text(env, key, default))
    ensures r.Ok? ==> r.value == Text(env, key, default)
    ensures r.Err? ==> r.error == ValueError("could not convert string to float: " + ReprString(Text(env, key, default)))
  {
    var text := Text(env, key, default);
    if FloatParses(text) then Ok(text)
    else Err(ValueError("could not convert string to float: " + ReprString(text)))
  }

  /** `self._get_env(key, default).lower() == 'true'`. */
  function GetFlag(env: Env, key: string, default: string): bool {
    IsTrue(Text(env, key, default))
  }

  predicate IsTrue(v: string) {
    LowerAscii(v) == "true"
  }

  /** A flag is on for "true" in any mix of upper and lower case, and for
      nothing else. */
  lemma IsTrueSpellings()
    ensures IsTrue("true") && IsTrue("True") && IsTrue("TRUE")
    ensures !IsTrue("false") && !IsTrue("1") && !IsTrue("yes") && !IsTrue(" true") && !IsTrue("")
  {
    assert LowerAscii("True") == "true";
    assert LowerAscii("TRUE") == "true";
    assert |LowerAscii(" true")| == 5;
  }

  datatype Rgb = Rgb(r: int, g: int, b: int)

  const WHITE := Rgb(255, 255, 255)

  predicate InByte(x: int) {
    0 <= x <= 255
  }

  /** `_parse_rgb_color`: three comma-separated integers between 0 and 255;
      anything else gives white. */
  function ParseRgb(s: string): (c: Rgb)
    ensures InByte(c.r) && InByte(c.g) && InByte(c.b)
    ensures c == WHITE || (|Split(s, ',')| == 3 &&
      ParseInt(Split(s, ',')[0]) == Some(c.r) &&
      ParseInt(Split(s, ',')[1]) == Some(c.g) &&
      ParseInt(Split(s, ',')[2]) == Some(c.b))
    ensures var parts := Split(s, ',');
      (|parts| == 3 && ParseInt(parts[0]).Some? && ParseInt(parts[1]).Some? && ParseInt(parts[2]).Some? &&
       InByte(ParseInt(parts[0]).value) && InByte(ParseInt(parts[1]).value) && InByte(ParseInt(parts[2]).value)) ==>
        c == Rgb(ParseInt(parts[0]).value, ParseInt(parts[1]).value, ParseInt(parts[2]).value)
  {
    var parts := Split(s, ',');
    if |parts| != 3 then WHITE
    else
      match (ParseInt(parts[0]), ParseInt(parts[1]), ParseInt(parts[2]))
      case (Some(r), Some(g), Some(b)) =>
        if InByte(r) && InByte(g) && InByte(b) then Rgb(r, g, b) else WHITE
      case _ => WHITE
  }

  /** Three integers separated by commas, each with any whitespace around
      it, parse to that colour when all three are between 0 and 255, and
      to white otherwise. */
  lemma ParseRgbOf(r: int, g: int, b: int, w: seq<string>)
    requires |w| == 6 && forall i :: 0 <= i < 6 ==> AllSpace(w[i])
    ensures ParseRgb(w[0] + IntToDecimal(r) + w[1] + "," + w[2] + IntToDecimal(g) + w[3] + "," +
                     w[4] + IntToDecimal(b) + w[5]) ==
      if InByte(r) && InByte(g) && InByte(b) then Rgb(r, g, b) else WHITE
  {
    var p0 := w[0] + IntToDecimal(r) + w[1];
    var p1 := w[2] + IntToDecimal(g) + w[3];
    var p2 := w[4] + IntToDecimal(b) + w[5];
    var t := w[0] + IntToDecimal(r) + w[1] + "," + w[2] + IntToDecimal(g) + w[3] + "," +
             w[4] + IntToDecimal(b) + w[5];
    NoCommaInPart(w[0], r, w[1]);
    NoCommaInPart(w[2], g, w[3]);
    NoCommaInPart(w[4], b, w[5]);
    SplitsInThree(p0, p1, p2, t);
    ParseIntDecimal(r, w[0], w[1]);
    ParseIntDecimal(g, w[2], w[3]);
    ParseIntDecimal(b, w[4], w[5]);
    ParseRgbOfParts(t, r, g, b);
  }

  lemma ParseRgbOfParts(s: string, r: int, g: int, b: int)
    requires |Split(s, ',')| == 3
    requires ParseInt(Split(s, ',')[0]) == Some(r)
    requires ParseInt(Split(s, ',')[1]) == Some(g)
    requires ParseInt(Split(s, ',')[2]) == Some(b)
    ensures ParseRgb(s) == if InByte(r) && InByte(g) && InByte(b) then Rgb(r, g, b) else WHITE
  {
  }

  lemma SplitsInThree(p0: string, p1: string, p2: string, s: string)
    requires ',' !in p0 && ',' !in p1 && ',' !in p2
    requires s == p0 + "," + p1 + "," + p2
    ensures Split(s, ',') == [p0, p1, p2]
  {
    SplitJoin([p0, p1, p2], ',');
    JoinThree(p0, p1, p2);
  }

  lemma JoinThree(p0: string, p1: string, p2: string)
    ensures Join([p0, p1, p2], [',']) == p0 + "," + p1 + "," + p2
  {
    assert [p0, p1, p2][1..] == [p1, p2];
    assert [p1, p2][1..] == [p2];
    assert Join([p1, p2], [',']) == p1 + [','] + p2;
  }

  lemma NoCommaInPart(w1: string, n: int, w2: string)
    requires AllSpace(w1) && AllSpace(w2)
    ensures ',' !in w1 + IntToDecimal(n) + w2
  {
    var d := IntToDecimal(n);
    assert forall i :: 0 <= i < |d| ==> d[i] != ',' by {
      if n < 0 {
        assert d == "-" + NatToDecimal(-n);
      }
    }
    assert forall i :: 0 <= i < |w1| ==> w1[i] != ',' by {
      assert forall i :: 0 <= i < |w1| ==> IsSpace(w1[i]);
    }
    assert forall i :: 0 <= i < |w2| ==> w2[i] != ',' by {
      assert forall i :: 0 <= i < |w2| ==> IsSpace(w2[i]);
    }
  }

  /** The default text colour is white. */
  lemma DefaultTextColour()
    ensures ParseRgb("255,255,255") == WHITE
  {
    assert IntToDecimal(255) == "255";
    assert "" + "255" + "" + "," + "" + "255" + "" + "," + "" + "255" + "" == "255,255,255";
    ParseRgbOf(255, 255, 255, ["", "", "", "", "", ""]);
  }

  /** The default text background is a pale teal. */
  lemma DefaultBackgroundColour()
    ensures ParseRgb("166, 214, 214") == Rgb(166, 214, 214)
  {
    assert IntToDecimal(166) == "166";
    assert IntToDecimal(214) == "214";
    assert "" + "166" + "" + "," + " " + "214" + "" + "," + " " + "214" + "" == "166, 214, 214";
    ParseRgbOf(166, 214, 214, ["", "", " ", "", " ", ""]);
  }

  /** Every attribute `AppConfig.__init__` sets, in its order. The music
      volume is kept as the text `float()` is given. */
  datatype AppSettings = AppSettings(
    projectRoot: string,
    googleCredentials: string,
    defaultLanguage: string,
    defaultSpeaker: string,
    audioFormat: string,
    audioQuality: string,
    textToAudioCodec: string,
    mergedAudioCodec: string,
    videoFormat: string,
    videoFps: int,
    mergedVideoFps: int,
    imageToVideoCodec: string,
    mergedVideoCodec: string,
    videoBatchSize: int,
    useV2Merge: bool,
    useV2MergeAll: bool,
    enableBackgroundMusic: bool,
    backgroundMusicFile: string,
    backgroundMusicVolume: string,
    outputDir: string,
    tempDir: string,
    conversationsBackground: string,
    newWordsBackground: string,
    slideGenerationModePdf: bool,
    slideTitleFontSize: int,
    slideContentFontSize: int,
    slideTitleFontName: string,
    slideContentFontName: string,
    slideContentFontColor: Rgb,
    slideTitleFontColor: Rgb,
    slideTextBackgroundColor: Rgb,
    enableSlideTitle: bool,
    databaseName: string)

  /** The six numeric settings: five integers and the music volume, a
      float kept as the text `float()` accepted. */
  datatype NumberSettings = NumberSettings(videoFps: int, mergedVideoFps: int, videoBatchSize: int,
                                           backgroundMusicVolume: string,
                                           slideTitleFontSize: int, slideContentFontSize: int)

  /** The variable holds an integer, or is unset and its default does. */
  predicate Parses(env: Env, key: string, default: string) {
    ParseInt(Text(env, key, default)).Some?
  }

  /** The music volume holds a float, or is unset. */
  predicate VolumeParses(env: Env) {
    FloatParses(Text(env, "BACKGROUND_MUSIC_VOLUME", "0.15"))
  }

  /** The first three `int(...)` reads: the frame rates and the batch size. */
  function ReadVideoInts(env: Env): (r: Result<(int, int, int), PyError>)
    ensures r.Ok? <==> Parses(env, "VIDEO_FPS", "30") && Parses(env, "MERGED_VIDEO_FPS", "30") &&
                       Parses(env, "VIDEO_BATCH_SIZE", "6")
    ensures r.Ok? ==>
      && Some(r.value.0) == ParseInt(Text(env, "VIDEO_FPS", "30"))
      && Some(r.value.1) == ParseInt(Text(env, "MERGED_VIDEO_FPS", "30"))
      && Some(r.value.2) == ParseInt(Text(env, "VIDEO_BATCH_SIZE", "6"))
    ensures r.Err? ==>
              r.error == (if !Parses(env, "VIDEO_FPS", "30") then GetInt(env, "VIDEO_FPS", "30").error
                          else if !Parses(env, "MERGED_VIDEO_FPS", "30") then GetInt(env, "MERGED_VIDEO_FPS", "30").error
                          else GetInt(env, "VIDEO_BATCH_SIZE", "6").error)
  {
    var videoFps :- GetInt(env, "VIDEO_FPS", "30");
    var mergedVideoFps :- GetInt(env, "MERGED_VIDEO_FPS", "30");
    var batchSize :- GetInt(env, "VIDEO_BATCH_SIZE", "6");
    Ok((videoFps, mergedVideoFps, batchSize))
  }

  /** The last two `int(...)` reads: the slide font sizes. */
  function ReadSlideSizes(env: Env): (r: Result<(int, int), PyError>)
    ensures r.Ok? <==> Parses(env, "SLIDE_TITLE_FONT_SIZE", "26") && Parses(env, "SLIDE_CONTENT_FONT_SIZE", "24")
    ensures r.Ok? ==>
      && Some(r.value.0) == ParseInt(Text(env, "SLIDE_TITLE_FONT_SIZE", "26"))
      && Some(r.value.1) == ParseInt(Text(env, "SLIDE_CONTENT_FONT_SIZE", "24"))
    ensures r.Err? ==>
              r.error == (if !Parses(env, "SLIDE_TITLE_FONT_SIZE", "26") then GetInt(env, "SLIDE_TITLE_FONT_SIZE", "26").error
                          else GetInt(env, "SLIDE_CONTENT_FONT_SIZE", "24").error)
  {
    var titleSize :- GetInt(env, "SLIDE_TITLE_FONT_SIZE", "26");
    var contentSize :- GetInt(env, "SLIDE_CONTENT_FONT_SIZE", "24");
    Ok((titleSize, contentSize))
  }

  /** The six `int(...)` and `float(...)` reads of `__init__`, in its order;
      the first that raises stops the reading. */
  function ReadNumbers(env: Env): Result<NumberSettings, PyError> {
    var video :- ReadVideoInts(env);
    var volume :- GetFloatText(env, "BACKGROUND_MUSIC_VOLUME", "0.15");
    var sizes :- ReadSlideSizes(env);
    Ok(NumberSettings(video.0, video.1, video.2, volume, sizes.0, sizes.1))
  }

  predicate NumbersParse(env: Env) {
    && Parses(env, "VIDEO_FPS", "30")
    && Parses(env, "MERGED_VIDEO_FPS", "30")
    && Parses(env, "VIDEO_BATCH_SIZE", "6")
    && VolumeParses(env)
    && Parses(env, "SLIDE_TITLE_FONT_SIZE", "26")
    && Parses(env, "SLIDE_CONTENT_FONT_SIZE", "24")
  }

  /** The numeric reads succeed exactly when all six parse, and then hold
      the parsed values. */
  lemma ReadNumbersValues(env: Env)
    ensures ReadNumbers(env).Ok? <==> NumbersParse(env)
    ensures ReadNumbers(env).Ok? ==> var v := ReadNumbers(env).value;
      && Some(v.videoFps) == ParseInt(Text(env, "VIDEO_FPS", "30"))
      && Some(v.mergedVideoFps) == ParseInt(Text(env, "MERGED_VIDEO_FPS", "30"))
      && Some(v.videoBatchSize) == ParseInt(Text(env, "VIDEO_BATCH_SIZE", "6"))
      && v.backgroundMusicVolume == Text(env, "BACKGROUND_MUSIC_VOLUME", "0.15")
      && Some(v.slideTitleFontSize) == ParseInt(Text(env, "SLIDE_TITLE_FONT_SIZE", "26"))
      && Some(v.slideContentFontSize) == ParseInt(Text(env, "SLIDE_CONTENT_FONT_SIZE", "24"))
  {
    ReadNumbersOk(env);
    if ReadNumbers(env).Ok? {
      ReadNumbersParsed(env);
    }
  }

  lemma ReadNumbersOk(env: Env)
    ensures ReadNumbers(env).Ok? <==> NumbersParse(env)
  {
    var video := ReadVideoInts(env);
    var volume := GetFloatText(env, "BACKGROUND_MUSIC_VOLUME", "0.15");
    var sizes := ReadSlideSizes(env);
    assert ReadNumbers(env).Ok? <==> video.Ok? && volume.Ok? && sizes.Ok?;
  }

  lemma ReadNumbersParsed(env: Env)
    requires ReadNumbers(env).Ok?
    ensures var v := ReadNumbers(env).value;
      && Some(v.videoFps) == ParseInt(Text(env, "VIDEO_FPS", "30"))
      && Some(v.mergedVideoFps) == ParseInt(Text(env, "MERGED_VIDEO_FPS", "30"))
      && Some(v.videoBatchSize) == ParseInt(Text(env, "VIDEO_BATCH_SIZE", "6"))
      && v.backgroundMusicVolume == Text(env, "BACKGROUND_MUSIC_VOLUME", "0.15")
      && Some(v.slideTitleFontSize) == ParseInt(Text(env, "SLIDE_TITLE_FONT_SIZE", "26"))
      && Some(v.slideContentFontSize) == ParseInt(Text(env, "SLIDE_CONTENT_FONT_SIZE", "24"))
  {
    var video := ReadVideoInts(env);
    var volume := GetFloatText(env, "BACKGROUND_MUSIC_VOLUME", "0.15");
    var sizes := ReadSlideSizes(env);
    assert video.Ok? && volume.Ok? && sizes.Ok?;
    assert ReadNumbers(env).value == NumberSettings(video.value.0, video.value.1, video.value.2, volume.value,
                                                    sizes.value.0, sizes.value.1);
  }

  /** A failed read reports the first variable, in reading order, that
      does not parse. */
  lemma ReadNumbersFirstError(env: Env)
    ensures !Parses(env, "VIDEO_FPS", "30") ==>
      ReadNumbers(env) == Err(GetInt(env, "VIDEO_FPS", "30").error)
    ensures Parses(env, "VIDEO_FPS", "30") && !Parses(env, "MERGED_VIDEO_FPS", "30") ==>
      ReadNumbers(env) == Err(GetInt(env, "MERGED_VIDEO_FPS", "30").error)
    ensures (Parses(env, "VIDEO_FPS", "30") && Parses(env, "MERGED_VIDEO_FPS", "30") &&
      !Parses(env, "VIDEO_BATCH_SIZE", "6")) ==>
      ReadNumbers(env) == Err(GetInt(env, "VIDEO_BATCH_SIZE", "6").error)
    ensures (Parses(env, "VIDEO_FPS", "30") && Parses(env, "MERGED_VIDEO_FPS", "30") &&
      Parses(env, "VIDEO_BATCH_SIZE", "6") && !VolumeParses(env)) ==>
      ReadNumbers(env) == Err(GetFloatText(env, "BACKGROUND_MUSIC_VOLUME", "0.15").error)
    ensures (Parses(env, "VIDEO_FPS", "30") && Parses(env, "MERGED_VIDEO_FPS", "30") &&
      Parses(env, "VIDEO_BATCH_SIZE", "6") && VolumeParses(env) &&
      !Parses(env, "SLIDE_TITLE_FONT_SIZE", "26")) ==>
      ReadNumbers(env) == Err(GetInt(env, "SLIDE_TITLE_FONT_SIZE", "26").error)
    ensures (Parses(env, "VIDEO_FPS", "30") && Parses(env, "MERGED_VIDEO_FPS", "30") &&
      Parses(env, "VIDEO_BATCH_SIZE", "6") && VolumeParses(env) &&
      Parses(env, "SLIDE_TITLE_FONT_SIZE", "26") && !Parses(env, "SLIDE_CONTENT_FONT_SIZE", "24")) ==>
      ReadNumbers(env) == Err(GetInt(env, "SLIDE_CONTENT_FONT_SIZE", "24").error)
  {
  }

  /** The attributes in `__init__`'s order, once the integers are read. */
  function Assemble(env: Env, projectRoot: string, credentials: string, numbers: NumberSettings): AppSettings {
    var background := PathJoin(PathJoin(projectRoot, "data"), "background.jpg");
    AppSettings(
      projectRoot,
      credentials,
      Text(env, "DEFAULT_LANGUAGE", "English"),
      Text(env, "DEFAULT_SPEAKER", "neutral"),
      Text(env, "AUDIO_FORMAT", "mp3"),
      Text(env, "AUDIO_QUALITY", "high"),
      Text(env, "TEXT_TO_AUDIO_CODEC", "aac"),
      Text(env, "MERGED_AUDIO_CODEC", "aac"),
      Text(env, "VIDEO_FORMAT", "mp4"),
      numbers.videoFps,
      numbers.mergedVideoFps,
      Text(env, "IMAGE_TO_VIDEO_CODEC", "libx264"),
      Text(env, "MERGED_VIDEO_CODEC", "libx264"),
      numbers.videoBatchSize,
      GetFlag(env, "USE_V2_MERGE", "false"),
      GetFlag(env, "USE_V2_MERGE_ALL", "false"),
      GetFlag(env, "ENABLE_BACKGROUND_MUSIC", "false"),
      Text(env, "BACKGROUND_MUSIC_FILE", "NONE"),
      numbers.backgroundMusicVolume,
      Text(env, "OUTPUT_DIR", PathJoin(projectRoot, "data")),
      Text(env, "TEMP_DIR", PathJoin(projectRoot, "temp")),
      Text(env, "CONVERSATIONS_BACKGROUND", background),
      Text(env, "NEW_WORDS_BACKGROUND", background),
      GetFlag(env, "SLIDE_GENERATION_MODE_PDF", "false"),
      numbers.slideTitleFontSize,
      numbers.slideContentFontSize,
      Text(env, "SLIDE_TITLE_FONT_NAME", "Avenir"),
      Text(env, "SLIDE_CONTENT_FONT_NAME", "Avenir"),
      ParseRgb(Text(env, "SLIDE_CONTENT_FONT_COLOR", "255,255,255")),
      ParseRgb(Text(env, "SLIDE_TITLE_FONT_COLOR", "255,255,255")),
      ParseRgb(Text(env, "SLIDE_TEXT_BACKGROUND_COLOR", "166, 214, 214")),
      GetFlag(env, "ENABLE_SLIDE_TITLE", "true"),
      Text(env, "MONGODB_DATABASE", "daily-conversation"))
  }

  /** The body of `AppConfig.__init__`: the credentials have no default,
      then the integers and the volume must parse; every other variable
      falls back to its default. */
  function LoadSettings(env: Env, projectRoot: string): Result<AppSettings, PyError> {
    var credentials :- GetEnv(env, "GOOGLE_APPLICATION_CREDENTIALS", None);
    var numbers :- ReadNumbers(env);
    Ok(Assemble(env, projectRoot, credentials, numbers))
  }

  /** Reading the settings raises exactly when the credentials are missing
      or a numeric variable does not parse, and missing credentials are
      reported before any number. */
  lemma LoadSettingsFails(env: Env, projectRoot: string)
    ensures LoadSettings(env, projectRoot).Err? <==> "GOOGLE_APPLICATION_CREDENTIALS" !in env || !NumbersParse(env)
    ensures "GOOGLE_APPLICATION_CREDENTIALS" !in env ==>
      LoadSettings(env, projectRoot) == Err(ValueError(MissingMessage("GOOGLE_APPLICATION_CREDENTIALS")))
    ensures "GOOGLE_APPLICATION_CREDENTIALS" in env && !NumbersParse(env) ==>
      LoadSettings(env, projectRoot) == Err(ReadNumbers(env).error)
  {
    ReadNumbersValues(env);
  }

  /** A music volume that `float()` rejects makes the whole read raise with
      `float()`'s error, even with every integer at its default. */
  lemma LoadSettingsRejectsVolume(credentials: string, projectRoot: string)
    ensures var env := map["GOOGLE_APPLICATION_CREDENTIALS" := credentials, "BACKGROUND_MUSIC_VOLUME" := "loud"];
      LoadSettings(env, projectRoot) == Err(ValueError("could not convert string to float: " + ReprString("loud")))
  {
    var env := map["GOOGLE_APPLICATION_CREDENTIALS" := credentials, "BACKGROUND_MUSIC_VOLUME" := "loud"];
    VideoIntDefaults(env);
    assert Text(env, "BACKGROUND_MUSIC_VOLUME", "0.15") == "loud";
    FloatRejectsWord();
    VolumeErrorStops(env);
    ReadNumbersOk(env);
    LoadSettingsFails(env, projectRoot);
  }

  /** Once the video integers are read, a volume `float()` rejects stops
      the reading with its error. */
  lemma VolumeErrorStops(env: Env)
    requires ReadVideoInts(env).Ok? && !VolumeParses(env)
    ensures ReadNumbers(env) == Err(GetFloatText(env, "BACKGROUND_MUSIC_VOLUME", "0.15").error)
  {
  }

  /** Unset frame rates and batch size read as 30, 30 and 6. */
  lemma VideoIntDefaults(env: Env)
    requires "VIDEO_FPS" !in env && "MERGED_VIDEO_FPS" !in env && "VIDEO_BATCH_SIZE" !in env
    ensures ReadVideoInts(env) == Ok((30, 30, 6))
  {
    Parses30();
    Parses6();
  }

  lemma Parses30() ensures ParseInt("30") == Some(30) {
    ParseShortDigits("30");
  }

  lemma Parses6() ensures ParseInt("6") == Some(6) {
    ParseShortDigits("6");
  }

  lemma Parses26() ensures ParseInt("26") == Some(26) {
    ParseShortDigits("26");
  }

  lemma Parses24() ensures ParseInt("24") == Some(24) {
    ParseShortDigits("24");
  }

  predicate NumbersUnset(env: Env) {
    && "VIDEO_FPS" !in env && "MERGED_VIDEO_FPS" !in env && "VIDEO_BATCH_SIZE" !in env
    && "BACKGROUND_MUSIC_VOLUME" !in env
    && "SLIDE_TITLE_FONT_SIZE" !in env && "SLIDE_CONTENT_FONT_SIZE" !in env
  }

  /** The numeric defaults: 30 frames per second for clips and for the
      merged video, batches of 6, volume 0.15, title and content font sizes
      26 and 24. */
  lemma DefaultNumbers(env: Env)
    requires NumbersUnset(env)
    ensures ReadNumbers(env) == Ok(NumberSettings(30, 30, 6, "0.15", 26, 24))
  {
    FloatAcceptsDefaultVolume();
    Parses30();
    Parses6();
    Parses26();
    Parses24();
  }

  /** With only the credentials set, every setting takes its documented
      default: sequential merging in batches of 6 at 30 fps, slide titles
      on, white text on a pale teal background, English and the neutral
      voice, output under the project's `data` directory. */
  lemma LoadSettingsDefaults(credentials: string, projectRoot: string)
    ensures var r := LoadSettings(map["GOOGLE_APPLICATION_CREDENTIALS" := credentials], projectRoot);
      && r.Ok?
      && r.value.googleCredentials == credentials
      && r.value.videoBatchSize == 6 && r.value.videoFps == 30 && r.value.mergedVideoFps == 30
      && !r.value.useV2Merge && !r.value.useV2MergeAll && !r.value.enableBackgroundMusic
      && r.value.backgroundMusicVolume == "0.15"
      && r.value.enableSlideTitle && !r.value.slideGenerationModePdf
      && r.value.slideTitleFontSize == 26 && r.value.slideContentFontSize == 24
      && r.value.slideContentFontColor == WHITE && r.value.slideTitleFontColor == WHITE
      && r.value.slideTextBackgroundColor == Rgb(166, 214, 214)
      && r.value.defaultLanguage == "English" && r.value.defaultSpeaker == "neutral"
      && r.value.outputDir == PathJoin(projectRoot, "data")
      && r.value.tempDir == PathJoin(projectRoot, "temp")
  {
    var env := map["GOOGLE_APPLICATION_CREDENTIALS" := credentials];
    LoadsDefaultNumbers(credentials, projectRoot);
    AssembleFlagDefaults(env, projectRoot, credentials, NumberSettings(30, 30, 6, "0.15", 26, 24));
    AssembleColourDefaults(env, projectRoot, credentials, NumberSettings(30, 30, 6, "0.15", 26, 24));
  }

  lemma LoadsDefaultNumbers(credentials: string, projectRoot: string)
    ensures var env := map["GOOGLE_APPLICATION_CREDENTIALS" := credentials];
      LoadSettings(env, projectRoot) == Ok(Assemble(env, projectRoot, credentials, NumberSettings(30, 30, 6, "0.15", 26, 24)))
  {
    DefaultNumbers(map["GOOGLE_APPLICATION_CREDENTIALS" := credentials]);
  }

  /** The flags, with their variables unset: only slide titles are on. */
  lemma AssembleFlagDefaults(env: Env, projectRoot: string, credentials: string, numbers: NumberSettings)
    requires env.Keys == {"GOOGLE_APPLICATION_CREDENTIALS"}
    ensures var a := Assemble(env, projectRoot, credentials, numbers);
      && !a.useV2Merge && !a.useV2MergeAll && !a.enableBackgroundMusic
      && a.enableSlideTitle && !a.slideGenerationModePdf
  {
    FlagDefaults(env, "USE_V2_MERGE");
    FlagDefaults(env, "USE_V2_MERGE_ALL");
    FlagDefaults(env, "ENABLE_BACKGROUND_MUSIC");
    FlagDefaults(env, "SLIDE_GENERATION_MODE_PDF");
    FlagDefaults(env, "ENABLE_SLIDE_TITLE");
  }

  /** The colours, with their variables unset. */
  lemma AssembleColourDefaults(env: Env, projectRoot: string, credentials: string, numbers: NumberSettings)
    requires env.Keys == {"GOOGLE_APPLICATION_CREDENTIALS"}
    ensures var a := Assemble(env, projectRoot, credentials, numbers);
      && a.slideContentFontColor == WHITE && a.slideTitleFontColor == WHITE
      && a.slideTextBackgroundColor == Rgb(166, 214, 214)
  {
    assert Text(env, "SLIDE_CONTENT_FONT_COLOR", "255,255,255") == "255,255,255";
    assert Text(env, "SLIDE_TITLE_FONT_COLOR", "255,255,255") == "255,255,255";
    assert Text(env, "SLIDE_TEXT_BACKGROUND_COLOR", "166, 214, 214") == "166, 214, 214";
    DefaultTextColour();
    DefaultBackgroundColour();
  }

  /** An unset flag takes its default. */
  lemma FlagDefaults(env: Env, key: string)
    requires key !in env
    ensures !GetFlag(env, key, "false") && GetFlag(env, key, "true")
  {
    FlagSpellings();
  }

  lemma FlagSpellings()
    ensures IsTrue("true") && !IsTrue("false")
  {
    assert LowerAscii("false") != "true";
  }

  /** A variable that is set wins over the default. */
  lemma LoadSettingsOverrides(env: Env, projectRoot: string)
    requires LoadSettings(env, projectRoot).Ok?
    ensures var s := LoadSettings(env, projectRoot).value;
      && ("OUTPUT_DIR" in env ==> s.outputDir == env["OUTPUT_DIR"])
      && ("DEFAULT_SPEAKER" in env ==> s.defaultSpeaker == env["DEFAULT_SPEAKER"])
      && ("VIDEO_BATCH_SIZE" in env ==> ParseInt(env["VIDEO_BATCH_SIZE"]) == Some(s.videoBatchSize))
      && ("BACKGROUND_MUSIC_VOLUME" in env ==>
            s.backgroundMusicVolume == env["BACKGROUND_MUSIC_VOLUME"] && FloatParses(s.backgroundMusicVolume))
      && s.useV2Merge == ("USE_V2_MERGE" in env && IsTrue(env["USE_V2_MERGE"]))
  {
    ReadNumbersValues(env);
    FlagSpellings();
  }

  /** An `AppConfig` object: whether `__init__` has finished, and the
      attributes it set. */
  class AppConfig {
    var initialized: bool
    var settings: Option<AppSettings>

    /** `__new__` for the first instance: `_initialized` starts false. */
    constructor ()
      ensures !initialized && settings == None
    {
      initialized := false;
      settings := None;
    }

    /** `is_initialized`. */
    function IsInitialized(): bool
      reads this
    {
      initialized
    }

    /** `__init__`: nothing once initialized; otherwise read the settings,
      and only a complete read marks the object initialized. */
    method Init(env: Env, projectRoot: string) returns (r: Outcome<PyError>)
      modifies this
      ensures old(initialized) ==> r == Pass && initialized && settings == old(settings)
      ensures !old(initialized) && LoadSettings(env, projectRoot).Ok? ==>
        r == Pass && initialized && settings == Some(LoadSettings(env, projectRoot).value)
      ensures !old(initialized) && LoadSettings(env, projectRoot).Err? ==>
        r == Fail(LoadSettings(env, projectRoot).error) && !initialized && settings == old(settings)
    {
      if initialized {
        return Pass;
      }
      var loaded := LoadSettings(env, projectRoot);
      if loaded.Err? {
        return Fail(loaded.error);
      }
      settings := Some(loaded.value);
      initialized := true;
      return Pass;
    }
  }

  /** The class itself, holding `_instance`. */
  class AppConfigClass {
    var instance: AppConfig?

    constructor ()
      ensures instance == null
    {
      instance := null;
    }

    /** `AppConfig()`: the first call creates the one instance, every call
      returns it and runs `__init__` on it, which reads the environment
      until one read succeeds and never again. */
    method Call(env: Env, projectRoot: string) returns (config: AppConfig, r: Outcome<PyError>)
      modifies this, instance
      ensures instance == config
      ensures old(instance) != null ==> config == old(instance)
      ensures old(instance) == null ==> fresh(config)
      ensures old(instance) != null && old(instance.initialized) ==>
        r == Pass && config.initialized && config.settings == old(instance.settings)
      ensures (old(instance) == null || !old(instance.initialized)) ==>
        match LoadSettings(env, projectRoot)
        case Ok(s) => r == Pass && config.initialized && config.settings == Some(s)
        case Err(e) => r == Fail(e) && !config.initialized
    {
      if instance == null {
        instance := new AppConfig();
      }
      config := instance;
      r := config.Init(env, projectRoot);
    }
  }
}
