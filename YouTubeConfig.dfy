/** The YouTube upload settings (`tts/config/YouTubeConfig.py`): a client
    secrets file that must be set, a default privacy status and category,
    and default tags parsed from one comma-separated variable; read once by
    a singleton like the application settings. */
module YouTubeConfig {
  import opened Wrappers
  import opened PyStrings
  import opened PyJson
  import opened Settings

  /** `f` applied to every element, in order. */
  function Mapped<A, B>(s: seq<A>, f: A -> B): (r: seq<B>)
    ensures |r| == |s|
    ensures forall i :: 0 <= i < |s| ==> r[i] == f(s[i])
  {
    seq(|s|, i requires 0 <= i < |s| => f(s[i]))
  }

  lemma MappedAppend<A, B>(p: seq<A>, q: seq<A>, f: A -> B)
    ensures Mapped(p + q, f) == Mapped(p, f) + Mapped(q, f)
  {
    var l, r := Mapped(p + q, f), Mapped(p, f) + Mapped(q, f);
    forall i | 0 <= i < |l| ensures l[i] == r[i] {
      if i < |p| {
        assert (p + q)[i] == p[i];
      } else {
        assert (p + q)[i] == q[i - |p|];
      }
    }
  }

  /** Every part, stripped. */
  function StripAll(parts: seq<string>): (r: seq<string>)
    ensures |r| == |parts|
  {
    Mapped(parts, Strip)
  }

  /** The strings that are not empty, in order. */
  function DropBlank(ts: seq<string>): (r: seq<string>)
    ensures |r| <= |ts|
  {
    if ts == [] then []
    else (if ts[0] != [] then [ts[0]] else []) + DropBlank(ts[1..])
  }

  /** `_parse_tags`: `[]` for the empty string, otherwise each comma-separated
      part stripped, dropping the blank ones. */
  function ParseTags(s: string): (tags: seq<string>)
    ensures s == [] ==> tags == []
    ensures |tags| <= |Split(s, ',')|
    ensures forall i :: 0 <= i < |tags| ==> tags[i] != [] && IsStripped(tags[i])
  {
    if s == [] then []
    else
      var stripped := StripAll(Split(s, ','));
      DropBlankKeepsOnly(stripped);
      DropBlank(stripped)
  }

  /** A string is kept exactly when it is among the input and not empty. */
  lemma {:induction false} DropBlankMembers(ts: seq<string>, t: string)
    ensures t in DropBlank(ts) <==> t != [] && t in ts
  {
    if ts != [] {
      DropBlankMembers(ts[1..], t);
      assert ts == [ts[0]] + ts[1..];
    }
  }

  lemma DropBlankKeepsOnly(stripped: seq<string>)
    requires forall i :: 0 <= i < |stripped| ==> IsStripped(stripped[i])
    ensures forall i :: 0 <= i < |DropBlank(stripped)| ==>
      DropBlank(stripped)[i] != [] && IsStripped(DropBlank(stripped)[i])
  {
    forall i | 0 <= i < |DropBlank(stripped)|
      ensures DropBlank(stripped)[i] != [] && IsStripped(DropBlank(stripped)[i])
    {
      var t := DropBlank(stripped)[i];
      DropBlankMembers(stripped, t);
      var j :| 0 <= j < |stripped| && stripped[j] == t;
    }
  }

  lemma {:induction false} DropBlankAppend(a: seq<string>, b: seq<string>)
    ensures DropBlank(a + b) == DropBlank(a) + DropBlank(b)
  {
    if a != [] {
      assert (a + b)[0] == a[0];
      assert (a + b)[1..] == a[1..] + b;
      DropBlankAppend(a[1..], b);
      var head: seq<string> := if a[0] != [] then [a[0]] else [];
      assert DropBlank(a + b) == head + (DropBlank(a[1..]) + DropBlank(b));
      assert head + (DropBlank(a[1..]) + DropBlank(b)) == (head + DropBlank(a[1..])) + DropBlank(b);
    } else {
      assert a + b == b;
    }
  }

  lemma {:induction false} DropBlankKeeps(ts: seq<string>)
    requires forall i :: 0 <= i < |ts| ==> ts[i] != []
    ensures DropBlank(ts) == ts
  {
    if ts != [] {
      DropBlankKeeps(ts[1..]);
      assert [ts[0]] + ts[1..] == ts;
    }
  }

  /** The tags of a string are those of its comma-separated parts: a tag
      comes from a part that is not blank, and every such part gives one. */
  lemma ParseTagsMembers(s: string, t: string)
    ensures t in ParseTags(s) <==> s != [] && t != [] && t in StripAll(Split(s, ','))
  {
    if s != [] {
      DropBlankMembers(StripAll(Split(s, ',')), t);
    }
  }

  /** Tags keep the order of the text: the tags of two pieces joined by a
      comma are the first piece's tags followed by the second's. */
  lemma ParseTagsConcat(a: string, b: string)
    ensures ParseTags(a + [','] + b) == ParseTags(a) + ParseTags(b)
  {
    var s := a + [','] + b;
    var pa, pb := StripAll(Split(a, ',')), StripAll(Split(b, ','));
    SplitConcat(a, b, ',');
    MappedAppend(Split(a, ','), Split(b, ','), Strip);
    assert ParseTags(s) == DropBlank(pa + pb);
    DropBlankAppend(pa, pb);
    DropBlankOfSplit(a);
    DropBlankOfSplit(b);
  }

  /** The empty string splits into one blank part, which is dropped. */
  lemma DropBlankOfSplit(s: string)
    ensures DropBlank(StripAll(Split(s, ','))) == ParseTags(s)
  {
    if s == [] {
      var parts := StripAll(Split(s, ','));
      assert Split(s, ',') == [[]];
      assert |parts| == 1 && |parts[0]| <= |Split(s, ',')[0]|;
      assert DropBlank(parts) == [] + DropBlank(parts[1..]);
    }
  }

  /** Tags that are already stripped, not blank and free of commas survive
      being written as one comma-separated string and parsed again. */
  lemma ParseTagsJoin(tags: seq<string>)
    requires forall i :: 0 <= i < |tags| ==> tags[i] != [] && IsStripped(tags[i]) && ',' !in tags[i]
    ensures ParseTags(Join(tags, [','])) == tags
  {
    if tags != [] {
      SplitJoin(tags, ',');
      assert Join(tags, [',']) != [] by {
        JoinNonEmpty(tags);
      }
      forall i | 0 <= i < |tags| ensures StripAll(tags)[i] == tags[i] {
        StripStripped(tags[i]);
      }
      assert StripAll(tags) == tags;
      DropBlankKeeps(tags);
    }
  }

  lemma {:induction false} JoinNonEmpty(tags: seq<string>)
    requires tags != [] && tags[0] != []
    ensures Join(tags, [',']) != []
  {
    if |tags| > 1 {
      assert Join(tags, [',']) == tags[0] + [','] + Join(tags[1..], [',']);
    }
  }

  /** The parsed tags hold no comma, so parsing is idempotent. */
  lemma ParseTagsIdempotent(s: string)
    ensures ParseTags(Join(ParseTags(s), [','])) == ParseTags(s)
  {
    var tags := ParseTags(s);
    forall i | 0 <= i < |tags| ensures ',' !in tags[i] {
      assert tags[i] in tags;
      ParseTagsMembers(s, tags[i]);
      var j :| 0 <= j < |Split(s, ',')| && StripAll(Split(s, ','))[j] == tags[i];
      StripKeepsOut(Split(s, ',')[j], ',');
    }
    ParseTagsJoin(tags);
  }

  /** The attributes `YouTubeConfig.__init__` sets. */
  datatype YouTubeSettings = YouTubeSettings(
    clientSecretsFile: string,
    defaultPrivacyStatus: string,
    defaultCategoryId: string,
    defaultTags: seq<string>)

  /** The body of `YouTubeConfig.__init__`: the secrets file has no default. */
  function LoadYouTubeSettings(env: Env): (r: Result<YouTubeSettings, PyError>)
    ensures r.Err? <==> "YOUTUBE_CLIENT_SECRETS_FILE" !in env
    ensures r.Err? ==> r.error == ValueError(MissingMessage("YOUTUBE_CLIENT_SECRETS_FILE"))
    ensures r.Ok? ==> r.value.clientSecretsFile == env["YOUTUBE_CLIENT_SECRETS_FILE"]
  {
    var secrets :- GetEnv(env, "YOUTUBE_CLIENT_SECRETS_FILE", None);
    Ok(YouTubeSettings(
      secrets,
      Text(env, "YOUTUBE_DEFAULT_PRIVACY", "private"),
      Text(env, "YOUTUBE_DEFAULT_CATEGORY", "27"),
      ParseTags(Text(env, "YOUTUBE_DEFAULT_TAGS", ""))))
  }

  /** With only the secrets file set, videos are private, in category 27
      (Education) and untagged. */
  lemma YouTubeDefaults(secrets: string)
    ensures LoadYouTubeSettings(map["YOUTUBE_CLIENT_SECRETS_FILE" := secrets]) ==
      Ok(YouTubeSettings(secrets, "private", "27", []))
  {
  }

  /** Set variables win over the defaults, and the tags are those of the
      variable's text. */
  lemma YouTubeOverrides(env: Env)
    requires LoadYouTubeSettings(env).Ok?
    ensures var y := LoadYouTubeSettings(env).value;
      && ("YOUTUBE_DEFAULT_PRIVACY" in env ==> y.defaultPrivacyStatus == env["YOUTUBE_DEFAULT_PRIVACY"])
      && ("YOUTUBE_DEFAULT_CATEGORY" in env ==> y.defaultCategoryId == env["YOUTUBE_DEFAULT_CATEGORY"])
      && ("YOUTUBE_DEFAULT_TAGS" in env ==> y.defaultTags == ParseTags(env["YOUTUBE_DEFAULT_TAGS"]))
  {
  }

  /** A `YouTubeConfig` object: whether `__init__` has finished, and the
      attributes it set. */
  class YouTubeConfig {
    var initialized: bool
    var settings: Option<YouTubeSettings>

    /** `__new__` for the first instance: `_initialized` starts false. */
    constructor ()
      ensures !initialized && settings == None
    {
      initialized := false;
      settings := None;
    }

    /** `is_initialized`. */
    function IsInitialized(): bool
      reads this
    {
      initialized
    }

    /** `__init__`: nothing once initialized; otherwise read the settings,
      and only a complete read marks the object initialized. */
    method Init(env: Env) returns (r: Outcome<PyError>)
      modifies this
      ensures old(initialized) ==> r == Pass && initialized && settings == old(settings)
      ensures !old(initialized) && LoadYouTubeSettings(env).Ok? ==>
        r == Pass && initialized && settings == Some(LoadYouTubeSettings(env).value)
      ensures !old(initialized) && LoadYouTubeSettings(env).Err? ==>
        r == Fail(LoadYouTubeSettings(env).error) && !initialized && settings == old(settings)
    {
      if initialized {
        return Pass;
      }
      var loaded := LoadYouTubeSettings(env);
      if loaded.Err? {
        return Fail(loaded.error);
      }
      settings := Some(loaded.value);
      initialized := true;
      return Pass;
    }
  }

  /** The class itself, holding `_instance`. */
  class YouTubeConfigClass {
    var instance: YouTubeConfig?

    constructor ()
      ensures instance == null
    {
      instance := null;
    }

    /** `YouTubeConfig()`: the first call creates the one instance, every
      call returns it and runs `__init__` on it, which reads the
      environment until one read succeeds and never again. */
    method Call(env: Env) returns (config: YouTubeConfig, r: Outcome<PyError>)
      modifies this, instance
      ensures instance == config
      ensures old(instance) != null ==> config == old(instance)
      ensures old(instance) == null ==> fresh(config)
      ensures old(instance) != null && old(instance.initialized) ==>
        r == Pass && config.initialized && config.settings == old(instance.settings)
      ensures (old(instance) == null || !old(instance.initialized)) ==>
        match LoadYouTubeSettings(env)
        case Ok(s) => r == Pass && config.initialized && config.settings == Some(s)
        case Err(e) => r == Fail(e) && !config.initialized
    {
      if instance == null {
        instance := new YouTubeConfig();
      }
      config := instance;
      r := config.Init(env);
    }
  }
}
