/** How speakers get Google TTS voices: walking the speakers in table order,
    each takes the first voice of its gender's pool that no speaker has taken
    yet; a speaker that finds every voice taken gets the first voice of the
    default speaker's pool. */
module VoiceAssignment {
  import opened Wrappers
  import opened PyStrings
  import opened PyJson
  import opened Conversations

  const FEMALE_VOICES: seq<string> := [
    "en-US-Chirp3-HD-Aoede", "en-US-Chirp3-HD-Callirrhoe", "en-US-Chirp3-HD-Erinome",
    "en-US-Chirp3-HD-Kore", "en-US-Chirp3-HD-Leda"]
  const MALE_VOICES: seq<string> := [
    "en-US-Chirp3-HD-Achird", "en-US-Chirp3-HD-Alnilam", "en-US-Chirp3-HD-Algenib",
    "en-US-Chirp3-HD-Charon", "en-US-Chirp3-HD-Sadachbia"]
  const NEUTRAL_VOICES: seq<string> := ["en-US-Chirp3-HD-Achird"]

  /** The voice pools by gender. */
  const VOICES: map<string, seq<string>> :=
    map["female" := FEMALE_VOICES, "male" := MALE_VOICES, "neutral" := NEUTRAL_VOICES]

  /** The pool a speaker draws from: its lower-cased gender's, or the default
      speaker's when the gender has none. */
  function Pool(gender: string, defaultSpeaker: string): (pool: seq<string>)
    requires defaultSpeaker in VOICES
    ensures |pool| > 0
    ensures LowerAscii(gender) in VOICES ==> pool == VOICES[LowerAscii(gender)]
    ensures LowerAscii(gender) !in VOICES ==> pool == VOICES[defaultSpeaker]
  {
    var g := LowerAscii(gender);
    if g in VOICES then VOICES[g] else VOICES[defaultSpeaker]
  }

  /** The first voice of `pool` not in `used`. */
  function FirstFree(pool: seq<string>, used: set<string>): (r: Option<string>)
    ensures r.Some? ==> r.value in pool && r.value !in used
    ensures r.None? <==> forall k :: 0 <= k < |pool| ==> pool[k] in used
  {
    if pool == [] then None
    else if pool[0] !in used then Some(pool[0])
    else FirstFree(pool[1..], used)
  }

  /** A voice preceded only by taken voices is the first free one. */
  lemma {:induction false} FirstFreeIs(pool: seq<string>, used: set<string>, j: nat)
    requires j < |pool| && pool[j] !in used
    requires forall k :: 0 <= k < j ==> pool[k] in used
    ensures FirstFree(pool, used) == Some(pool[j])
  {
    if j > 0 {
      FirstFreeIs(pool[1..], used, j - 1);
    }
  }

  /** The processor's `speaker_to_voice` dict and `used_voices` set. */
  datatype VoiceState = VoiceState(toVoice: map<string, string>, used: set<string>)

  const NO_VOICES := VoiceState(map[], {})

  /** How a speaker came by its voice: found free in its pool, the default
      pool's first voice because none was free, or an earlier assignment
      kept because none was free. */
  datatype Choice = Scanned(voice: string) | Fallback(voice: string) | Kept(voice: string)

  /** One iteration of the loop: `gender.lower()` needs a string, and the
      default speaker's pool is looked up before the gender's. */
  function AssignOne(st: VoiceState, name: string, gender: Json, defaultSpeaker: string): (r: Result<(VoiceState, Choice), PyError>)
    ensures r.Ok? <==> gender.Str? && defaultSpeaker in VOICES
    ensures r.Ok? ==> name in r.value.0.toVoice && r.value.0.toVoice[name] == r.value.1.voice
    ensures r.Ok? ==> forall n :: n in st.toVoice && n != name ==> n in r.value.0.toVoice && r.value.0.toVoice[n] == st.toVoice[n]
    ensures r.Ok? ==> r.value.0.toVoice.Keys == st.toVoice.Keys + {name}
    ensures r.Ok? && r.value.1.Scanned? ==>
      FirstFree(Pool(gender.s, defaultSpeaker), st.used) == Some(r.value.1.voice) &&
      r.value.0.used == st.used + {r.value.1.voice}
    ensures r.Ok? && !r.value.1.Scanned? ==>
      FirstFree(Pool(gender.s, defaultSpeaker), st.used).None? && r.value.0.used == st.used
    ensures r.Ok? && r.value.1.Fallback? ==> name !in st.toVoice && r.value.1.voice == VOICES[defaultSpeaker][0]
    ensures r.Ok? && r.value.1.Kept? ==> name in st.toVoice && r.value.0 == st
  {
    if !gender.Str? then Err(AttributeError("object has no attribute 'lower'"))
    else if defaultSpeaker !in VOICES then Err(KeyError(defaultSpeaker))
    else
      match FirstFree(Pool(gender.s, defaultSpeaker), st.used)
      case Some(v) => Ok((VoiceState(st.toVoice[name := v], st.used + {v}), Scanned(v)))
      case None =>
        if name in st.toVoice then Ok((st, Kept(st.toVoice[name])))
        else
          var v := VOICES[defaultSpeaker][0];
          Ok((VoiceState(st.toVoice[name := v], st.used), Fallback(v)))
  }

  /** The loop over a prefix of the speakers: the state reached, how each
      speaker was served, and the exception that stopped it, if one did. */
  datatype Run = Run(state: VoiceState, choices: seq<Choice>, error: Option<PyError>)

  function RunFrom(st: VoiceState, speakers: seq<(string, Speaker)>, defaultSpeaker: string): (r: Run)
    ensures |r.choices| <= |speakers|
    ensures r.error.None? ==> |r.choices| == |speakers|
    decreases |speakers|
  {
    if speakers == [] then Run(st, [], None)
    else
      var last := speakers[|speakers| - 1];
      var prev := RunFrom(st, speakers[..|speakers| - 1], defaultSpeaker);
      if prev.error.Some? then prev
      else
        match AssignOne(prev.state, last.0, last.1.gender, defaultSpeaker)
        case Err(e) => Run(prev.state, prev.choices, Some(e))
        case Ok(next) => Run(next.0, prev.choices + [next.1], None)
  }

  /** Once a speaker raises, the loop is over: the rest of the speakers
      change nothing. */
  lemma {:induction false} RunStops(st: VoiceState, speakers: seq<(string, Speaker)>, defaultSpeaker: string, i: nat)
    requires i <= |speakers|
    requires RunFrom(st, speakers[..i], defaultSpeaker).error.Some?
    ensures RunFrom(st, speakers, defaultSpeaker) == RunFrom(st, speakers[..i], defaultSpeaker)
    decreases |speakers| - i
  {
    if i < |speakers| {
      var n := |speakers| - 1;
      assert speakers[..n][..i] == speakers[..i];
      RunStops(st, speakers[..n], defaultSpeaker, i);
    } else {
      assert speakers[..i] == speakers;
    }
  }

  /** The voices handed out by scanning. */
  function ScannedVoices(choices: seq<Choice>): set<string> {
    if choices == [] then {}
    else
      var last := choices[|choices| - 1];
      ScannedVoices(choices[..|choices| - 1]) + (if last.Scanned? then {last.voice} else {})
  }

  function Names(speakers: seq<(string, Speaker)>): (r: set<string>)
    ensures forall i :: 0 <= i < |speakers| ==> speakers[i].0 in r
  {
    if speakers == [] then {}
    else Names(speakers[..|speakers| - 1]) + {speakers[|speakers| - 1].0}
  }

  /** How speaker `sp` was served, given the voices scanned before it. */
  predicate Fits(sp: (string, Speaker), c: Choice, before: set<string>, defaultSpeaker: string) {
    && sp.1.gender.Str? && defaultSpeaker in VOICES
    && match c
       case Scanned(v) => FirstFree(Pool(sp.1.gender.s, defaultSpeaker), before) == Some(v)
       case Fallback(v) => FirstFree(Pool(sp.1.gender.s, defaultSpeaker), before).None? && v == VOICES[defaultSpeaker][0]
       case Kept(_) => false
  }

  /** What a run from no assignments has established for the speakers it
      went through. */
  predicate Explains(speakers: seq<(string, Speaker)>, run: Run, defaultSpeaker: string) {
    && run.error.None?
    && |run.choices| == |speakers|
    && run.state.used == ScannedVoices(run.choices)
    && run.state.toVoice.Keys == Names(speakers)
    && (forall i :: 0 <= i < |speakers| ==> run.state.toVoice[speakers[i].0] == run.choices[i].voice)
    && (forall i :: 0 <= i < |speakers| ==>
          Fits(speakers[i], run.choices[i], ScannedVoices(run.choices[..i]), defaultSpeaker))
  }

  /** A run from no assignments over speakers with distinct names: every
      speaker gets a voice, a scanned voice is the first in the speaker's
      pool that no earlier speaker scanned, a fallback happens only when the
      whole pool is taken and gives the default pool's first voice, and
      `used_voices` holds exactly the scanned voices. */
  lemma {:induction false} FreshRun(speakers: seq<(string, Speaker)>, defaultSpeaker: string)
    requires DistinctNames(speakers)
    requires RunFrom(NO_VOICES, speakers, defaultSpeaker).error.None?
    ensures Explains(speakers, RunFrom(NO_VOICES, speakers, defaultSpeaker), defaultSpeaker)
  {
    if speakers != [] {
      var n := |speakers| - 1;
      var prev := RunFrom(NO_VOICES, speakers[..n], defaultSpeaker);
      FreshRun(speakers[..n], defaultSpeaker);
      NamesDistinct(speakers[..n], speakers[n].0);
      ExplainsStep(speakers, prev, defaultSpeaker);
    }
  }

  lemma ExplainsStep(speakers: seq<(string, Speaker)>, prev: Run, defaultSpeaker: string)
    requires |speakers| > 0
    requires prev == RunFrom(NO_VOICES, speakers[..|speakers| - 1], defaultSpeaker)
    requires Explains(speakers[..|speakers| - 1], prev, defaultSpeaker)
    requires speakers[|speakers| - 1].0 !in Names(speakers[..|speakers| - 1])
    requires RunFrom(NO_VOICES, speakers, defaultSpeaker).error.None?
    ensures Explains(speakers, RunFrom(NO_VOICES, speakers, defaultSpeaker), defaultSpeaker)
  {
    var n := |speakers| - 1;
    var last := speakers[n];
    var next := AssignOne(prev.state, last.0, last.1.gender, defaultSpeaker).value;
    var choices := prev.choices + [next.1];
    assert RunFrom(NO_VOICES, speakers, defaultSpeaker) == Run(next.0, choices, None);
    assert !next.1.Kept?;
    assert choices[..n] == prev.choices;
    assert next.0.used == ScannedVoices(choices);
    assert next.0.toVoice.Keys == Names(speakers);
    StepVoices(speakers, prev, next);
    StepFits(speakers, prev, next.1, defaultSpeaker);
  }

  lemma StepVoices(speakers: seq<(string, Speaker)>, prev: Run, next: (VoiceState, Choice))
    requires |speakers| > 0 && |prev.choices| == |speakers| - 1
    requires var init := speakers[..|speakers| - 1];
      && prev.state.toVoice.Keys == Names(init)
      && forall i :: 0 <= i < |init| ==> prev.state.toVoice[init[i].0] == prev.choices[i].voice
    requires var last := speakers[|speakers| - 1];
      && last.0 !in Names(speakers[..|speakers| - 1])
      && last.0 in next.0.toVoice && next.0.toVoice[last.0] == next.1.voice
      && forall n :: n in prev.state.toVoice && n != last.0 ==> n in next.0.toVoice && next.0.toVoice[n] == prev.state.toVoice[n]
    ensures forall i :: 0 <= i < |speakers| ==> next.0.toVoice[speakers[i].0] == (prev.choices + [next.1])[i].voice
  {
    var n := |speakers| - 1;
    var init := speakers[..n];
    forall i | 0 <= i < |speakers|
      ensures next.0.toVoice[speakers[i].0] == (prev.choices + [next.1])[i].voice
    {
      if i < n {
        assert speakers[i] == init[i] && init[i].0 in Names(init);
      }
    }
  }

  lemma StepFits(speakers: seq<(string, Speaker)>, prev: Run, c: Choice, defaultSpeaker: string)
    requires |speakers| > 0 && |prev.choices| == |speakers| - 1
    requires forall i :: 0 <= i < |speakers| - 1 ==>
      Fits(speakers[..|speakers| - 1][i], prev.choices[i], ScannedVoices(prev.choices[..i]), defaultSpeaker)
    requires Fits(speakers[|speakers| - 1], c, ScannedVoices(prev.choices), defaultSpeaker)
    ensures forall i :: 0 <= i < |speakers| ==>
      Fits(speakers[i], (prev.choices + [c])[i], ScannedVoices((prev.choices + [c])[..i]), defaultSpeaker)
  {
    var n := |speakers| - 1;
    var choices := prev.choices + [c];
    forall i | 0 <= i < |speakers|
      ensures Fits(speakers[i], choices[i], ScannedVoices(choices[..i]), defaultSpeaker)
    {
      if i < n {
        assert speakers[i] == speakers[..n][i];
        assert choices[..i] == prev.choices[..i];
      } else {
        assert choices[..i] == prev.choices;
      }
    }
  }

  lemma {:induction false} ScannedMember(choices: seq<Choice>, i: nat)
    requires i < |choices| && choices[i].Scanned?
    ensures choices[i].voice in ScannedVoices(choices)
  {
    if i < |choices| - 1 {
      ScannedMember(choices[..|choices| - 1], i);
    }
  }

  lemma {:induction false} NamesDistinct(speakers: seq<(string, Speaker)>, x: string)
    requires forall i :: 0 <= i < |speakers| ==> speakers[i].0 != x
    ensures x !in Names(speakers)
  {
    if speakers != [] {
      NamesDistinct(speakers[..|speakers| - 1], x);
    }
  }

  /** Two speakers served by scanning never share a voice. */
  lemma ScannedVoicesDistinct(speakers: seq<(string, Speaker)>, defaultSpeaker: string, i: nat, j: nat)
    requires DistinctNames(speakers)
    requires RunFrom(NO_VOICES, speakers, defaultSpeaker).error.None?
    requires i < j < |speakers|
    requires RunFrom(NO_VOICES, speakers, defaultSpeaker).choices[i].Scanned?
    requires RunFrom(NO_VOICES, speakers, defaultSpeaker).choices[j].Scanned?
    ensures RunFrom(NO_VOICES, speakers, defaultSpeaker).choices[i].voice !=
            RunFrom(NO_VOICES, speakers, defaultSpeaker).choices[j].voice
  {
    FreshRun(speakers, defaultSpeaker);
    var c := RunFrom(NO_VOICES, speakers, defaultSpeaker).choices;
    assert c[..j][i] == c[i];
    ScannedMember(c[..j], i);
  }

  /** Every assigned voice comes from the speaker's own pool, or is the
      default pool's first voice. */
  lemma VoiceFromPool(speakers: seq<(string, Speaker)>, defaultSpeaker: string, i: nat)
    requires DistinctNames(speakers)
    requires RunFrom(NO_VOICES, speakers, defaultSpeaker).error.None?
    requires i < |speakers|
    ensures defaultSpeaker in VOICES && speakers[i].1.gender.Str?
    ensures speakers[i].0 in RunFrom(NO_VOICES, speakers, defaultSpeaker).state.toVoice
    ensures var v := RunFrom(NO_VOICES, speakers, defaultSpeaker).state.toVoice[speakers[i].0];
      v in Pool(speakers[i].1.gender.s, defaultSpeaker) || v == VOICES[defaultSpeaker][0]
  {
    FreshRun(speakers, defaultSpeaker);
  }

  /** The loop raises exactly when some gender is not a string or the
      default speaker has no pool. */
  lemma {:induction false} RunFails(st: VoiceState, speakers: seq<(string, Speaker)>, defaultSpeaker: string)
    ensures RunFrom(st, speakers, defaultSpeaker).error.None? <==>
      speakers == [] || (defaultSpeaker in VOICES && forall i :: 0 <= i < |speakers| ==> speakers[i].1.gender.Str?)
  {
    if speakers != [] {
      var n := |speakers| - 1;
      RunFails(st, speakers[..n], defaultSpeaker);
      assert forall i :: 0 <= i < n ==> speakers[..n][i] == speakers[i];
    }
  }

  function Neutral(name: string): (string, Speaker) {
    (name, Speaker(Str(name), Str("neutral")))
  }

  /** The neutral pool has one voice. With "female" as default speaker, a
      second neutral speaker finds it taken and falls back to the female
      pool's first voice, Aoede, not to its own pool's first voice. */
  lemma SecondNeutralGetsDefaultVoice()
    ensures var run := RunFrom(NO_VOICES, [Neutral("a"), Neutral("b")], "female");
      && run.error.None?
      && run.choices == [Scanned("en-US-Chirp3-HD-Achird"), Fallback("en-US-Chirp3-HD-Aoede")]
      && run.state.toVoice == map["a" := "en-US-Chirp3-HD-Achird", "b" := "en-US-Chirp3-HD-Aoede"]
  {
    var speakers := [Neutral("a"), Neutral("b")];
    assert LowerAscii("neutral") == "neutral";
    assert Pool("neutral", "female") == NEUTRAL_VOICES;
    RunFails(NO_VOICES, speakers, "female");
    FreshRun(speakers, "female");
    var run := RunFrom(NO_VOICES, speakers, "female");
    var c := run.choices;
    assert c[..0] == [];
    assert FirstFree(NEUTRAL_VOICES, {}) == Some("en-US-Chirp3-HD-Achird");
    assert c[0] == Scanned("en-US-Chirp3-HD-Achird");
    assert c[..1] == [c[0]];
    assert ScannedVoices(c[..1]) == {"en-US-Chirp3-HD-Achird"} by {
      assert c[..1][..0] == [];
    }
    assert FirstFree(NEUTRAL_VOICES, {"en-US-Chirp3-HD-Achird"}).None?;
    assert c[1] == Fallback("en-US-Chirp3-HD-Aoede");
    assert run.state.toVoice.Keys == {"a", "b"} by {
      assert speakers[..1] == [Neutral("a")];
      assert speakers[..1][..0] == [];
    }
  }
}
