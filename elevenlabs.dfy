/** The browser side of speech synthesis: the voice tables, the session cache of synthesised audio,
    and `synthesizeSpeech`, which answers from the cache or asks the server and caches its answer. */
module SpeechClient {
  import opened Wrappers
  import opened Text
  import Routes

  // ---------------------------------------------------------------------------------------------
  // Voices

  datatype Voice = Voice(id: string, name: string, accent: string)

  const RachelId := "21m00Tcm4TlvDq8ikWAM"
  const BellaId := "EXAVITQu4vr4xnSDxMaL"
  const AntoniId := "ErXwobaYiN019PkySvjV"
  const ArnoldId := "VR6AewLTigWG4xSOukaG"

  /** The voice used when the caller names none (Rachel). */
  const DefaultVoiceId := RachelId

  const Voices: seq<Voice> := [
    Voice(RachelId, "Rachel - Warm Female", "American"),
    Voice("AZnzlk1XvdvUeBnXmlld", "Domi - Soft Male", "American"),
    Voice(BellaId, "Bella - Soft Female", "American"),
    Voice(AntoniId, "Antoni - Gentle Male", "American"),
    Voice("MF3mGyEYCl7XYWbV9V6O", "Elli - Gentle Female", "American"),
    Voice("TxGEqnHWrfWFTfGW9XjX", "Josh - Deep Male", "American"),
    Voice(ArnoldId, "Arnold - Deep Male", "American"),
    Voice("pNInz6obpgDQGcFmaJgB", "Adam - Calm Male", "American")]

  /** The same voices under names suited to spiritual content. */
  const SpiritualVoices: seq<Voice> := [
    Voice(RachelId, "Spiritual Guide (Female)", "American"),
    Voice(AntoniId, "Meditation Guide (Male)", "American"),
    Voice(BellaId, "Ritual Voice (Female)", "American"),
    Voice(ArnoldId, "Priest Voice (Male)", "American")]


  /** `id` is the id of one of `vs`. */
  ghost predicate HasVoice(vs: seq<Voice>, id: string)
  {
    exists j :: 0 <= j < |vs| && vs[j].id == id
  }

  /** Every spiritual voice is one of the voices; the default is Rachel, which is also the first
      spiritual voice and the default of the server. */
  lemma VoiceTables()
    ensures forall i :: 0 <= i < |SpiritualVoices| ==> HasVoice(Voices, SpiritualVoices[i].id)
    ensures Voices[0].id == DefaultVoiceId && Voices[0].name[..6] == "Rachel"
    ensures SpiritualVoices[0].id == DefaultVoiceId
    ensures DefaultVoiceId == Routes.DefaultVoice
  {
    assert Voices[0].id == SpiritualVoices[0].id;
    assert Voices[3].id == SpiritualVoices[1].id;
    assert Voices[2].id == SpiritualVoices[2].id;
    assert Voices[6].id == SpiritualVoices[3].id;
  }

  // ---------------------------------------------------------------------------------------------
  // The cache key

  const KeyPrefix := "elevenlabs_"

  /** The session storage key of a text spoken by a voice: only the first 50 characters of the text
      take part. */
  function CacheKey(voiceId: string, text: string): (key: string)
    ensures key == KeyPrefix + voiceId + "_" + Take(text, 50)
  {
    KeyPrefix + voiceId + "_" + Take(text, 50)
  }

  /** Texts that agree on their first 50 characters share a key under the same voice. */
  lemma SharedPrefixSharesKey(voiceId: string, a: string, b: string)
    requires |a| >= 50 && |b| >= 50 && a[..50] == b[..50]
    ensures CacheKey(voiceId, a) == CacheKey(voiceId, b)
  {
    TakeOfSharedPrefix(a, b, 50);
  }

  /** For voice ids without an underscore (all the tabled ones), the key names the voice and the
      50-character prefix: different voices, or different prefixes, never share a key. */
  lemma CacheKeyInjective(v1: string, t1: string, v2: string, t2: string)
    requires '_' !in v1 && '_' !in v2
    requires CacheKey(v1, t1) == CacheKey(v2, t2)
    ensures v1 == v2 && Take(t1, 50) == Take(t2, 50)
  {
    var s1 := v1 + "_" + Take(t1, 50);
    var s2 := v2 + "_" + Take(t2, 50);
    assert CacheKey(v1, t1) == KeyPrefix + s1;
    assert CacheKey(v2, t2) == KeyPrefix + s2;
    assert s1 == CacheKey(v1, t1)[|KeyPrefix|..] == s2;
    UnderscoreSplits(v1, Take(t1, 50), v2, Take(t2, 50));
  }

  /** Text before the first underscore is determined by the string. */
  lemma UnderscoreSplits(a: string, x: string, b: string, y: string)
    requires '_' !in a && '_' !in b
    requires a + "_" + x == b + "_" + y
    ensures a == b && x == y
  {
    var s := a + "_" + x;
    FirstUnderscore(a, x);
    FirstUnderscore(b, y);
    assert |a| == |b|;
    assert a == s[..|a|] && b == s[..|b|];
    assert x == s[|a| + 1..] && y == (b + "_" + y)[|b| + 1..];
  }

  /** In `a + "_" + x` with no underscore in `a`, the first underscore is at `|a|`. */
  lemma FirstUnderscore(a: string, x: string)
    requires '_' !in a
    ensures forall k :: 0 <= k < |a| ==> (a + "_" + x)[k] != '_'
    ensures (a + "_" + x)[|a|] == '_'
  {
    forall k | 0 <= k < |a| ensures (a + "_" + x)[k] != '_' {
      assert (a + "_" + x)[k] == a[k];
    }
  }

  // ---------------------------------------------------------------------------------------------
  // synthesizeSpeech

  /** The promise `synthesizeSpeech` resolves to. */
  datatype SpeechResult = SpeechResult(success: bool, audioUrl: Option<string>, error: Option<string>)

  /** How the request to the server ends: the fetch (or reading the body) throws, with the message of
      the error when it is an `Error`, or a reply arrives. */
  datatype FetchOutcome =
    | FetchThrew(message: Option<string>)
    | Reply(status: int, message: Option<string>, success: bool, audioUrl: Option<string>)

  predicate IsOk(status: int)
  {
    200 <= status < 300
  }

  /** A JavaScript string that is present and not empty. */
  predicate Present(s: Option<string>)
  {
    s.Some? && s.value != ""
  }

  /** The result after a cache miss. */
  function ResultOf(outcome: FetchOutcome): (r: SpeechResult)
    ensures r.success <==> outcome.Reply? && IsOk(outcome.status) && outcome.success && Present(outcome.audioUrl)
    ensures r.success ==> r.audioUrl == outcome.audioUrl && r.error.None?
    ensures !r.success ==> r.audioUrl.None? && r.error.Some?
    ensures outcome.Reply? && !IsOk(outcome.status) ==>
      r.error == Some(if Present(outcome.message) then outcome.message.value else "Speech synthesis failed")
    ensures outcome.Reply? && IsOk(outcome.status) && !(outcome.success && Present(outcome.audioUrl)) ==>
      r.error == Some("No audio URL received from server")
    ensures outcome.FetchThrew? ==> r.error == Some(outcome.message.GetOr("Unknown error occurred"))
  {
    match outcome
    case FetchThrew(message) => SpeechResult(false, None, Some(message.GetOr("Unknown error occurred")))
    case Reply(status, message, success, audioUrl) =>
      if !IsOk(status) then
        SpeechResult(false, None, Some(if Present(message) then message.value else "Speech synthesis failed"))
      else if success && Present(audioUrl) then SpeechResult(true, audioUrl, None)
      else SpeechResult(false, None, Some("No audio URL received from server"))
  }

  /** `sessionStorage.getItem(key)` is truthy: the key is stored with a non-empty value. */
  predicate CachedIn(entries: map<string, string>, key: string)
  {
    key in entries && entries[key] != ""
  }

  /** The session storage of the tab, reduced to the entries this module reads and writes. */
  class SpeechCache {
    var entries: map<string, string>

    constructor()
      ensures entries == map[]
    {
      entries := map[];
    }

    predicate Hit(key: string)
      reads this
    {
      CachedIn(entries, key)
    }

    /** `synthesizeSpeech`: a cached, non-empty URL is returned without a request (`requested` is
        false); otherwise the request's outcome is turned into a result, and a successful URL is
        stored under the key unless storing fails (`storeFails`, a full session storage). A voice
        left out (`None`, `undefined` in the source) is the default voice. */
    method Synthesize(text: string, voiceId: Option<string>, outcome: FetchOutcome, storeFails: bool)
      returns (r: SpeechResult, requested: bool)
      modifies this
      ensures var key := CacheKey(voiceId.GetOr(DefaultVoiceId), text);
        old(Hit(key)) ==> !requested && r == SpeechResult(true, Some(old(entries)[key]), None) && entries == old(entries)
      ensures var key := CacheKey(voiceId.GetOr(DefaultVoiceId), text);
        !old(Hit(key)) ==> requested && r == ResultOf(outcome)
      ensures var key := CacheKey(voiceId.GetOr(DefaultVoiceId), text);
        !old(Hit(key)) && r.success && !storeFails ==> entries == old(entries)[key := r.audioUrl.value] && Hit(key)
      ensures var key := CacheKey(voiceId.GetOr(DefaultVoiceId), text);
        !old(Hit(key)) && (!r.success || storeFails) ==> entries == old(entries)
    {
      var key := CacheKey(voiceId.GetOr(DefaultVoiceId), text);
      if Hit(key) {
        return SpeechResult(true, Some(entries[key]), None), false;
      }
      requested := true;
      r := ResultOf(outcome);
      if r.success && !storeFails {
        entries := entries[key := r.audioUrl.value];
      }
    }
  }

  /** Once a successful synthesis of `a` is stored, a later call for any text `b` that agrees with
      `a` on the first 50 characters, under the same voice, is a hit and is answered with the audio
      of `a` without a request. */
  lemma {:induction false} SecondRequestHitsCache(entries: map<string, string>, voiceId: string, a: string, b: string, outcome: FetchOutcome)
    requires ResultOf(outcome).success
    requires |a| >= 50 && |b| >= 50 && a[..50] == b[..50]
    ensures var url := ResultOf(outcome).audioUrl.value;
      var after := entries[CacheKey(voiceId, a) := url];
      CachedIn(after, CacheKey(voiceId, b)) && after[CacheKey(voiceId, b)] == url
  {
    SharedPrefixSharesKey(voiceId, a, b);
  }

  /** What the browser sees of the server's answers. */
  function FromServer(reply: Routes.SynthesisReply): (o: FetchOutcome)
    ensures o.Reply? && o.status == reply.status && o.message == Some(reply.message)
  {
    Reply(reply.status, Some(reply.message), reply.success, reply.audioUrl)
  }

  function FromRefusal(status: int, message: string): (o: FetchOutcome)
    ensures o.Reply? && o.status == status && o.message == Some(message) && !o.success
  {
    Reply(status, Some(message), false, None)
  }

  /** End to end: audio from the speech service reaches the caller as its data URL; a service error
      reaches it as the server's message; a refusal reaches it as the refusal's message. */
  lemma ServerRepliesReachCaller(base64: string, status: int, details: string, refusal: int, message: string)
    requires !(200 <= status < 300) && !(200 <= refusal < 300) && message != ""
    ensures ResultOf(FromServer(Routes.ReplyToSynthesis(Routes.Audio(base64)))) ==
      SpeechResult(true, Some(Routes.AudioUrlPrefix + base64), None)
    ensures ResultOf(FromServer(Routes.ReplyToSynthesis(Routes.ServiceError(status, details)))).error ==
      Some("Error from ElevenLabs API")
    ensures ResultOf(FromRefusal(refusal, message)).error == Some(message)
  {
  }
}
