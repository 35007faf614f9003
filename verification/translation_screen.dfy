/** The translation screen: the checks made before a translation request,
    the handling of its reply, the language swap, and the read-aloud
    button's state. Requests and audio playback are events. */
module TranslationScreen {
  import opened Base
  import opened Text
  import TranslationRoute
  import Profile

  /** The codes the language pickers offer, in their order. */
  const Languages: seq<string> := ["en", "hi", "te", "ja", "zh", "es"]

  datatype Screen = Screen(
    sourceText: string,
    translatedText: string,
    sourceLang: string,
    targetLang: string,
    translating: bool,
    speech: Speech)

  /** The read-aloud state: quiet, waiting for the audio, or playing the
      audio behind object URL `url`. `live` holds the object URLs created
      and not yet revoked. */
  datatype Phase = Quiet | Requesting | Playing(url: nat)
  datatype Speech = Speech(phase: Phase, live: set<nat>)

  /** The read-aloud buttons are disabled (`isSpeaking`) from the moment
      audio is requested until playback ends or fails. */
  predicate Speaking(sp: Speech) {
    !sp.phase.Quiet?
  }

  const Initial := Screen("", "", "en", "te", false, Speech(Quiet, {}))

  /** Every picker code is one the backend maps, and the backend maps no
      other. */
  lemma PickerCodesAreMapped()
    ensures forall c :: c in Languages <==> c in TranslationRoute.LanguageMap
  {
    assert TranslationRoute.LanguageMap.Keys == {"en", "hi", "te", "ja", "zh", "es"};
  }

  /** The profile fetched on first render sets the target language to the
      user's language when that is non-empty. */
  function ApplyProfileLanguage(s: Screen, language: Option<string>): (r: Screen)
    ensures Truthy(language) ==> r == s.(targetLang := language.value)
    ensures !Truthy(language) ==> r == s
  {
    if Truthy(language) then s.(targetLang := language.value) else s
  }

  /** A user whose profile keeps the default language English gets a
      target language equal to the source language, so the Translate
      button stays disabled until one of them is changed. */
  lemma DefaultProfileDisablesTranslate(text: string)
    ensures !TranslateEnabled(ApplyProfileLanguage(Initial.(sourceText := text), Some(Profile.DefaultUser.language)))
  {
  }

  // Translating

  datatype Refusal = EnterText | SameLanguages {
    function Message(): string {
      match this
      case EnterText => "Please enter text to translate"
      case SameLanguages => "Source and target languages must be different"
    }
  }

  /** The body of the `/translate` request. */
  datatype Request = Request(text: string, sourceLang: string, targetLang: string)

  datatype Begin = Refuse(why: Refusal) | Send(screen: Screen, request: Request)

  /** `handleTranslate` up to the request: blank text is refused first,
      then equal languages; otherwise the screen clears the old
      translation and shows that it is translating. */
  function BeginTranslate(s: Screen): (r: Begin)
    ensures r == Refuse(EnterText) <==> AllJsSpace(s.sourceText)
    ensures r == Refuse(SameLanguages) <==> !AllJsSpace(s.sourceText) && s.sourceLang == s.targetLang
    ensures r.Send? ==> r.screen == s.(translating := true, translatedText := "")
    ensures r.Send? ==> r.request == Request(s.sourceText, s.sourceLang, s.targetLang)
  {
    TrimEmptyIffBlank(s.sourceText);
    if Trim(s.sourceText) == "" then Refuse(EnterText)
    else if s.sourceLang == s.targetLang then Refuse(SameLanguages)
    else Send(s.(translating := true, translatedText := ""), Request(s.sourceText, s.sourceLang, s.targetLang))
  }

  /** The Translate button is enabled. */
  predicate TranslateEnabled(s: Screen) {
    Trim(s.sourceText) != "" && !s.translating && s.sourceLang != s.targetLang
  }

  /** The button is enabled exactly when no translation runs and pressing
      it would send a request. */
  lemma EnabledIffSends(s: Screen)
    ensures TranslateEnabled(s) <==> !s.translating && BeginTranslate(s).Send?
  {
    TrimEmptyIffBlank(s.sourceText);
  }

  /** A JavaScript string field that may be missing: truthy when present
      and non-empty. */
  predicate Truthy(x: Option<string>) {
    x.Some? && x.value != ""
  }

  /** The reply's JSON fields that the screen reads. */
  datatype ReplyBody = ReplyBody(error: Option<string>, translation: Option<string>)

  /** A reply: its `ok` flag and its body (`None`: not JSON). */
  datatype Outcome = Outcome(ok: bool, body: Option<ReplyBody>)

  /** The notice shown at the end; `Failed(None)` carries the browser's
      own error text. */
  datatype Notice = Completed | Failed(message: Option<string>)

  /** The request finished (`None`: `fetch` itself failed). */
  function FinishTranslate(s: Screen, outcome: Option<Outcome>): (r: (Screen, Notice))
    ensures !r.0.translating
    ensures r.1.Completed? <==>
      outcome.Some? && outcome.value.ok && outcome.value.body.Some? && !Truthy(outcome.value.body.value.error)
    ensures r.1.Completed? ==>
      r.0 == s.(translating := false, translatedText := outcome.value.body.value.translation.GetOr(""))
    ensures r.1.Failed? ==> r.0 == s.(translating := false)
    ensures r.1.Failed? && outcome.Some? && outcome.value.body.Some? && Truthy(outcome.value.body.value.error) ==>
      r.1.message == outcome.value.body.value.error
    ensures outcome.Some? && !outcome.value.ok && outcome.value.body.Some? && !Truthy(outcome.value.body.value.error) ==>
      r.1 == Failed(Some("Translation failed"))
    ensures outcome.None? || outcome.value.body.None? ==> r.1 == Failed(None)
  {
    var done := s.(translating := false);
    match outcome
    case None => (done, Failed(None))
    case Some(o) =>
      match o.body
      case None => (done, Failed(None))
      case Some(b) =>
        if !o.ok then (done, Failed(Some(if Truthy(b.error) then b.error.value else "Translation failed")))
        else if Truthy(b.error) then (done, Failed(b.error))
        else (done.(translatedText := b.translation.GetOr("")), Completed)
  }

  /** A request sent and then failed leaves the screen as it was before
      Translate was pressed, except that the old translation is gone; a
      completed one differs only in the translation it shows. */
  lemma TranslateRoundTrip(s: Screen, outcome: Option<Outcome>)
    requires !s.translating && BeginTranslate(s).Send?
    ensures var done := FinishTranslate(BeginTranslate(s).screen, outcome);
      && (done.1.Failed? ==> done.0 == s.(translatedText := ""))
      && (done.1.Completed? ==> done.0 == s.(translatedText := outcome.value.body.value.translation.GetOr("")))
  {
  }

  /** A reply with an `error` field fails even when its status is 2xx. */
  lemma ErrorFieldFailsOk(s: Screen, message: string, translation: Option<string>)
    requires message != ""
    ensures FinishTranslate(s, Some(Outcome(true, Some(ReplyBody(Some(message), translation)))))
            == (s.(translating := false), Failed(Some(message)))
  {
  }

  // Swapping

  /** `handleSwapLanguages`: the languages always change places; the
      texts do only when both are non-empty. */
  function Swap(s: Screen): (r: Screen)
    ensures r.sourceLang == s.targetLang && r.targetLang == s.sourceLang
    ensures s.sourceText != "" && s.translatedText != "" ==>
      r.sourceText == s.translatedText && r.translatedText == s.sourceText
    ensures s.sourceText == "" || s.translatedText == "" ==>
      r.sourceText == s.sourceText && r.translatedText == s.translatedText
    ensures r.translating == s.translating && r.speech == s.speech
  {
    var texts := if s.sourceText != "" && s.translatedText != "" then s.(sourceText := s.translatedText, translatedText := s.sourceText) else s;
    texts.(sourceLang := s.targetLang, targetLang := s.sourceLang)
  }

  /** Swapping twice restores the screen. */
  lemma SwapInvolution(s: Screen)
    ensures Swap(Swap(s)) == s
  {
  }

  // Reading aloud

  datatype SpeechEvent =
    | Speak(text: string)
    | SpeechFailed
    | AudioReady(url: nat)
    | PlaybackEnded
    | PlaybackError

  /** `handleSpeak` and the audio callbacks. Events that cannot happen in
      the current phase (a callback without audio) change nothing. */
  function SpeechStep(sp: Speech, e: SpeechEvent): (r: Speech)
    ensures e.Speak? && (AllJsSpace(e.text) || !sp.phase.Quiet?) ==> r == sp
    ensures e.Speak? && !AllJsSpace(e.text) && sp.phase.Quiet? ==> r == sp.(phase := Requesting)
    ensures e.SpeechFailed? && sp.phase.Requesting? ==> r == sp.(phase := Quiet)
    ensures e.AudioReady? && sp.phase.Requesting? ==> r == Speech(Playing(e.url), sp.live + {e.url})
    ensures (e.PlaybackEnded? || e.PlaybackError?) && sp.phase.Playing? ==>
      r == Speech(Quiet, sp.live - {sp.phase.url})
    ensures (e.SpeechFailed? || e.AudioReady?) && !sp.phase.Requesting? ==> r == sp
    ensures (e.PlaybackEnded? || e.PlaybackError?) && !sp.phase.Playing? ==> r == sp
  {
    match e
    case Speak(text) =>
      TrimEmptyIffBlank(text);
      if Trim(text) == "" || !sp.phase.Quiet? then sp else sp.(phase := Requesting)
    case SpeechFailed => if sp.phase.Requesting? then sp.(phase := Quiet) else sp
    case AudioReady(url) => if sp.phase.Requesting? then Speech(Playing(url), sp.live + {url}) else sp
    case PlaybackEnded => if sp.phase.Playing? then Speech(Quiet, sp.live - {sp.phase.url}) else sp
    case PlaybackError => if sp.phase.Playing? then Speech(Quiet, sp.live - {sp.phase.url}) else sp
  }

  /** The toast of a speech event, if any: only a failed request and a
      playback error raise one, and the end of playback does not. */
  function SpeechNotice(sp: Speech, e: SpeechEvent): (r: Option<string>)
    ensures r.Some? <==> (e.SpeechFailed? && sp.phase.Requesting?) || (e.PlaybackError? && sp.phase.Playing?)
    ensures r.Some? ==> Speaking(sp) && !Speaking(SpeechStep(sp, e))
    ensures r == Some("Failed to generate speech") <==> e.SpeechFailed? && sp.phase.Requesting?
  {
    match e
    case SpeechFailed => if sp.phase.Requesting? then Some("Failed to generate speech") else None
    case PlaybackError => if sp.phase.Playing? then Some("Failed to play audio") else None
    case _ => None
  }

  function RunSpeech(sp: Speech, events: seq<SpeechEvent>): Speech
    decreases |events|
  {
    if |events| == 0 then sp else RunSpeech(SpeechStep(sp, events[0]), events[1..])
  }

  /** Only the playing audio's object URL is live. */
  predicate Released(sp: Speech) {
    sp.live == if sp.phase.Playing? then {sp.phase.url} else {}
  }

  /** Whatever happens, the screen is quiet with no live object URL, or
      waiting for audio with none, or playing exactly one. In particular
      every end of playback (finished or failed) and every failed request
      leaves the button free and every object URL revoked. */
  lemma {:induction false} SpeechAlwaysReleased(sp: Speech, events: seq<SpeechEvent>)
    requires Released(sp)
    ensures Released(RunSpeech(sp, events))
    decreases |events|
  {
    if |events| > 0 {
      var next := SpeechStep(sp, events[0]);
      assert Released(next);
      SpeechAlwaysReleased(next, events[1..]);
    }
  }

  /** A terminal event ends the speaking state. */
  lemma TerminalEventsEndSpeaking(sp: Speech, e: SpeechEvent)
    requires Released(sp)
    requires (e.SpeechFailed? && sp.phase.Requesting?) || ((e.PlaybackEnded? || e.PlaybackError?) && sp.phase.Playing?)
    ensures !Speaking(SpeechStep(sp, e)) && SpeechStep(sp, e).live == {}
  {
  }
}
