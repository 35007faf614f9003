/** `POST /translate`: map the dashboard's language codes to mBART codes,
    refuse a request without text, and relay the translation service's
    answer. The service is an input: a function from (text, source code,
    target code) to the dictionary it returns. */
module TranslationRoute {
  import opened Base

  /** Dashboard language code to mBART language code. */
  const LanguageMap: map<string, string> :=
    map["en" := "en_XX", "hi" := "hi_IN", "te" := "te_IN", "ja" := "ja_XX", "zh" := "zh_CN", "es" := "es_XX"]

  const DefaultCode := "en_XX"

  /** The JSON body's fields; `None` stands for a missing key or a JSON
      `null`, which the route treats alike. */
  datatype Body = Body(text: Option<string>, sourceLang: Option<string>, targetLang: Option<string>)

  /** `language_map.get(data.get(key, 'en'), 'en_XX')`. */
  function MbartCode(code: Option<string>): (r: string)
    ensures r in LanguageMap.Values
    ensures code.Some? && code.value in LanguageMap ==> r == LanguageMap[code.value]
    ensures code.None? || code.value !in LanguageMap ==> r == DefaultCode
  {
    if code.Some? && code.value in LanguageMap then LanguageMap[code.value]
    else
      assert LanguageMap["en"] == DefaultCode;
      DefaultCode
  }

  /** What the route answers. `Malformed` is the 500 raised when the body
      is not a JSON object; its error text comes from the framework. */
  datatype TranslateReply =
    | Translated(result: map<string, string>)
    | NoText
    | ServiceFailed(result: map<string, string>)
    | Malformed
  {
    function Status(): nat {
      match this
      case Translated(_) => 200
      case NoText => 400
      case ServiceFailed(_) => 500
      case Malformed => 500
    }
  }

  /** The route up to the service call: answer at once, or call the
      service with the text and the two mapped codes. */
  datatype Step = Respond(reply: TranslateReply) | CallService(text: string, source: string, target: string)

  function Plan(body: Option<Body>): (s: Step)
    ensures s == Respond(Malformed) <==> body.None?
    ensures s == Respond(NoText) <==> body.Some? && (body.value.text.None? || body.value.text.value == "")
    ensures s.CallService? <==> body.Some? && body.value.text.Some? && body.value.text.value != ""
    ensures s.CallService? ==>
      && s.text == body.value.text.value
      && s.source == MbartCode(body.value.sourceLang)
      && s.target == MbartCode(body.value.targetLang)
  {
    match body
    case None => Respond(Malformed)
    case Some(b) =>
      var target := MbartCode(b.targetLang);
      var source := MbartCode(b.sourceLang);
      if b.text.None? || b.text.value == "" then Respond(NoText)
      else CallService(b.text.value, source, target)
  }

  /** The whole route, given the service. */
  function Translate(body: Option<Body>, service: (string, string, string) -> map<string, string>): (r: TranslateReply)
    ensures Plan(body).Respond? ==> r == Plan(body).reply
    ensures Plan(body).CallService? ==>
      var s := Plan(body);
      var answer := service(s.text, s.source, s.target);
      && (r.Translated? <==> "error" !in answer)
      && (r.Translated? || r.ServiceFailed?)
      && r.result == answer
    ensures r.Translated? ==> "error" !in r.result
    ensures r.ServiceFailed? ==> "error" in r.result
  {
    match Plan(body)
    case Respond(reply) => reply
    case CallService(text, source, target) =>
      var answer := service(text, source, target);
      if "error" in answer then ServiceFailed(answer) else Translated(answer)
  }

  /** Distinct known codes map to distinct mBART codes, so the mapped code
      names the dashboard language it came from. */
  lemma MbartCodeInjective(a: string, b: string)
    requires a in LanguageMap && b in LanguageMap && a != b
    ensures MbartCode(Some(a)) != MbartCode(Some(b))
  {
  }

  /** A missing, `null` or unknown code is read as English. */
  lemma UnknownCodeIsEnglish(code: Option<string>)
    requires code.None? || code.value !in LanguageMap
    ensures MbartCode(code) == MbartCode(Some("en"))
  {
  }
}
