/** Summarisation and risk scoring: the guards before the model call, the
    request it sends, and the validation of the reply (text extraction, JSON
    shape checks, truncation and clamping of the score, stripping of the
    summary). The call itself is an oracle. */
module Ai {
  import opened Common
  import opened Json
  import opened External

  datatype AiResult = AiResult(summary: string, riskScore: int, model: string, promptVersion: string)

  /** The configuration and environment the service reads. */
  datatype AiEnv = AiEnv(
    enableAi: Option<Json>,      // config "ENABLE_AI"
    apiKey: Option<string>,      // environment OPENAI_API_KEY
    clientInstalled: bool,       // whether the openai package imported
    model: string,               // config "OPENAI_MODEL"
    promptVersion: Option<string>,
    timeout: Option<int>)

  /** `config.get("ENABLE_AI", True)`, read for its truth value. */
  predicate AiEnabled(enableAi: Option<Json>) {
    enableAi.None? || Truthy(enableAi.value)
  }

  const DisabledMessage: string := "AI機能は無効化されています。"
  const NoKeyMessage: string := "OpenAI APIキーが設定されていません。"
  const NoPackageMessage: string := "openai パッケージが利用できません。"
  const CallFailedMessage: string := "OpenAI APIの呼び出しに失敗しました。"
  const NoTextMessage: string := "AI応答フォーマットを解釈できませんでした。"
  const BadJsonMessage: string := "AI応答の解析に失敗しました。"
  const BadFieldsMessage: string := "AI応答のフォーマットが不正です。"
  const DefaultPromptVersion: string := "v1"
  const DefaultTimeout: int := 30
  const MaxTokens: int := 500
  const Temperature: real := 0.2
  const JsonResponseFormat: string := "json_object"

  // The texts of the exceptions Python raises on malformed replies.
  const NoGetMessage: string := "'payload' object has no attribute 'get'"
  const NonFiniteMessage: string := "cannot convert float NaN or infinity to integer"
  const NullTextMessage: string := "the JSON object must be str, bytes or bytearray, not NoneType"

  const SystemPrompt: string :=
    "あなたは日本語のニュース記事のリスク評価官です。\n"
    + "出力は必ず JSON で返してください。\n"
    + "評価軸：被害範囲・被害程度・社会的影響・死傷者/被害金額の大きさ。"

  /** The user prompt up to the title, and between the title and the body. */
  const PromptHead: string :=
    "次の記事を要約し、1〜100 のリスクスコアを付与してください。\n"
    + "スコアは高いほど高リスク。\n"
    + "フィールド: {\"summary\": string, \"risk_score\": number(1-100)} のJSONのみ出力。\n"
    + "タイトル: "
  const PromptBodyLabel: string := "\n本文:\n"

  function UserPrompt(title: string, body: string): string {
    PromptHead + title + PromptBodyLabel + body
  }

  datatype Request = Request(
    model: string,
    systemPrompt: string,
    userPrompt: string,
    temperature: real,
    maxTokens: int,
    responseFormat: string,
    timeout: int)

  function BuildRequest(env: AiEnv, title: string, body: string): Request {
    Request(env.model, SystemPrompt, UserPrompt(title, body), Temperature, MaxTokens, JsonResponseFormat,
            env.timeout.GetOr(DefaultTimeout))
  }

  /** `message.content`: an absent attribute, `None`, or a text. */
  datatype Content = NoContentAttr | NullContent | Text(text: string)

  /** What the client call gives back: `APIStatusError`, any other exception
      (which nothing catches), or a response, whose `choices` attribute may be
      absent. */
  datatype Completion =
    | ApiStatusError
    | OtherError(error: PyError)
    | Response(choices: Option<seq<Content>>)

  datatype AiOutcome =
    | Scored(result: AiResult)
    | Unavailable(message: string)    // AIServiceUnavailable
    | Crashed(error: PyError)         // an exception the callers do not catch

  /** `_extract_text`: the first choice's content; `Unavailable` when there
      is no choice or the message has no `content` attribute. */
  function ExtractText(choices: Option<seq<Content>>): (r: Result)
    ensures r == NoText <==> choices.None? || choices.value == [] || choices.value[0].NoContentAttr?
  {
    if choices.None? || choices.value == [] then NoText
    else match choices.value[0]
      case NoContentAttr => NoText
      case NullContent => GotNull
      case Text(t) => GotText(t)
  }

  datatype Result = NoText | GotNull | GotText(text: string)

  /** Python's `int(x)` on a finite float: truncation toward zero. */
  function Truncate(x: real): (r: int)
    ensures x >= 0.0 ==> r as real <= x < r as real + 1.0
    ensures x < 0.0 ==> r as real - 1.0 < x <= r as real
  {
    if x >= 0.0 then x.Floor else -((-x).Floor)
  }

  /** `max(1, min(100, n))` */
  function Clamp(n: int): (r: int)
    ensures 1 <= r <= 100
    ensures 1 <= n <= 100 ==> r == n
    ensures n < 1 ==> r == 1
    ensures n > 100 ==> r == 100
  {
    Max(1, Min(100, n))
  }

  /** `int(risk_score)` for a JSON number: booleans count as integers in Python. */
  function ScoreValue(v: Json): Option<int> {
    match v
    case JInt(i) => Some(i)
    case JBool(b) => Some(if b then 1 else 0)
    case JFloat(x) => Some(Truncate(x))
    case _ => None
  }

  predicate IsNumber(v: Json) {
    v.JInt? || v.JBool? || v.JFloat? || v.JNonFinite?
  }

  /** The checks on the decoded payload. */
  function FromPayload(env: AiEnv, payload: Json): AiOutcome {
    if !payload.JObj? then Crashed(AttributeError(NoGetMessage))
    else
      var summary := Get(payload.fields, "summary");
      var score := Get(payload.fields, "risk_score");
      if summary.None? || !summary.value.JStr? || score.None? || !IsNumber(score.value) then
        Unavailable(BadFieldsMessage)
      else if score.value.JNonFinite? then
        Crashed(ValueError(NonFiniteMessage))
      else
        Scored(AiResult(Strip(summary.value.s), Clamp(ScoreValue(score.value).value),
                        env.model, env.promptVersion.GetOr(DefaultPromptVersion)))
  }

  /** Everything after the client call returns. */
  function FromCompletion(env: AiEnv, lib: Lib, completion: Completion): AiOutcome {
    match completion
    case ApiStatusError => Unavailable(CallFailedMessage)
    case OtherError(e) => Crashed(e)
    case Response(choices) =>
      match ExtractText(choices)
      case NoText => Unavailable(NoTextMessage)
      case GotNull => Crashed(TypeError(NullTextMessage))
      case GotText(t) =>
        match lib.jsonLoads(t, true)
        case None => Unavailable(BadJsonMessage)
        case Some(payload) => FromPayload(env, payload)
  }

  /** The guards, in the order the service checks them. */
  function Guard(env: AiEnv): Option<string> {
    if !AiEnabled(env.enableAi) then Some(DisabledMessage)
    else if env.apiKey.None? || env.apiKey.value == [] then Some(NoKeyMessage)
    else if !env.clientInstalled then Some(NoPackageMessage)
    else None
  }

  /** `summarize_and_score(title, body)` with the model call as `client`. */
  function SummarizeAndScore(env: AiEnv, lib: Lib, title: string, body: string,
                             client: Request -> Completion): AiOutcome {
    var g := Guard(env);
    if g.Some? then Unavailable(g.value)
    else FromCompletion(env, lib, client(BuildRequest(env, title, body)))
  }

  // ---------------------------------------------------------------- properties

  /** When AI is disabled, when the key is missing or empty, and when the
      client library is missing, the service fails with the matching message
      whatever the client would have answered: no call is made. */
  lemma GuardsPrecedeCall(env: AiEnv, lib: Lib, title: string, body: string,
                          c1: Request -> Completion, c2: Request -> Completion)
    requires Guard(env).Some?
    ensures SummarizeAndScore(env, lib, title, body, c1) == SummarizeAndScore(env, lib, title, body, c2)
    ensures !AiEnabled(env.enableAi) ==> SummarizeAndScore(env, lib, title, body, c1) == Unavailable(DisabledMessage)
    ensures AiEnabled(env.enableAi) && (env.apiKey.None? || env.apiKey == Some([])) ==>
      SummarizeAndScore(env, lib, title, body, c1) == Unavailable(NoKeyMessage)
    ensures AiEnabled(env.enableAi) && env.apiKey.Some? && env.apiKey.value != [] && !env.clientInstalled ==>
      SummarizeAndScore(env, lib, title, body, c1) == Unavailable(NoPackageMessage)
  {
  }

  /** With the guards passed, the request carries the configured model, the
      title and the body, and the fixed sampling settings. */
  lemma RequestShape(env: AiEnv, title: string, body: string)
    ensures var r := BuildRequest(env, title, body);
      r.model == env.model && r.temperature == 0.2 && r.maxTokens == 500
      && r.responseFormat == "json_object"
      && r.timeout == (if env.timeout.Some? then env.timeout.value else 30)
      && exists k | 0 <= k <= |r.userPrompt| :: r.userPrompt[k..] == body
  {
    var p := BuildRequest(env, title, body).userPrompt;
    assert p[|p| - |body|..] == body;
  }

  /** A reply with no choice, or whose first message has no content, and a
      reply whose text is not JSON fail with `AIServiceUnavailable`. */
  lemma UnusableRepliesFail(env: AiEnv, lib: Lib, choices: Option<seq<Content>>)
    ensures choices.None? || choices == Some([]) ==>
      FromCompletion(env, lib, Response(choices)) == Unavailable(NoTextMessage)
    ensures choices.Some? && choices.value != [] && choices.value[0].Text?
            && lib.jsonLoads(choices.value[0].text, true).None? ==>
      FromCompletion(env, lib, Response(choices)) == Unavailable(BadJsonMessage)
  {
  }

  /** A payload whose `summary` is not a string or whose `risk_score` is not a
      number fails with `AIServiceUnavailable`; a payload that is not an
      object fails with a different error. */
  lemma BadPayloadsFail(env: AiEnv, payload: Json)
    ensures !payload.JObj? ==> FromPayload(env, payload).Crashed?
    ensures payload.JObj? && (!("summary" in payload.fields) || !payload.fields["summary"].JStr?) ==>
      FromPayload(env, payload) == Unavailable(BadFieldsMessage)
    ensures payload.JObj? && (!("risk_score" in payload.fields) || !IsNumber(payload.fields["risk_score"])) ==>
      FromPayload(env, payload) == Unavailable(BadFieldsMessage)
  {
  }

  /** Any result the service returns has a score in [1, 100] and a stripped
      summary, with the configured model and the prompt version (default "v1");
      an integer score already in range is passed through. */
  lemma ScoredResultRule(env: AiEnv, lib: Lib, title: string, body: string, client: Request -> Completion)
    ensures var o := SummarizeAndScore(env, lib, title, body, client);
      o.Scored? ==>
        1 <= o.result.riskScore <= 100
        && (o.result.summary != [] ==> !IsSpace(o.result.summary[0]) && !IsSpace(o.result.summary[|o.result.summary| - 1]))
        && o.result.model == env.model
        && o.result.promptVersion == (if env.promptVersion.Some? then env.promptVersion.value else "v1")
  {
  }

  lemma InRangeScorePassesThrough(env: AiEnv, summary: string, score: int)
    requires 1 <= score <= 100
    ensures FromPayload(env, JObj(map["summary" := JStr(summary), "risk_score" := JInt(score)]))
            == Scored(AiResult(Strip(summary), score, env.model, env.promptVersion.GetOr(DefaultPromptVersion)))
  {
    var f := map["summary" := JStr(summary), "risk_score" := JInt(score)];
    assert Get(f, "summary") == Some(JStr(summary));
    assert Get(f, "risk_score") == Some(JInt(score));
  }

  /** A fractional score is truncated toward zero before clamping, so 42.9
      becomes 42 and -3.5 becomes 1. */
  lemma FractionalScores()
    ensures Clamp(Truncate(42.9)) == 42
    ensures Clamp(Truncate(-3.5)) == 1
  {
  }
}
