/**
 * The text-structuring call to the local Ollama server (backend service
 * `structureText`): the prompt is a fixed instruction and JSON-format
 * template followed by the customer's raw text, the request asks for a
 * non-streamed reply, the reply text is stripped of markdown code fences
 * and handed to `JSON.parse` unchecked, and every failure is reported as
 * one of three messages.
 *
 * HTTP, the abort controller and the 60-second timer are not modelled as
 * such: the exchange with the server is an oracle `send` whose outcome is
 * one of the transport variants, and the timer is a flag that must be
 * disarmed on every path. `JSON.parse` is an oracle `parse`.
 */
module AiService {
  import opened Wrappers
  import opened Text

  // ---------------------------------------------------------------------
  // Prompt
  // ---------------------------------------------------------------------

  /** The role and the rules the model is given. */
  const RoleAndRules: string :=
    "Ты — опытный системный аналитик. Твоя задача — превратить сырой текст (запись речи заказчика) в структурированное техническое задание на разработку.\n\n"
    + "ПРАВИЛА:\n"
    + "- Разбей требования заказчика на логические разделы (например: \"Каталог товаров\", \"Корзина\", \"Оплата\", \"Личный кабинет\")\n"
    + "- В каждом разделе выдели конкретные задачи для разработчика\n"
    + "- Каждой задаче дай оценку времени в минутах (реалистичную для junior/middle разработчика)\n"
    + "- Придумай короткое название ТЗ, отражающее суть проекта\n"
    + "- НЕ описывай процесс анализа, описывай РЕЗУЛЬТАТ — что нужно разработать\n"
    + "- Отвечай ТОЛЬКО на русском языке\n\n"

  /** The output-format contract: reply with bare JSON of the given shape. */
  const FormatContract: string :=
    "Верни ТОЛЬКО валидный JSON, без markdown-обёртки, без пояснений до или после, строго в формате:\n"
    + "{\n"
    + "  \"title\": \"Название ТЗ\",\n"
    + "  \"sections\": [\n"
    + "    {\n"
    + "      \"title\": \"Название раздела\",\n"
    + "      \"items\": [\n"
    + "        {\n"
    + "          \"content\": \"Описание задачи для разработчика\",\n"
    + "          \"timeEstimate\": 60\n"
    + "        }\n"
    + "      ]\n"
    + "    }\n"
    + "  ]\n"
    + "}"

  /** The heading that introduces the customer's text. */
  const TextHeading: string := "\n\nТекст от заказчика:\n"

  const PromptTemplate: string := RoleAndRules + FormatContract + TextHeading

  /** The prompt sent for `text`. */
  function ComposePrompt(text: string): string {
    PromptTemplate + text
  }

  /** The prompt is the fixed template followed by the text verbatim: the
      role and rules come first, the format contract follows them
      unconditionally, and the customer's text is the suffix, so nothing the
      customer says comes before the contract. */
  lemma PromptLayout(text: string)
    ensures var p := ComposePrompt(text);
      && |p| == |PromptTemplate| + |text|
      && p[..|RoleAndRules|] == RoleAndRules
      && p[|RoleAndRules|..|RoleAndRules| + |FormatContract|] == FormatContract
      && p[..|PromptTemplate|] == PromptTemplate
      && p[|PromptTemplate|..] == text
  {
    Layout(RoleAndRules, FormatContract, TextHeading, text);
  }

  /** Where each of three fixed parts and a suffix sit in their
      concatenation. */
  lemma Layout(a: string, b: string, c: string, t: string)
    ensures var p := a + b + c + t;
      && p[..|a|] == a
      && p[|a|..|a| + |b|] == b
      && p[..|a + b + c|] == a + b + c
      && p[|a + b + c|..] == t
  {
    var p := a + b + c + t;
    assert p[..|a + b + c|] == a + b + c;
    assert p[..|a|] == (a + b + c)[..|a|];
    assert p[|a|..|a| + |b|] == (a + b + c)[|a|..|a| + |b|];
  }

  /** The JSON body of the generate call: `{model, prompt, stream: false}`. */
  datatype Request = Request(model: string, prompt: string, stream: bool)

  // ---------------------------------------------------------------------
  // Fence stripping
  // ---------------------------------------------------------------------

  predicate NoBackticks(s: string) {
    '`' !in s
  }

  /** One global pass of `/```json\n?/g` replaced by nothing: leftmost
      matches, the optional newline taken when present. */
  function DropJsonFences(s: string): (r: string)
    ensures |r| <= |s|
    ensures NoBackticks(s) ==> r == s
  {
    if s == [] then []
    else if s[0] != '`' then
      assert NoBackticks(s) ==> NoBackticks(s[1..]);
      [s[0]] + DropJsonFences(s[1..])
    else if StartsWith(s, "```json\n") then DropJsonFences(s[8..])
    else if StartsWith(s, "```json") then DropJsonFences(s[7..])
    else [s[0]] + DropJsonFences(s[1..])
  }

  /** One global pass of `/```\n?/g` replaced by nothing. */
  function DropFences(s: string): (r: string)
    ensures |r| <= |s|
    ensures NoBackticks(s) ==> r == s
  {
    if s == [] then []
    else if s[0] != '`' then
      assert NoBackticks(s) ==> NoBackticks(s[1..]);
      [s[0]] + DropFences(s[1..])
    else if StartsWith(s, "```\n") then DropFences(s[4..])
    else if StartsWith(s, "```") then DropFences(s[3..])
    else [s[0]] + DropFences(s[1..])
  }

  /** The text handed to `JSON.parse`: both fence patterns removed, then
      surrounding whitespace. */
  function StripFences(reply: string): string {
    Trim(DropFences(DropJsonFences(reply)))
  }

  /** A reply without backticks is only trimmed. */
  lemma StripPlainReply(reply: string)
    requires NoBackticks(reply)
    ensures StripFences(reply) == Trim(reply)
  {
  }

  lemma {:induction false} DropJsonFencesKeepsPlainPrefix(x: string, y: string)
    requires NoBackticks(x)
    ensures DropJsonFences(x + y) == x + DropJsonFences(y)
  {
    if x != [] {
      var s := x + y;
      assert s[0] == x[0] && s[0] != '`';
      assert s[1..] == x[1..] + y;
      assert DropJsonFences(s) == [x[0]] + DropJsonFences(s[1..]);
      assert NoBackticks(x[1..]);
      DropJsonFencesKeepsPlainPrefix(x[1..], y);
      assert [x[0]] + x[1..] == x;
      Assoc([x[0]], x[1..], DropJsonFences(y));
    } else {
      assert x + y == y;
    }
  }

  lemma {:induction false} DropFencesKeepsPlainPrefix(x: string, y: string)
    requires NoBackticks(x)
    ensures DropFences(x + y) == x + DropFences(y)
  {
    if x != [] {
      var s := x + y;
      assert s[0] == x[0] && s[0] != '`';
      assert s[1..] == x[1..] + y;
      assert DropFences(s) == [x[0]] + DropFences(s[1..]);
      assert NoBackticks(x[1..]);
      DropFencesKeepsPlainPrefix(x[1..], y);
      assert [x[0]] + x[1..] == x;
      Assoc([x[0]], x[1..], DropFences(y));
    } else {
      assert x + y == y;
    }
  }

  /** A reply wrapped as a `json` fenced block yields the trimmed payload. */
  lemma StripFencedReply(x: string)
    requires NoBackticks(x)
    ensures StripFences("```json\n" + x + "\n```") == Trim(x)
  {
    var reply := "```json\n" + x + "\n```";
    assert reply[..8] == "```json\n";
    assert reply[8..] == x + "\n```";
    DropJsonFencesKeepsPlainPrefix(x, "\n```");
    assert DropJsonFences("\n```") == "\n```";
    DropFencesKeepsPlainPrefix(x, "\n```");
    assert DropFences("\n```") == "\n";
    TrimAppendWhitespace(x, "\n");
  }

  // ---------------------------------------------------------------------
  // The call and its failures
  // ---------------------------------------------------------------------

  /** Milliseconds before the request is aborted. */
  const TimeoutMs: nat := 60000

  /** What the exchange with the server can end in: a reply (its `ok` flag,
      its status and, when the body is JSON with a string `response`, that
      string), an abort by the timer, a refused connection, or any other
      transport failure. */
  datatype Transport =
    | HttpReply(ok: bool, status: int, response: Option<string>)
    | Aborted
    | ConnectionRefused
    | TransportFailure

  /** The three failures a caller can see. */
  datatype AiError = Timeout | BackendDown | StructuringFailed

  /** The message each failure is thrown with. */
  function Message(e: AiError): string {
    match e
    case Timeout => "Таймаут: Ollama не ответила за 60 секунд"
    case BackendDown => "Ollama не запущена. Выполни: ollama serve"
    case StructuringFailed => "Не удалось структурировать текст через AI"
  }

  lemma MessagesDistinct(a: AiError, b: AiError)
    ensures Message(a) == Message(b) <==> a == b
  {
  }

  /** The result of the call for a given transport outcome: a timeout is
      reported exactly for an abort, an unreachable server exactly for a
      refused connection, success exactly for an OK reply whose stripped text
      parses, and everything else (a non-OK status included) as the generic
      failure. */
  function Classify<T>(t: Transport, parse: string -> Option<T>): (r: Result<T, AiError>)
    ensures r == Failure(Timeout) <==> t.Aborted?
    ensures r == Failure(BackendDown) <==> t.ConnectionRefused?
    ensures r.Success? <==>
              t.HttpReply? && t.ok && t.response.Some? && parse(StripFences(t.response.value)).Some?
    ensures r.Success? ==> r.value == parse(StripFences(t.response.value)).value
    ensures t.HttpReply? && !t.ok ==> r == Failure(StructuringFailed)
  {
    match t
    case Aborted => Failure(Timeout)
    case ConnectionRefused => Failure(BackendDown)
    case TransportFailure => Failure(StructuringFailed)
    case HttpReply(ok, _, response) =>
      if !ok || response.None? then Failure(StructuringFailed)
      else
        var parsed := parse(StripFences(response.value));
        if parsed.Some? then Success(parsed.value) else Failure(StructuringFailed)
  }

  /** A failing HTTP status reaches the caller only as the generic failure:
      two replies that differ only in their status are indistinguishable. */
  lemma StatusIsLost<T>(s1: int, s2: int, b1: Option<string>, b2: Option<string>, parse: string -> Option<T>)
    ensures Classify(HttpReply(false, s1, b1), parse) == Classify(HttpReply(false, s2, b2), parse)
  {
  }

  /** What `structureText(text)` resolves to or rejects with. */
  function Structured<T>(text: string, model: string, send: Request -> Transport, parse: string -> Option<T>)
    : Result<T, AiError>
  {
    Classify(send(Request(model, ComposePrompt(text), false)), parse)
  }

  /** `structureText(text)`: arms the timer, sends `{model, prompt, stream:
      false}`, disarms the timer on whichever path the exchange takes, and
      classifies the outcome. */
  method StructureText<T>(text: string, model: string, send: Request -> Transport, parse: string -> Option<T>)
    returns (request: Request, result: Result<T, AiError>, timerArmed: bool)
    ensures request == Request(model, ComposePrompt(text), false)
    ensures result == Classify(send(request), parse)
    ensures result == Structured(text, model, send, parse)
    ensures !timerArmed
  {
    var prompt := ComposePrompt(text);
    timerArmed := true;
    request := Request(model, prompt, false);
    var outcome := send(request);
    match outcome {
      case HttpReply(ok, _, response) =>
        timerArmed := false;
        if !ok || response.None? {
          result := Failure(StructuringFailed);
        } else {
          var parsed := parse(StripFences(response.value));
          result := if parsed.Some? then Success(parsed.value) else Failure(StructuringFailed);
        }
      case Aborted =>
        timerArmed := false;
        result := Failure(Timeout);
      case ConnectionRefused =>
        timerArmed := false;
        result := Failure(BackendDown);
      case TransportFailure =>
        timerArmed := false;
        result := Failure(StructuringFailed);
    }
  }
}
