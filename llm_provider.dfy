/** The provider-independent parts of `LLMProvider` (jc/llm_provider.py):
    how an instance picks its provider, key and model, how messages are
    prepared, how a HuggingFace prompt is built and its response read, how
    usage is recorded, and how `call` dispatches and turns every failure into
    a fixed apology. The HTTP bodies of the three backends are not modelled:
    `call` receives, per route, either the backend's reply or `None` when the
    backend raised. */
module LlmProvider {
  import opened Wrappers
  import opened Text
  import KeyLocker
  import Secrets
  import Guardrails
  import UsageLogger

  // ---------------------------------------------------------------------------
  // Construction
  // ---------------------------------------------------------------------------

  /** The state `LLMProvider.__init__` leaves behind. */
  datatype Provider = Provider(provider: string, apiKey: Option<string>, model: string,
                               keyInfo: Secrets.LLMKeyInfo, guardrails: Option<seq<Guardrails.Guardrail>>)

  /** `LLMProvider(provider, api_key, model, guardrails_manager)`. An explicit
      argument wins when it is truthy; otherwise the provider is the effective
      one, the key comes from `get_llm_key_info`, and the provider found with
      the key replaces the requested one. A locker error that
      `get_llm_key_info` does not catch propagates out of the constructor. */
  function Init(ctx: Secrets.Context, provider: Option<string>, apiKey: Option<string>, model: Option<string>,
                guardrails: Option<seq<Guardrails.Guardrail>>): (r: Result<Provider, KeyLocker.LockerError>)
    requires Secrets.ValidContext(ctx)
  {
    var requested := if KeyLocker.Given(provider) then provider.value else Secrets.EffectiveProviderSpec(ctx);
    match Secrets.KeyInfoSpec(ctx, Some(requested))
    case Err(e) => Err(e)
    case Ok(info) =>
      var chosen := if KeyLocker.Given(info.provider) then info.provider.value else requested;
      Ok(Provider(chosen,
                  if KeyLocker.Given(apiKey) then apiKey else info.apiKey,
                  if KeyLocker.Given(model) then model.value else Secrets.LlmModel(ctx, Some(chosen)),
                  info, guardrails))
  }

  /** Without explicit arguments an instance uses the key `get_llm_key_info`
      found for the effective provider, and the provider that key belongs to;
      the model is that provider's. */
  lemma InitFollowsKeyInfo(ctx: Secrets.Context, guardrails: Option<seq<Guardrails.Guardrail>>)
    requires Secrets.ValidContext(ctx)
    requires Secrets.KeyInfoSpec(ctx, Some(Secrets.EffectiveProviderSpec(ctx))).Ok?
    ensures var info := Secrets.KeyInfoSpec(ctx, Some(Secrets.EffectiveProviderSpec(ctx))).value;
            var r := Init(ctx, None, None, None, guardrails);
            r.Ok? && r.value.apiKey == info.apiKey && r.value.keyInfo == info &&
            (KeyLocker.Given(info.provider) ==> r.value.provider == info.provider.value) &&
            (!KeyLocker.Given(info.provider) ==> r.value.provider == Secrets.EffectiveProviderSpec(ctx)) &&
            r.value.model == Secrets.LlmModel(ctx, Some(r.value.provider))
  {
  }

  // ---------------------------------------------------------------------------
  // Messages
  // ---------------------------------------------------------------------------

  /** A chat message: `role` and `content` are `None` when the key is absent. */
  datatype Message = Message(role: Option<string>, content: Option<string>)

  /** The system message for a personality. */
  function PersonaMessage(personality: string): Message {
    Message(Some("system"), Some("You are " + personality + "."))
  }

  /** `_prepare_messages`: a copy of the messages, with the persona message in
      front exactly when the personality is truthy. */
  function PrepareMessages(messages: seq<Message>, personality: Option<string>): (r: seq<Message>)
    ensures KeyLocker.Given(personality) ==> |r| == |messages| + 1 && r[0] == PersonaMessage(personality.value) && r[1..] == messages
    ensures !KeyLocker.Given(personality) ==> r == messages
  {
    if KeyLocker.Given(personality) then [PersonaMessage(personality.value)] + messages else messages
  }

  /** `msg.get("content")` is truthy. */
  predicate HasContent(m: Message) {
    KeyLocker.Given(m.content)
  }

  /** The prompt line of one message with content. */
  function PromptLine(m: Message): string
    requires HasContent(m)
  {
    Capitalize(if m.role.Some? then m.role.value else "user") + ": " + Strip(m.content.value)
  }

  /** The lines of `_build_huggingface_prompt`, one per message with content,
      in message order. */
  function PromptLines(messages: seq<Message>): (r: seq<string>)
    ensures |r| <= |messages|
  {
    if messages == [] then []
    else PromptLines(messages[..|messages| - 1]) +
         (var m := messages[|messages| - 1]; if HasContent(m) then [PromptLine(m)] else [])
  }

  /** `_build_huggingface_prompt`. */
  function BuildHuggingfacePrompt(messages: seq<Message>): string {
    Join("\n", PromptLines(messages))
  }

  /** The lines of a concatenation are the lines of its halves. */
  lemma {:induction false} PromptLinesAppend(a: seq<Message>, b: seq<Message>)
    ensures PromptLines(a + b) == PromptLines(a) + PromptLines(b)
    decreases |b|
  {
    if b == [] {
      assert a + b == a;
    } else {
      assert (a + b)[..|a + b| - 1] == a + b[..|b| - 1];
      PromptLinesAppend(a, b[..|b| - 1]);
    }
  }

  /** Exactly the messages with content give a line, each "Role: content" with
      the role capitalised (user when absent) and the content stripped. */
  lemma PromptLinesExactly(messages: seq<Message>)
    ensures var ls := PromptLines(messages);
            (|ls| == |messages| <==> forall i :: 0 <= i < |messages| ==> HasContent(messages[i])) &&
            (ls == [] <==> forall i :: 0 <= i < |messages| ==> !HasContent(messages[i]))
  {
    PromptLinesAll(messages);
    PromptLinesNone(messages);
  }

  /** One line per message exactly when every message has content. */
  lemma {:induction false} PromptLinesAll(messages: seq<Message>)
    ensures |PromptLines(messages)| == |messages| <==> forall i :: 0 <= i < |messages| ==> HasContent(messages[i])
  {
    if messages != [] {
      var init := messages[..|messages| - 1];
      var last := messages[|messages| - 1];
      PromptLinesAll(init);
      assert |PromptLines(messages)| == |PromptLines(init)| + (if HasContent(last) then 1 else 0);
      if |PromptLines(messages)| == |messages| {
        assert HasContent(last) && |PromptLines(init)| == |init|;
        forall i | 0 <= i < |messages| ensures HasContent(messages[i]) {
          if i < |init| {
            assert init[i] == messages[i];
          }
        }
      }
    }
  }

  /** No line at all exactly when no message has content. */
  lemma {:induction false} PromptLinesNone(messages: seq<Message>)
    ensures PromptLines(messages) == [] <==> forall i :: 0 <= i < |messages| ==> !HasContent(messages[i])
  {
    if messages != [] {
      var init := messages[..|messages| - 1];
      PromptLinesNone(init);
      assert forall i :: 0 <= i < |init| ==> init[i] == messages[i];
    }
  }

  /** `Join` with a separator puts it between a first part and the rest. */
  lemma JoinCons(sep: string, x: string, rest: seq<string>)
    requires rest != []
    ensures Join(sep, [x] + rest) == x + sep + Join(sep, rest)
  {
    assert ([x] + rest)[1..] == rest;
  }

  /** The persona message becomes the first prompt line, "System: You are
      <personality>.", in front of the prompt of the caller's messages. */
  lemma PersonaLeadsPrompt(messages: seq<Message>, personality: string)
    requires personality != []
    ensures var first := "System: You are " + personality + ".";
            BuildHuggingfacePrompt(PrepareMessages(messages, Some(personality))) ==
              if PromptLines(messages) == [] then first else first + "\n" + BuildHuggingfacePrompt(messages)
  {
    var p := PersonaMessage(personality);
    PromptLinesAppend([p], messages);
    assert PromptLines([p]) == [PromptLine(p)] by {
      assert [p][..0] == [];
    }
    PersonaLine(personality);
    if PromptLines(messages) != [] {
      JoinCons("\n", PromptLine(p), PromptLines(messages));
    }
  }

  /** The persona's prompt line: its content has nothing to strip. */
  lemma PersonaLine(personality: string)
    ensures PromptLine(PersonaMessage(personality)) == "System: You are " + personality + "."
  {
    var content := "You are " + personality + ".";
    assert StripLeft(content) == content;
    assert StripRight(content) == content;
    assert Capitalize("system") == "System" by {
      var c := Capitalize("system");
      assert c[0] == 'S';
      assert c[1..] == Lower("ystem") == "ystem";
    }
  }

  // ---------------------------------------------------------------------------
  // HuggingFace responses
  // ---------------------------------------------------------------------------

  /** A decoded JSON value; numbers are integers. */
  datatype Json = JNull | JBool(b: bool) | JNum(n: int) | JStr(s: string) | JList(items: seq<Json>)
                | JObj(fields: map<string, Json>)

  /** Python truthiness of a JSON value. */
  predicate Truthy(v: Json) {
    match v
    case JNull => false
    case JBool(b) => b
    case JNum(n) => n != 0
    case JStr(s) => s != []
    case JList(items) => items != []
    case JObj(fields) => fields != map[]
  }

  /** `d.get(key)`: a missing key reads as `None`. */
  function Get(fields: map<string, Json>, key: string): Json {
    if key in fields then fields[key] else JNull
  }

  const TextFields: seq<string> := ["generated_text", "text", "output", "result"]

  /** What `_extract_huggingface_text` does: returns a value, raises
      ValueError (nothing found) or raises another error (indexing a value
      that cannot be indexed by 0). */
  datatype Extracted = Found(value: Json) | NoText | Fails

  /** The field loop for the first element of a list payload: the first
      truthy field decides, a string is returned whole and anything else is
      indexed by 0. */
  function FromListDict(fields: map<string, Json>, i: nat): Extracted
    requires i <= |TextFields|
    decreases |TextFields| - i
  {
    if i == |TextFields| then NoText
    else
      var v := Get(fields, TextFields[i]);
      if !Truthy(v) then FromListDict(fields, i + 1)
      else match v
        case JStr(_) => Found(v)
        case JList(items) => Found(items[0])
        case _ => Fails
  }

  /** The field loop for a dict payload: a truthy value that is neither a
      string nor a list is skipped. */
  function FromDict(fields: map<string, Json>, i: nat): Extracted
    requires i <= |TextFields|
    decreases |TextFields| - i
  {
    if i == |TextFields| then NoText
    else
      var v := Get(fields, TextFields[i]);
      if Truthy(v) && v.JStr? then Found(v)
      else if Truthy(v) && v.JList? then Found(v.items[0])
      else FromDict(fields, i + 1)
  }

  /** `_extract_huggingface_text`. */
  function ExtractHuggingfaceText(payload: Json): Extracted {
    match payload
    case JList(items) =>
      if items == [] then NoText
      else (match items[0]
            case JObj(fields) => FromListDict(fields, 0)
            case JStr(_) => Found(items[0])
            case _ => NoText)
    case JObj(fields) => FromDict(fields, 0)
    case _ => NoText
  }

  /** A field value the dict loop can return from. */
  predicate Usable(v: Json) {
    (v.JStr? || v.JList?) && Truthy(v)
  }

  /** The value returned for a usable field value: a string whole, a list's
      first element. */
  function Lead(v: Json): Json
    requires Usable(v)
  {
    if v.JStr? then v else v.items[0]
  }

  /** The dict loop returns from the first usable field at or after `i`, and
      raises ValueError when there is none. */
  lemma {:induction false} FromDictFirstUsable(fields: map<string, Json>, i: nat, k: nat)
    requires i <= k <= |TextFields|
    requires forall j :: i <= j < k ==> !Usable(Get(fields, TextFields[j]))
    ensures k < |TextFields| && Usable(Get(fields, TextFields[k])) ==>
              FromDict(fields, i) == Found(Lead(Get(fields, TextFields[k])))
    ensures k == |TextFields| ==> FromDict(fields, i) == NoText
    decreases k - i
  {
    if i < k {
      FromDictFirstUsable(fields, i + 1, k);
    }
  }

  /** For a dict payload the fields are tried in the order generated_text,
      text, output, result; the first usable one gives the text, and with
      none of them usable nothing is found. */
  lemma DictPayloadFieldOrder(fields: map<string, Json>, k: nat)
    requires k <= |TextFields|
    requires forall j :: 0 <= j < k ==> !Usable(Get(fields, TextFields[j]))
    ensures k < |TextFields| && Usable(Get(fields, TextFields[k])) ==>
              ExtractHuggingfaceText(JObj(fields)) == Found(Lead(Get(fields, TextFields[k])))
    ensures k == |TextFields| ==> ExtractHuggingfaceText(JObj(fields)) == NoText
  {
    FromDictFirstUsable(fields, 0, k);
  }

  /** A list payload is decided by its first element alone. */
  lemma ListPayloadUsesFirst(items: seq<Json>)
    requires items != []
    ensures ExtractHuggingfaceText(JList(items)) == ExtractHuggingfaceText(JList([items[0]]))
  {
  }

  /** A dict inside a list is read like a dict payload as long as every truthy
      field value is a string or a list; a truthy value of another kind makes
      the list reading fail where the dict reading would skip it. */
  lemma {:induction false} ListDictAgreesWithDict(fields: map<string, Json>, i: nat)
    requires i <= |TextFields|
    requires forall j :: i <= j < |TextFields| && Truthy(Get(fields, TextFields[j])) ==> Usable(Get(fields, TextFields[j]))
    ensures FromListDict(fields, i) == FromDict(fields, i)
    decreases |TextFields| - i
  {
    if i < |TextFields| {
      ListDictAgreesWithDict(fields, i + 1);
    }
  }

  /** Anything but a non-empty list or a dict has no text. */
  lemma OtherPayloadsHaveNoText(payload: Json)
    requires !payload.JObj? && !(payload.JList? && payload.items != [])
    ensures ExtractHuggingfaceText(payload) == NoText
  {
  }

  // ---------------------------------------------------------------------------
  // Usage recording
  // ---------------------------------------------------------------------------

  /** The token estimate: the number of whitespace-separated words, at least 1. */
  function Tokens(response: string): (n: int)
    ensures n >= 1
  {
    if |Words(response)| > 1 then |Words(response)| else 1
  }

  /** A blank response counts as one token, any other as its word count. */
  lemma TokensCountWords(response: string)
    ensures IsBlank(response) ==> Tokens(response) == 1
    ensures !IsBlank(response) ==> Tokens(response) == |Words(response)|
  {
    WordsEmptyIffBlank(response);
  }

  /** `_record_usage`: nothing without a truthy key id; otherwise one ledger
      line with the token estimate and a zero cost, then `touch_key`. */
  method RecordUsage(ledger: UsageLogger.UsageLedger, locker: KeyLocker.Locker, p: Provider,
                     response: string, operation: string, now: int)
    requires locker.Valid()
    modifies ledger, locker`meta
    ensures locker.Valid()
    ensures !KeyLocker.Given(p.keyInfo.keyId) ==>
              ledger.lines == old(ledger.lines) && locker.Snapshot() == old(locker.Snapshot())
    ensures KeyLocker.Given(p.keyInfo.keyId) ==>
              ledger.lines == old(ledger.lines) +
                [UsageLogger.Record(UsageLogger.UsageEntry(Some(now), p.keyInfo.keyId, p.keyInfo.provider, Some(p.provider),
                                                           Some(operation), Some(Tokens(response)), Some(0.0), None))] &&
              locker.Snapshot() == KeyLocker.TouchSpec(old(locker.Snapshot()), p.keyInfo.keyId.value, now)
  {
    if !KeyLocker.Given(p.keyInfo.keyId) {
      return;
    }
    var id := p.keyInfo.keyId.value;
    ledger.Log(id, p.keyInfo.provider, Some(p.provider), Some(operation), Some(Tokens(response)), Some(0.0), None, now);
    locker.TouchKey(id, now);
  }

  // ---------------------------------------------------------------------------
  // call
  // ---------------------------------------------------------------------------

  const Apology := "Sorry, I couldn't process your request right now."

  /** The apology has 49 characters and ends with a full stop. */
  lemma ApologyShape()
    ensures |Apology| == 49 && Apology[48] == '.'
  {
  }

  /** The backend a provider name is sent to. */
  datatype Route = OpenAI | HuggingFace | OpenRouter

  function RouteOf(provider: string): (r: Route)
    ensures r == OpenAI <==> provider == "openai"
    ensures r == HuggingFace <==> provider == "huggingface"
  {
    if provider == "openai" then OpenAI
    else if provider == "huggingface" then HuggingFace
    else OpenRouter
  }

  /** `LLMProvider.call`. `backend(route)` is the reply of that route's
      backend, or `None` when it raised; a missing key raises before any
      backend is reached, and every exception becomes the apology. */
  function Call(p: Provider, backend: Route -> Option<string>): (r: string)
    ensures !KeyLocker.Given(p.apiKey) ==> r == Apology
    ensures KeyLocker.Given(p.apiKey) && backend(RouteOf(p.provider)).None? ==> r == Apology
  {
    if !KeyLocker.Given(p.apiKey) then Apology
    else match backend(RouteOf(p.provider))
      case None => Apology
      case Some(reply) => if p.guardrails.Some? then Guardrails.ApplyAll(p.guardrails.value, reply) else reply
  }

  /** `call` as written. `_call_openrouter` and `_call_huggingface` run their
      request inside `with llm_circuit_breaker:`, but `CircuitBreaker` defines
      no `__enter__`/`__exit__`, so entering the block raises a TypeError
      before any request is made. The retry decorators catch only request
      exceptions, so the error reaches `call`, which answers with the apology.
      Only the openai route can reach its backend. */
  function CallAsWritten(p: Provider, backend: Route -> Option<string>): string {
    if !KeyLocker.Given(p.apiKey) then Apology
    else if RouteOf(p.provider) != OpenAI then Apology
    else Call(p, backend)
  }

  /** As written, every provider other than openai is answered with the
      apology, whatever its backend replies; openai calls behave as intended. */
  lemma AsWrittenOnlyOpenAIAnswers(p: Provider, backend: Route -> Option<string>)
    ensures p.provider != "openai" ==> CallAsWritten(p, backend) == Apology
    ensures p.provider == "openai" ==> CallAsWritten(p, backend) == Call(p, backend)
  {
  }

  /** The default provider shows it: an openrouter instance with a key, whose
      backend replies, gets the reply from the intended `call` but the
      apology from `call` as written. */
  lemma AsWrittenLosesOpenRouterReply(p: Provider, backend: Route -> Option<string>, reply: string)
    requires p.provider == "openrouter" && KeyLocker.Given(p.apiKey) && p.guardrails.None?
    requires backend(OpenRouter) == Some(reply) && reply != Apology
    ensures Call(p, backend) == reply
    ensures CallAsWritten(p, backend) == Apology != Call(p, backend)
  {
    assert RouteOf(p.provider) == OpenRouter;
  }

  /** `call` consults only the backend its provider routes to. */
  lemma CallUsesOnlyItsRoute(p: Provider, b1: Route -> Option<string>, b2: Route -> Option<string>)
    requires b1(RouteOf(p.provider)) == b2(RouteOf(p.provider))
    ensures Call(p, b1) == Call(p, b2)
  {
  }

  /** With a key, a reply that gets through is the backend's reply passed
      through the configured guardrails, and a manager with no guardrails
      changes nothing. */
  lemma CallGuardsReply(p: Provider, backend: Route -> Option<string>)
    requires KeyLocker.Given(p.apiKey) && backend(RouteOf(p.provider)).Some?
    ensures var reply := backend(RouteOf(p.provider)).value;
            Call(p, backend) == (if p.guardrails.Some? then Guardrails.ApplyAll(p.guardrails.value, reply) else reply) &&
            (p.guardrails == Some([]) ==> Call(p, backend) == reply)
  {
  }

  /** An instance built without explicit key when no key is found anywhere
      answers every call with the apology, whatever the backends would say. */
  lemma NoKeyAlwaysApologizes(ctx: Secrets.Context, provider: Option<string>, model: Option<string>,
                              guardrails: Option<seq<Guardrails.Guardrail>>, backend: Route -> Option<string>)
    requires Secrets.ValidContext(ctx)
    requires var requested := if KeyLocker.Given(provider) then provider.value else Secrets.EffectiveProviderSpec(ctx);
             Secrets.KeyInfoSpec(ctx, Some(requested)) == Ok(Secrets.NoKey)
    ensures var r := Init(ctx, provider, None, model, guardrails);
            r.Ok? && Call(r.value, backend) == Apology
  {
  }
}
