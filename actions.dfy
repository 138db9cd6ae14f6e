/** The server action `generateMarketingPlan` (app/actions.ts): the API-key
    precondition, the prompt built from the three collected inputs, the one
    request sent to the provider, and the classification of the provider's
    answer into a plan text or an error message. The network is not
    modelled: the provider is a function from the request to what `fetch`
    yields for it. */
module Actions {
  import opened Wrappers
  import Text

  const MissingKeyMessage: string := "ANTHROPIC_API_KEY environment variable is not set"
  const GenericFailureMessage: string := "Failed to generate marketing plan. Please try again later."

  const ApiUrl: string := "https://api.anthropic.com/v1/messages"
  const ModelName: string := "claude-3-7-sonnet-20250219"
  const MaxTokens: int := 4000
  const PlatformSeparator: string := ", "

  /** The fixed text around the three inserted values of the prompt
      template. The template's item "1." begins with the two characters
      U+00D0 U+00A1 where a "C" is evidently meant; they are kept as they are. */
  const PromptIntro: string :=
    "Based on the following company description, create a comprehensive 1-month social media marketing plan for the following platforms: "
  const PromptBeforeDescription: string := ".\n\nCompany Description:\n"
  const PromptBeforeFrequency: string := "\n\nPosting Frequency: "
  const PromptOutro: string :=
    "\n\nFor each platform, include:\n"
    + "1. \U{00D0}\U{00A1}aptions and hashtags (where relevant) for each post\n"
    + "2. Prompt for image generation\n\n"
    + "Organize the plan by week (Week 1-4) for each platform, with specific actionable recommendations that match the requested posting frequency."

  /** The argument of `generateMarketingPlan`. */
  datatype PlanParams = PlanParams(companyDescription: string, postingFrequency: string, platforms: seq<string>)

  datatype Message = Message(role: string, content: string)

  /** The JSON body of the POST request. */
  datatype RequestBody = RequestBody(model: string, maxTokens: int, messages: seq<Message>)

  /** The request: endpoint, the `x-api-key` header value, and the body. */
  datatype Request = Request(url: string, apiKey: string, body: RequestBody)

  /** The first element of the response's `content` array: one that has a
      string `text` field, or one that has no `text` field. */
  datatype Segment = TextSegment(text: string) | SegmentWithoutText

  /** What `response.json()` makes of a successful response: a rejection
      (the body is not JSON), or an object whose `content` array is present
      (Some) or missing (None). */
  datatype ResponseJson = Unparseable | Parsed(content: Option<seq<Segment>>)

  /** What `fetch` yields: a rejection (network failure) or a response with
      its status, its body as text and its body as JSON. */
  datatype FetchOutcome =
    | NetworkError
    | Response(status: int, bodyText: string, json: ResponseJson)

  /** Why the `try` block failed; logged by the source, never returned. */
  datatype Cause = ApiFailed(status: int, bodyText: string) | MalformedResponse | NetworkFailure

  /** One call of the action: the request it sent, if any, and its result
      (the plan text, or the message of the error it throws). */
  datatype Call = Call(sent: Option<Request>, result: Result<string, string>)

  /** `!apiKey`: an unset key and the empty string are both falsy. */
  predicate KeyMissing(apiKey: Option<string>) {
    apiKey.None? || apiKey.value == ""
  }

  /** `response.ok`. */
  predicate StatusOk(status: int) {
    200 <= status <= 299
  }

  /** The template string: the fixed fragments with the platform list, the
      description and the frequency inserted verbatim, in that order. */
  function Prompt(platformsStr: string, companyDescription: string, postingFrequency: string): string
  {
    PromptIntro + platformsStr + PromptBeforeDescription + companyDescription
    + PromptBeforeFrequency + postingFrequency + PromptOutro
  }

  /** Where each inserted value sits in the prompt: the platform list right
      after the intro, the description after the next fragment, the
      frequency after the one after that, and the prompt is no longer than
      the fragments and the values together. */
  lemma PromptLayout(platformsStr: string, companyDescription: string, postingFrequency: string)
    ensures var prompt := Prompt(platformsStr, companyDescription, postingFrequency);
            var p0 := |PromptIntro|;
            var d0 := p0 + |platformsStr| + |PromptBeforeDescription|;
            var f0 := d0 + |companyDescription| + |PromptBeforeFrequency|;
            && |prompt| == f0 + |postingFrequency| + |PromptOutro|
            && prompt[..p0] == PromptIntro
            && prompt[p0..p0 + |platformsStr|] == platformsStr
            && prompt[p0 + |platformsStr|..d0] == PromptBeforeDescription
            && prompt[d0..d0 + |companyDescription|] == companyDescription
            && prompt[d0 + |companyDescription|..f0] == PromptBeforeFrequency
            && prompt[f0..f0 + |postingFrequency|] == postingFrequency
            && prompt[f0 + |postingFrequency|..] == PromptOutro
  {
    SevenPartLayout(PromptIntro, platformsStr, PromptBeforeDescription, companyDescription,
                    PromptBeforeFrequency, postingFrequency, PromptOutro);
  }

  /** Where each of seven concatenated strings sits in the concatenation. */
  lemma SevenPartLayout(a: string, b: string, c: string, d: string, e: string, f: string, g: string)
    ensures var s := a + b + c + d + e + f + g;
            var i1 := |a|;
            var i2 := i1 + |b|;
            var i3 := i2 + |c|;
            var i4 := i3 + |d|;
            var i5 := i4 + |e|;
            var i6 := i5 + |f|;
            && |s| == i6 + |g|
            && s[..i1] == a && s[i1..i2] == b && s[i2..i3] == c && s[i3..i4] == d
            && s[i4..i5] == e && s[i5..i6] == f && s[i6..] == g
  {
    var ab := a + b;
    var abc := ab + c;
    var abcd := abc + d;
    var abcde := abcd + e;
    var abcdef := abcde + f;
    var s := abcdef + g;
    assert s[..|abcdef|] == abcdef;
    assert abcdef[..|abcde|] == abcde;
    assert abcde[..|abcd|] == abcd;
    assert abcd[..|abc|] == abc;
    assert abc[..|ab|] == ab;
  }

  /** The request the action sends once the key is present. */
  function BuildRequest(apiKey: string, params: PlanParams): Request
  {
    var platformsStr := Text.Join(params.platforms, PlatformSeparator);
    var prompt := Prompt(platformsStr, params.companyDescription, params.postingFrequency);
    Request(ApiUrl, apiKey, RequestBody(ModelName, MaxTokens, [Message("user", prompt)]))
  }

  /** The request goes to the messages endpoint with the key, the fixed
      model and token budget, and exactly one message: a user message whose
      content is the prompt built from the joined platform list and the
      untouched description and frequency. */
  lemma RequestIsFixed(apiKey: string, params: PlanParams)
    ensures var r := BuildRequest(apiKey, params);
            && r.url == ApiUrl && r.apiKey == apiKey
            && r.body.model == "claude-3-7-sonnet-20250219" && r.body.maxTokens == 4000
            && r.body.messages == [Message("user", Prompt(Text.Join(params.platforms, ", "),
                                                         params.companyDescription, params.postingFrequency))]
  {
  }

  /** The platform list sits right after the fixed introduction. */
  lemma PlatformsFollowIntro(platformsStr: string, companyDescription: string, postingFrequency: string)
    ensures var prompt := Prompt(platformsStr, companyDescription, postingFrequency);
            && |prompt| >= |PromptIntro| + |platformsStr|
            && prompt[|PromptIntro|..|PromptIntro| + |platformsStr|] == platformsStr
  {
    PromptLayout(platformsStr, companyDescription, postingFrequency);
  }

  /** The platform list in the request's prompt splits back into the
      platforms whenever there is at least one and none contains a comma. */
  lemma PlatformsRecoverable(apiKey: string, params: PlanParams)
    requires params.platforms != []
    requires forall i :: 0 <= i < |params.platforms| ==> ',' !in params.platforms[i]
    ensures var content := BuildRequest(apiKey, params).body.messages[0].content;
            var platformsStr := Text.Join(params.platforms, PlatformSeparator);
            && |content| >= |PromptIntro| + |platformsStr|
            && Text.Split(content[|PromptIntro|..|PromptIntro| + |platformsStr|], PlatformSeparator) == params.platforms
  {
    var platformsStr := Text.Join(params.platforms, PlatformSeparator);
    var prompt := Prompt(platformsStr, params.companyDescription, params.postingFrequency);
    PromptSplitsIntoPlatforms(params.platforms, params.companyDescription, params.postingFrequency);
    assert BuildRequest(apiKey, params).body.messages == [Message("user", prompt)];
  }

  /** The prompt determines the joined platform list inserted into it,
      given the description and the frequency. */
  lemma PromptDeterminesJoin(j1: string, j2: string, companyDescription: string, postingFrequency: string)
    requires Prompt(j1, companyDescription, postingFrequency) == Prompt(j2, companyDescription, postingFrequency)
    ensures j1 == j2
  {
    PromptLayout(j1, companyDescription, postingFrequency);
    PromptLayout(j2, companyDescription, postingFrequency);
    assert |j1| == |j2|;
    PlatformsFollowIntro(j1, companyDescription, postingFrequency);
    PlatformsFollowIntro(j2, companyDescription, postingFrequency);
  }

  /** Equal joins of non-empty comma-free platform lists come from equal lists. */
  lemma JoinDeterminesPlatforms(ps1: seq<string>, ps2: seq<string>)
    requires ps1 != [] && ps2 != []
    requires forall i :: 0 <= i < |ps1| ==> ',' !in ps1[i]
    requires forall i :: 0 <= i < |ps2| ==> ',' !in ps2[i]
    requires Text.Join(ps1, PlatformSeparator) == Text.Join(ps2, PlatformSeparator)
    ensures ps1 == ps2
  {
    assert PlatformSeparator[0] == ',';
    Text.SplitJoin(ps1, PlatformSeparator);
    Text.SplitJoin(ps2, PlatformSeparator);
  }

  /** For a fixed key, description and frequency, the request determines
      the platforms: two non-empty lists of comma-free platforms that build
      the same request are the same list. */
  lemma RequestDeterminesPlatforms(apiKey: string, companyDescription: string, postingFrequency: string,
                                   ps1: seq<string>, ps2: seq<string>)
    requires ps1 != [] && ps2 != []
    requires forall i :: 0 <= i < |ps1| ==> ',' !in ps1[i]
    requires forall i :: 0 <= i < |ps2| ==> ',' !in ps2[i]
    requires BuildRequest(apiKey, PlanParams(companyDescription, postingFrequency, ps1))
          == BuildRequest(apiKey, PlanParams(companyDescription, postingFrequency, ps2))
    ensures ps1 == ps2
  {
    var j1 := Text.Join(ps1, PlatformSeparator);
    var j2 := Text.Join(ps2, PlatformSeparator);
    assert Prompt(j1, companyDescription, postingFrequency) == Prompt(j2, companyDescription, postingFrequency) by {
      assert BuildRequest(apiKey, PlanParams(companyDescription, postingFrequency, ps1)).body.messages
          == [Message("user", Prompt(j1, companyDescription, postingFrequency))];
      assert BuildRequest(apiKey, PlanParams(companyDescription, postingFrequency, ps2)).body.messages
          == [Message("user", Prompt(j2, companyDescription, postingFrequency))];
    }
    PromptDeterminesJoin(j1, j2, companyDescription, postingFrequency);
    JoinDeterminesPlatforms(ps1, ps2);
  }

  /** Splitting the slice after the introduction at ", " gives the platforms back. */
  lemma PromptSplitsIntoPlatforms(platforms: seq<string>, companyDescription: string, postingFrequency: string)
    requires platforms != []
    requires forall i :: 0 <= i < |platforms| ==> ',' !in platforms[i]
    ensures var platformsStr := Text.Join(platforms, PlatformSeparator);
            var prompt := Prompt(platformsStr, companyDescription, postingFrequency);
            && |prompt| >= |PromptIntro| + |platformsStr|
            && Text.Split(prompt[|PromptIntro|..|PromptIntro| + |platformsStr|], PlatformSeparator) == platforms
  {
    var platformsStr := Text.Join(platforms, PlatformSeparator);
    assert Text.Split(platformsStr, PlatformSeparator) == platforms by {
      assert PlatformSeparator[0] == ',';
      Text.SplitJoin(platforms, PlatformSeparator);
    }
    PlatformsFollowIntro(platformsStr, companyDescription, postingFrequency);
  }

  /** What a JavaScript expression does: yields a string, yields
      `undefined`, or throws. */
  datatype Evaluation = Evaluates(text: string) | EvaluatesUndefined | Throws

  /** `result.content[0].text` as the source writes it: it throws when the
      JSON is unreadable, when `content` is missing and when the array is
      empty, but yields `undefined` without throwing when the first element
      has no `text` field. */
  function ReadFirstTextAsWritten(json: ResponseJson): Evaluation
  {
    match json
    case Unparseable => Throws
    case Parsed(None) => Throws
    case Parsed(Some(content)) =>
      if content == [] then Throws
      else match content[0]
        case TextSegment(t) => Evaluates(t)
        case SegmentWithoutText => EvaluatesUndefined
  }

  /** As written, an ok response whose first segment lacks `text` makes the
      action resolve with `undefined` although it is declared to return a
      string: nothing is thrown, so no failure is reported. */
  lemma MissingTextResolvesAsWritten()
    ensures ReadFirstTextAsWritten(Parsed(Some([SegmentWithoutText]))) == EvaluatesUndefined
  {
  }

  /** The first text segment of the response, treating a first segment
      without `text` as a malformed response like the other missing parts. */
  function FirstText(json: ResponseJson): Option<string>
  {
    if json.Parsed? && json.content.Some? && json.content.value != []
       && json.content.value[0].TextSegment?
    then Some(json.content.value[0].text)
    else None
  }

  /** FirstText agrees with the JavaScript expression wherever that yields a
      string, and fails exactly where it throws or yields `undefined`. */
  lemma FirstTextCorrectsAsWritten(json: ResponseJson)
    ensures forall t :: FirstText(json) == Some(t) <==> ReadFirstTextAsWritten(json) == Evaluates(t)
    ensures FirstText(json).None? <==> ReadFirstTextAsWritten(json) in {Throws, EvaluatesUndefined}
  {
  }

  /** The `try` block after the request has been sent: a non-ok status is
      an API failure carrying status and body, an ok response yields the
      first text segment or counts as malformed, a rejected fetch is a
      network failure. */
  function Attempt(outcome: FetchOutcome): (r: Result<string, Cause>)
    ensures r.Success? <==> outcome.Response? && StatusOk(outcome.status) && FirstText(outcome.json).Some?
    ensures r.Success? ==> Some(r.value) == FirstText(outcome.json)
    ensures outcome.Response? && !StatusOk(outcome.status) ==> r == Failure(ApiFailed(outcome.status, outcome.bodyText))
    ensures outcome.NetworkError? ==> r == Failure(NetworkFailure)
  {
    match outcome
    case NetworkError => Failure(NetworkFailure)
    case Response(status, bodyText, json) =>
      if !StatusOk(status) then Failure(ApiFailed(status, bodyText))
      else match FirstText(json)
        case Some(t) => Success(t)
        case None => Failure(MalformedResponse)
  }

  /** The `try` block as the source writes it: an ok response whose first
      segment has no `text` completes normally with `undefined` (None). */
  function AttemptAsWritten(outcome: FetchOutcome): Result<Option<string>, Cause>
  {
    match outcome
    case NetworkError => Failure(NetworkFailure)
    case Response(status, bodyText, json) =>
      if !StatusOk(status) then Failure(ApiFailed(status, bodyText))
      else match ReadFirstTextAsWritten(json)
        case Evaluates(t) => Success(Some(t))
        case EvaluatesUndefined => Success(None)
        case Throws => Failure(MalformedResponse)
  }

  /** An ok response whose `content` starts with a segment lacking `text`. */
  predicate UndefinedFirstText(outcome: FetchOutcome) {
    && outcome.Response? && StatusOk(outcome.status)
    && outcome.json.Parsed? && outcome.json.content.Some?
    && outcome.json.content.value != [] && outcome.json.content.value[0].SegmentWithoutText?
  }

  /** Attempt's result seen as the source's: a text result is a string value. */
  function AsValue(r: Result<string, Cause>): Result<Option<string>, Cause>
  {
    match r
    case Success(t) => Success(Some(t))
    case Failure(e) => Failure(e)
  }

  /** The `try` block as written and Attempt differ exactly on an ok
      response whose first segment lacks `text`: there the source resolves
      with `undefined` while Attempt reports a malformed response. */
  lemma AttemptDiffersOnlyOnUndefinedText(outcome: FetchOutcome)
    ensures AttemptAsWritten(outcome) == AsValue(Attempt(outcome)) <==> !UndefinedFirstText(outcome)
    ensures UndefinedFirstText(outcome) ==>
              AttemptAsWritten(outcome) == Success(None) && Attempt(outcome) == Failure(MalformedResponse)
  {
    FirstTextCorrectsAsWritten(if outcome.Response? then outcome.json else Unparseable);
  }

  /** `generateMarketingPlan`. With the key missing it fails with its own
      message and sends nothing; otherwise it sends exactly the built
      request, returns the plan text of a usable answer, and turns every
      failure inside the `try` into the one generic message. */
  function GenerateMarketingPlan(apiKey: Option<string>, params: PlanParams, provider: Request -> FetchOutcome): (c: Call)
    ensures KeyMissing(apiKey) ==> c == Call(None, Failure(MissingKeyMessage))
    ensures !KeyMissing(apiKey) ==> c.sent == Some(BuildRequest(apiKey.value, params))
    ensures !KeyMissing(apiKey) && c.result.Failure? ==> c.result.error == GenericFailureMessage
    ensures c.result.Success? <==> !KeyMissing(apiKey) && Attempt(provider(c.sent.value)).Success?
    ensures c.result.Success? ==> Success(c.result.value) == Attempt(provider(c.sent.value))
  {
    if KeyMissing(apiKey) then Call(None, Failure(MissingKeyMessage))
    else
      var request := BuildRequest(apiKey.value, params);
      match Attempt(provider(request))
      case Success(text) => Call(Some(request), Success(text))
      case Failure(_) => Call(Some(request), Failure(GenericFailureMessage))
  }

  /** The missing-key message is produced exactly when the key is missing:
      it is thrown before the `try`, so it is never replaced by the generic
      message, and no provider answer can produce it. */
  lemma MissingKeyMessageIffKeyMissing(apiKey: Option<string>, params: PlanParams, provider: Request -> FetchOutcome)
    ensures GenerateMarketingPlan(apiKey, params, provider).result == Failure(MissingKeyMessage) <==> KeyMissing(apiKey)
  {
    assert |MissingKeyMessage| != |GenericFailureMessage|;
  }

  /** With the key missing the provider is never consulted: any two
      providers give the same call. */
  lemma MissingKeyIgnoresProvider(apiKey: Option<string>, params: PlanParams, p1: Request -> FetchOutcome, p2: Request -> FetchOutcome)
    requires KeyMissing(apiKey)
    ensures GenerateMarketingPlan(apiKey, params, p1) == GenerateMarketingPlan(apiKey, params, p2)
  {
  }

  /** A non-ok status never yields a plan, whatever the body says. */
  lemma NonOkStatusFails(apiKey: Option<string>, params: PlanParams, provider: Request -> FetchOutcome)
    requires !KeyMissing(apiKey)
    requires var o := provider(BuildRequest(apiKey.value, params)); o.Response? && !StatusOk(o.status)
    ensures GenerateMarketingPlan(apiKey, params, provider).result == Failure(GenericFailureMessage)
  {
  }

  /** An ok response returns exactly `content[0].text`. */
  lemma OkResponseReturnsFirstText(apiKey: Option<string>, params: PlanParams, provider: Request -> FetchOutcome, t: string, rest: seq<Segment>)
    requires !KeyMissing(apiKey)
    requires var o := provider(BuildRequest(apiKey.value, params));
             o.Response? && StatusOk(o.status) && o.json == Parsed(Some([TextSegment(t)] + rest))
    ensures GenerateMarketingPlan(apiKey, params, provider).result == Success(t)
  {
  }
}
