/** The AI classifier (src-tauri/src/ai/mod.rs): the disabled short-circuit,
    the prompt with its 500-byte body preview, the request each provider is
    sent, the fallback when the reply lacks the answer field, the keyword
    mapping from the answer to a category, and the notify rule.

    The HTTP call itself is an oracle: a function from the request to the
    reply the provider would give. */
module Classifier {
  import opened Wrappers
  import opened Types
  import opened Text
  import opened Extract

  // ---------------------------------------------------------------------------
  // The prompt

  /** How many bytes of the body go into the prompt. */
  const PreviewBytes: nat := 500

  /** `&body[..body.len().min(500)]` does not panic. */
  predicate PreviewDefined(body: string)
  {
    Utf8Len(body) <= PreviewBytes || SliceOk(body, PreviewBytes)
  }

  /** The body preview: the first min(len, 500) bytes of the body. */
  function Preview(body: string): (p: string)
    requires PreviewDefined(body)
    ensures |p| <= |body| && p == body[..|p|]
    ensures Utf8Len(p) == Min(Utf8Len(body), PreviewBytes)
  {
    Truncate(body, PreviewBytes)
  }

  const PromptHead: string := "Classify this email into one of these categories: marketing, important, verification, or normal.\n\nSubject: "
  const PromptMiddle: string := "\n\nBody preview: "
  const PromptTail: string := "\n\nRespond with just the category name."

  function Prompt(subject: string, body: string): string
    requires PreviewDefined(body)
  {
    PromptHead + subject + PromptMiddle + Preview(body) + PromptTail
  }

  /** Where the second and fourth parts of a five-part concatenation sit, and
      its byte length. */
  lemma Concat5(a: string, b: string, c: string, d: string, e: string)
    ensures OccursAt(a + b + c + d + e, b, |a|)
    ensures OccursAt(a + b + c + d + e, d, |a| + |b| + |c|)
    ensures Utf8Len(a + b + c + d + e) == Utf8Len(a) + Utf8Len(b) + Utf8Len(c) + Utf8Len(d) + Utf8Len(e)
  {
    var s := a + b + c + d + e;
    assert s[|a|..|a| + |b|] == b;
    assert s[|a| + |b| + |c|..|a| + |b| + |c| + |d|] == d;
    Utf8LenAppend(a, b);
    Utf8LenAppend(a + b, c);
    Utf8LenAppend(a + b + c, d);
    Utf8LenAppend(a + b + c + d, e);
  }

  /** The prompt carries the subject and the preview at fixed places, and its
      size is bounded by the subject plus 500 bytes of body, however long the
      body is. */
  lemma PromptShape(subject: string, body: string)
    requires PreviewDefined(body)
    ensures OccursAt(Prompt(subject, body), subject, |PromptHead|)
    ensures OccursAt(Prompt(subject, body), Preview(body), |PromptHead| + |subject| + |PromptMiddle|)
    ensures Utf8Len(Prompt(subject, body))
            <= Utf8Len(PromptHead) + Utf8Len(subject) + Utf8Len(PromptMiddle) + PreviewBytes + Utf8Len(PromptTail)
  {
    Concat5(PromptHead, subject, PromptMiddle, Preview(body), PromptTail);
  }

  /** The prompt determines the subject: different subjects give different
      prompts for the same body. */
  lemma PromptDeterminesSubject(s1: string, s2: string, body: string)
    requires PreviewDefined(body)
    ensures Prompt(s1, body) == Prompt(s2, body) ==> s1 == s2
  {
    PromptShape(s1, body);
    PromptShape(s2, body);
  }

  /** A body that starts with the preview of a long body has the same
      preview. */
  lemma PreviewSeesOnlyPrefix(b1: string, b2: string)
    requires PreviewDefined(b1) && Utf8Len(b1) >= PreviewBytes
    requires |Preview(b1)| <= |b2| && b2[..|Preview(b1)|] == Preview(b1)
    ensures PreviewDefined(b2) && Preview(b2) == Preview(b1)
  {
    var p1 := Preview(b1);
    var k := |p1|;
    assert Utf8Len(b2[..k]) == PreviewBytes;
    assert PreviewDefined(b2) by {
      assert IsCharBoundary(b2, PreviewBytes);
      Utf8LenAppend(b2[..k], b2[k..]);
      assert b2 == b2[..k] + b2[k..];
      SliceOkIffCharBoundary(b2, PreviewBytes);
    }
    var p2 := Preview(b2);
    if |p2| < k { PrefixBytesIncrease(b2, |p2|, k); }
    else if k < |p2| { PrefixBytesIncrease(b2, k, |p2|); }
  }

  /** Two bodies that agree on their first 500 bytes give the same prompt. */
  lemma PromptSeesOnlyPreview(subject: string, b1: string, b2: string)
    requires PreviewDefined(b1) && Utf8Len(b1) >= PreviewBytes
    requires |Preview(b1)| <= |b2| && b2[..|Preview(b1)|] == Preview(b1)
    ensures PreviewDefined(b2)
    ensures Prompt(subject, b1) == Prompt(subject, b2)
  {
    PreviewSeesOnlyPrefix(b1, b2);
  }

  // ---------------------------------------------------------------------------
  // Requests

  datatype Header = Header(name: string, value: string)

  /** What is sent: the URL, the headers, the `model` and `max_tokens` fields
      of the JSON payload when present, and the single user turn. */
  datatype Request = Request(
    url: string,
    headers: seq<Header>,
    model: Option<string>,
    maxTokens: Option<nat>,
    prompt: string)

  const MaxTokens: nat := 50
  const AnthropicVersion: string := "2023-06-01"
  const GeminiBase: string := "https://generativelanguage.googleapis.com/v1/models/"

  /** The endpoint OpenAI and Anthropic requests go to when none is
      configured; Gemini builds its URL from the model instead. */
  function DefaultEndpoint(p: AIProvider): string
    requires p != Gemini
  {
    if p == OpenAI then "https://api.openai.com/v1/chat/completions"
    else "https://api.anthropic.com/v1/messages"
  }

  function DefaultModel(p: AIProvider): string
  {
    match p
    case OpenAI => "gpt-3.5-turbo"
    case Anthropic => "claude-3-haiku-20240307"
    case Gemini => "gemini-pro"
  }

  /** The request `call_openai_api`, `call_anthropic_api` or `call_gemini_api`
      sends. The endpoint and model come from the configuration when set,
      otherwise from the provider's defaults; the key travels as a bearer
      token, an `x-api-key` header, or a `key` query parameter. */
  function BuildRequest(cfg: AIConfig, prompt: string): (r: Request)
    ensures r.prompt == prompt
    ensures cfg.provider != Gemini ==>
              && r.url == cfg.apiEndpoint.GetOr(DefaultEndpoint(cfg.provider))
              && r.model == Some(cfg.model.GetOr(DefaultModel(cfg.provider)))
              && r.maxTokens == Some(MaxTokens)
    ensures cfg.provider == OpenAI ==> r.headers == [Header("Authorization", "Bearer " + cfg.apiKey)]
    ensures cfg.provider == Anthropic ==>
              r.headers == [Header("x-api-key", cfg.apiKey), Header("anthropic-version", AnthropicVersion)]
    ensures cfg.provider == Gemini ==>
              && r.headers == [] && r.model.None? && r.maxTokens.None?
              && r.url == (match cfg.apiEndpoint
                           case Some(e) => e
                           case None => GeminiBase + cfg.model.GetOr(DefaultModel(Gemini)) + ":generateContent")
                          + "?key=" + cfg.apiKey
  {
    match cfg.provider
    case OpenAI =>
      Request(cfg.apiEndpoint.GetOr(DefaultEndpoint(OpenAI)),
              [Header("Authorization", "Bearer " + cfg.apiKey)],
              Some(cfg.model.GetOr(DefaultModel(OpenAI))), Some(MaxTokens), prompt)
    case Anthropic =>
      Request(cfg.apiEndpoint.GetOr(DefaultEndpoint(Anthropic)),
              [Header("x-api-key", cfg.apiKey), Header("anthropic-version", AnthropicVersion)],
              Some(cfg.model.GetOr(DefaultModel(Anthropic))), Some(MaxTokens), prompt)
    case Gemini =>
      var model := cfg.model.GetOr(DefaultModel(Gemini));
      var url := match cfg.apiEndpoint
        case Some(e) => e + "?key=" + cfg.apiKey
        case None => GeminiBase + model + ":generateContent?key=" + cfg.apiKey;
      Request(url, [], None, None, prompt)
  }

  /** The key never appears in the URL of OpenAI and Anthropic requests, and
      never in a header of Gemini requests; with an endpoint override, the
      Gemini request does not depend on the configured model at all. */
  lemma CredentialPlacement(cfg: AIConfig, key2: string, model2: Option<string>, prompt: string)
    ensures cfg.provider != Gemini ==>
              BuildRequest(cfg, prompt).url == BuildRequest(cfg.(apiKey := key2), prompt).url
    ensures cfg.provider == Gemini ==>
              BuildRequest(cfg, prompt).headers == BuildRequest(cfg.(apiKey := key2), prompt).headers
    ensures cfg.provider == Gemini && cfg.apiEndpoint.Some? ==>
              BuildRequest(cfg, prompt) == BuildRequest(cfg.(model := model2), prompt)
  {
  }

  // ---------------------------------------------------------------------------
  // Replies

  /** The reply body: not JSON, or JSON where the answer field (a different
      path per provider) holds a string or does not. */
  datatype Payload = NotJson | Json(answer: Option<string>)

  datatype Reply = TransportFailure(reason: string) | Response(status: nat, payload: Payload)

  /** The text a `call_*_api` function returns: an error when sending fails or
      the body is not JSON, otherwise the answer field, or "normal" when that
      field is missing. The status code is not inspected. */
  function AnswerOf(reply: Reply): (r: Result<string>)
    ensures r.Err? <==> reply.TransportFailure? || reply.payload.NotJson?
    ensures r.Ok? && reply.payload.answer.None? ==> r.value == "normal"
    ensures r.Ok? && reply.payload.answer.Some? ==> r.value == reply.payload.answer.value
  {
    match reply
    case TransportFailure(reason) => Err(reason)
    case Response(_, NotJson) => Err("error decoding response body")
    case Response(_, Json(answer)) => Ok(answer.GetOr("normal"))
  }

  // ---------------------------------------------------------------------------
  // From the answer to a category

  /** The lowercased answer is searched for "marketing", then "important",
      then "verification"; the first keyword found decides, otherwise Normal. */
  function CategoryOf(answer: string): (c: Category)
    ensures c == Marketing <==> Occurs(Lower(answer), "marketing")
    ensures c == Important <==> !Occurs(Lower(answer), "marketing") && Occurs(Lower(answer), "important")
    ensures c == Verification <==>
              && !Occurs(Lower(answer), "marketing") && !Occurs(Lower(answer), "important")
              && Occurs(Lower(answer), "verification")
    ensures c == Normal <==>
              && !Occurs(Lower(answer), "marketing") && !Occurs(Lower(answer), "important")
              && !Occurs(Lower(answer), "verification")
  {
    var lower := Lower(answer);
    if Contains(lower, "marketing") then Marketing
    else if Contains(lower, "important") then Important
    else if Contains(lower, "verification") then Verification
    else Normal
  }

  /** `should_notify`: only Important and Verification messages notify. */
  predicate ShouldNotify(c: Category)
  {
    c == Important || c == Verification
  }

  /** The result when classification is switched off. */
  const Unclassified: AIClassification := AIClassification(Normal, None, None, false)

  /** `classify_email`. */
  function ClassifyEmail(cfg: AIConfig, email: Email, provider: Request -> Reply): (r: Result<AIClassification>)
    requires cfg.enabled ==> PreviewDefined(email.body)
    ensures !cfg.enabled ==> r == Ok(AIClassification(Normal, None, None, false))
    ensures r.Ok? ==> (r.value.shouldNotify <==> r.value.category == Important || r.value.category == Verification)
    ensures cfg.enabled ==>
              var reply := provider(BuildRequest(cfg, Prompt(email.subject, email.body)));
              && (r.Err? <==> reply.TransportFailure? || reply.payload.NotJson?)
              && (r.Ok? ==> r.value.category == CategoryOf(AnswerOf(reply).value))
    ensures cfg.enabled && r.Ok? ==>
              r.value.verificationCode == ExtractCode(email.body)
              && r.value.verificationLink == ExtractLink(email.body)
  {
    if !cfg.enabled then Ok(Unclassified)
    else
      var code := ExtractCode(email.body);
      var link := ExtractLink(email.body);
      var reply := provider(BuildRequest(cfg, Prompt(email.subject, email.body)));
      match AnswerOf(reply)
      case Err(e) => Err(e)
      case Ok(answer) =>
        var c := CategoryOf(answer);
        Ok(AIClassification(c, code, link, ShouldNotify(c)))
  }

  /** With classification off, the result is the same whatever the message
      contains and whatever the provider would answer. */
  lemma DisabledIgnoresContent(cfg: AIConfig, e1: Email, e2: Email, p1: Request -> Reply, p2: Request -> Reply)
    requires !cfg.enabled
    ensures ClassifyEmail(cfg, e1, p1) == ClassifyEmail(cfg, e2, p2)
    ensures ClassifyEmail(cfg, e1, p1).value.verificationCode.None?
  {
  }

  /** A JSON reply without the answer field classifies as Normal, and a
      successful classification carries codes of 4 to 8 characters taken from
      the body. */
  lemma MissingAnswerIsNormal(cfg: AIConfig, email: Email, provider: Request -> Reply)
    requires cfg.enabled && PreviewDefined(email.body)
    requires provider(BuildRequest(cfg, Prompt(email.subject, email.body))).Response?
    requires provider(BuildRequest(cfg, Prompt(email.subject, email.body))).payload == Json(None)
    ensures ClassifyEmail(cfg, email, provider).Ok?
    ensures ClassifyEmail(cfg, email, provider).value.category == Normal
    ensures !ClassifyEmail(cfg, email, provider).value.shouldNotify
  {
    assert Lower("normal") == "normal";
    assert !Contains("normal", "marketing");
    assert !Contains("normal", "important");
    assert !Contains("normal", "verification");
  }

  /** The mapping ignores letter case: an answer and its lowercase give the
      same category. */
  lemma CategoryOfIgnoresCase(answer: string)
    ensures CategoryOf(Lower(answer)) == CategoryOf(answer)
  {
    LowerIdempotent(answer);
  }

  /** An answer naming two categories gets the one checked first: marketing
      wins over important, whatever the letter case. */
  lemma MixedAnswerIsMarketing()
    ensures CategoryOf("This looks like IMPORTANT marketing material") == Marketing
  {
    var m := "This looks like IMPORTANT marketing material";
    var l := Lower(m);
    assert m[26..35] == "marketing";
    forall j | 26 <= j < 35 ensures l[j] == m[j] {
      assert m[j] == m[26..35][j - 26];
    }
    assert l[26..35] == "marketing";
    assert OccursAt(l, "marketing", 26);
  }

  /** An empty answer names no category and reads as Normal. */
  lemma EmptyAnswerIsNormal()
    ensures CategoryOf("") == Normal
  {
    assert Lower("") == "";
  }

  /** A capitalised keyword is found after lowercasing. */
  lemma ShoutedImportantIsImportant()
    ensures CategoryOf("IMPORTANT") == Important
  {
    var l := Lower("IMPORTANT");
    assert l == "important";
    AbsentCharBlocks(l, "marketing", 8);
    assert OccursAt(l, "important", 0);
  }

  /** A provider that answers with a category's own wire name, in any letter
      case, gets that category. */
  lemma CategoryOfOwnName(c: Category)
    ensures CategoryOf(CategoryName(c)) == c
  {
    var n := CategoryName(c);
    assert Lower(n) == n;
    match c
    case Marketing => assert OccursAt(n, "marketing", 0);
    case Important =>
      AbsentCharBlocks(n, "marketing", 3);
      assert OccursAt(n, "important", 0);
    case Verification =>
      AbsentCharBlocks(n, "marketing", 0);
      AbsentCharBlocks(n, "important", 2);
      assert OccursAt(n, "verification", 0);
    case Normal =>
      AbsentCharBlocks(n, "marketing", 3);
      AbsentCharBlocks(n, "important", 2);
      AbsentCharBlocks(n, "verification", 0);
  }

  // ---------------------------------------------------------------------------
  // The status code is never inspected

  /** As written: a 401 reply whose JSON lacks the answer field (an error
      object) is read as the answer "normal", so a rejected key classifies
      every message as Normal instead of failing. */
  lemma RejectedKeyReadsAsNormal(message: string)
    ensures AnswerOf(Response(401, Json(None))) == Ok("normal")
    ensures AnswerOf(Response(401, Json(Some(message)))) == AnswerOf(Response(200, Json(Some(message))))
    ensures CategoryOf("normal") == Normal
  {
    CategoryOfOwnName(Normal);
  }

  /** The reply read with the status checked first: only a 2xx reply yields an
      answer. */
  function CheckedAnswerOf(reply: Reply): (r: Result<string>)
    ensures r.Ok? ==> reply.Response? && 200 <= reply.status < 300
    ensures reply.Response? && 200 <= reply.status < 300 ==> r == AnswerOf(reply)
    ensures reply.Response? && !(200 <= reply.status < 300) ==> r.Err?
  {
    match reply
    case Response(status, _) =>
      if 200 <= status < 300 then AnswerOf(reply) else Err("provider returned an error status")
    case TransportFailure(_) => AnswerOf(reply)
  }

  // ---------------------------------------------------------------------------
  // The preview slice can panic

  /** 499 ASCII letters followed by an `e` with acute accent: 501 bytes, and
      byte 500 falls inside the last character. */
  function SplitAccentBody(): string
  {
    seq(499, _ => 'a') + ['\U{E9}']
  }

  /** As written: `&body[..500]` is not defined on this body, so
      `classify_with_ai` panics on it. */
  lemma PreviewPanicsOnSplitCharacter()
    ensures !PreviewDefined(SplitAccentBody())
  {
    var s := SplitAccentBody();
    var a := seq(499, _ => 'a');
    assert s == a + ['\U{E9}'];
    Utf8LenAtLeastLength(a);
    assert Utf8Len(['\U{E9}']) == 2;
    Utf8LenAppend(a, ['\U{E9}']);
    if IsCharBoundary(s, PreviewBytes) {
      var k :| 0 <= k <= |s| && Utf8Len(s[..k]) == PreviewBytes;
      assert s[..499] == a;
      assert s[..500] == s;
      if k < 499 { PrefixBytesIncrease(s, k, 499); }
      assert false;
    }
    SliceOkIffCharBoundary(s, PreviewBytes);
  }

  /** The preview cut back to the last character boundary at or before byte
      500: always defined, never longer than 500 bytes, as long as possible,
      and equal to the as-written preview wherever that one is defined. */
  function SafePreview(body: string): (p: string)
    ensures |p| <= |body| && p == body[..|p|]
    ensures Utf8Len(p) <= PreviewBytes
    ensures |p| < |body| ==> PreviewBytes < Utf8Len(p) + Utf8Width(body[|p|])
    ensures PreviewDefined(body) ==> p == Preview(body)
  {
    PrefixWithinWhole(body, PreviewBytes);
    PrefixWithin(body, PreviewBytes)
  }
}
