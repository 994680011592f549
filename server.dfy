/** The `/chat` endpoint of the Express server: prompt validation, the
    self-introduction shortcut, the request forwarded to the language-model
    API, and the choice between its answer and an error reply. The upstream
    call is not made here: its outcome is a parameter of the handler. */
module ChatServer {
  import opened Js

  // ---------------------------------------------------------------------
  // ASCII case folding and substring search (`toLowerCase`, `includes`)
  // ---------------------------------------------------------------------

  function LowerChar(c: char): char
  {
    if 'A' <= c <= 'Z' then (c as int + 32) as char else c
  }

  /** `toLowerCase`, restricted to the ASCII letters. */
  function Lower(s: string): (r: string)
    ensures |r| == |s|
    ensures forall k :: 0 <= k < |s| ==> r[k] == LowerChar(s[k])
  {
    if s == [] then [] else [LowerChar(s[0])] + Lower(s[1..])
  }

  predicate StartsWith(s: string, t: string)
  {
    |t| <= |s| && s[..|t|] == t
  }

  /** `s.includes(t)`, searching from each position in turn. */
  predicate Includes(s: string, t: string)
    decreases |s|
  {
    StartsWith(s, t) || (s != [] && Includes(s[1..], t))
  }

  /** `t` sits in `s` starting at index `i`. */
  predicate OccursAt(s: string, t: string, i: int)
  {
    0 <= i && i + |t| <= |s| && s[i..i + |t|] == t
  }

  // ---------------------------------------------------------------------
  // Constants of the handler
  // ---------------------------------------------------------------------

  const IntroTriggers: seq<string> := [
    "introduce yourself",
    "who are you",
    "what is your name",
    "what's your name",
    "who made you",
    "who developed you",
    "who created you"
  ]

  const IntroReply := "my name is love and iam developed by pv hareesh"
  const PromptRequired := "Prompt is required"
  const UpstreamFailed := "Failed to get response from Gemini API."
  const InternalError := "An internal server error occurred."

  /** `introTriggers.some(trigger => lowered.includes(trigger))`. */
  predicate IsIntroQuestion(lowered: string)
  {
    exists k :: 0 <= k < |IntroTriggers| && Includes(lowered, IntroTriggers[k])
  }

  /** Some trigger occurs at some index of `s`: the reference reading of the
      intro check, with no search procedure in it. */
  ghost predicate TriggerOccurs(s: string)
  {
    exists k, i :: 0 <= k < |IntroTriggers| && OccursAt(s, IntroTriggers[k], i)
  }

  // ---------------------------------------------------------------------
  // Records exchanged with the client and with the upstream API
  // ---------------------------------------------------------------------

  /** The JSON object the server sends back: `{ response }` or `{ error }`. */
  datatype ReplyBody = ResponseField(response: Option<string>) | ErrorField(error: string)
  datatype Reply = Reply(status: nat, body: ReplyBody)

  /** The generateContent request body: `{ contents: [{ parts: [{ text }] }] }`. */
  datatype RequestPart = RequestPart(text: string)
  datatype RequestContent = RequestContent(parts: seq<RequestPart>)
  datatype GenerateRequest = GenerateRequest(contents: seq<RequestContent>)

  /** The fields of the upstream JSON answer that the handler reads. */
  datatype Part = Part(text: Option<string>)
  datatype Content = Content(parts: Option<seq<Part>>)
  datatype Candidate = Candidate(content: Option<Content>)
  datatype ApiError = ApiError(message: Option<string>)
  datatype UpstreamBody =
    | Unreadable                // `response.json()` rejects
    | NullBody                  // the body is the JSON literal null
    | Object(error: Option<ApiError>, candidates: Option<seq<Candidate>>)

  /** What the upstream call gives: it throws, or a status and a body. */
  datatype Upstream = Threw | Answered(status: nat, body: UpstreamBody)

  // ---------------------------------------------------------------------
  // The decisions
  // ---------------------------------------------------------------------

  datatype Route = Rejected | Introduced | Forwarded(prompt: string)

  /** The validation and the intro check that run before any upstream call. */
  function RoutePrompt(prompt: Option<string>): (r: Route)
    ensures r.Rejected? <==> !Truthy(prompt)
    ensures r.Introduced? <==> Truthy(prompt) && TriggerOccurs(Lower(prompt.value))
    ensures r.Forwarded? <==> Truthy(prompt) && !TriggerOccurs(Lower(prompt.value))
    ensures r.Forwarded? ==> r.prompt == prompt.value
  {
    if !Truthy(prompt) then Rejected
    else
      IntroQuestionIff(Lower(prompt.value));
      if IsIntroQuestion(Lower(prompt.value)) then Introduced
      else Forwarded(prompt.value)
  }

  /** The body posted upstream for a forwarded prompt. */
  function UpstreamRequest(prompt: string): (req: GenerateRequest)
    ensures |req.contents| == 1 && |req.contents[0].parts| == 1
    ensures req.contents[0].parts[0].text == prompt
  {
    GenerateRequest([RequestContent([RequestPart(prompt)])])
  }

  /** `candidates?.[0]?.content?.parts?.[0]?.text`. */
  function CandidateText(candidates: Option<seq<Candidate>>): (t: Option<string>)
    ensures t.Some? <==>
      && candidates.Some? && |candidates.value| > 0
      && candidates.value[0].content.Some?
      && candidates.value[0].content.value.parts.Some?
      && |candidates.value[0].content.value.parts.value| > 0
      && candidates.value[0].content.value.parts.value[0].text.Some?
    ensures t.Some? ==> t == candidates.value[0].content.value.parts.value[0].text
  {
    if candidates.None? || |candidates.value| == 0 then None
    else
      var content := candidates.value[0].content;
      if content.None? || content.value.parts.None? || |content.value.parts.value| == 0 then None
      else content.value.parts.value[0].text
  }

  /** `data?.error?.message`. */
  function ErrorMessage(body: UpstreamBody): (m: Option<string>)
    ensures m.Some? <==> body.Object? && body.error.Some? && body.error.value.message.Some?
    ensures m.Some? ==> m == body.error.value.message
  {
    if body.Object? && body.error.Some? then body.error.value.message else None
  }

  /** The reply chosen from the upstream outcome, once the prompt is forwarded. */
  function Classify(u: Upstream): (r: Reply)
    ensures r.body.ResponseField? ==> u.Answered? && IsOk(u.status) && r.status == 200
    ensures u.Answered? && !IsOk(u.status) && !u.body.Unreadable? ==>
              r == Reply(u.status, ErrorField(Or(ErrorMessage(u.body), UpstreamFailed)))
    ensures u.Threw? || (u.Answered? && (u.body.Unreadable? || (IsOk(u.status) && u.body.NullBody?))) ==>
              r == Reply(500, ErrorField(InternalError))
  {
    match u
    case Threw => Reply(500, ErrorField(InternalError))
    case Answered(status, body) =>
      if body.Unreadable? then Reply(500, ErrorField(InternalError))
      else if !IsOk(status) then Reply(status, ErrorField(Or(ErrorMessage(body), UpstreamFailed)))
      else if body.NullBody? then Reply(500, ErrorField(InternalError))
      else Reply(200, ResponseField(CandidateText(body.candidates)))
  }

  /** The reply the handler sends for a prompt, given the upstream outcome. */
  function Respond(prompt: Option<string>, u: Upstream): (r: Reply)
    ensures r.body.ErrorField? ==> r.body.error != ""
  {
    match RoutePrompt(prompt)
    case Rejected => Reply(400, ErrorField(PromptRequired))
    case Introduced => Reply(200, ResponseField(Some(IntroReply)))
    case Forwarded(p) => Classify(u)
  }

  /** The upstream request the handler makes, if any. */
  function RequestSent(prompt: Option<string>): (req: Option<GenerateRequest>)
    ensures req.Some? <==> RoutePrompt(prompt).Forwarded?
  {
    match RoutePrompt(prompt)
    case Forwarded(p) => Some(UpstreamRequest(p))
    case _ => None
  }

  // ---------------------------------------------------------------------
  // The handler, step by step, over an Express-style response object
  // ---------------------------------------------------------------------

  /** The fields of Express's `res` that the handler sets. */
  class ServerResponse {
    var statusCode: nat
    var body: Option<ReplyBody>

    /** A response as Express hands it to a route: status 200, nothing sent. */
    constructor ()
      ensures statusCode == 200 && body == None
    {
      statusCode := 200;
      body := None;
    }

    /** `res.status(code)`. */
    method Status(code: nat)
      modifies this
      ensures statusCode == code && body == old(body)
    {
      statusCode := code;
    }

    /** `res.json(b)`. */
    method Json(b: ReplyBody)
      modifies this
      ensures body == Some(b) && statusCode == old(statusCode)
    {
      body := Some(b);
    }
  }

  /** The `/chat` route: validation, the intro shortcut, then the upstream call
      inside a try block, each branch ending the response once. */
  method PostChat(prompt: Option<string>, upstream: Upstream, res: ServerResponse)
    returns (sent: Option<GenerateRequest>)
    requires res.statusCode == 200 && res.body == None
    modifies res
    ensures res.body == Some(Respond(prompt, upstream).body)
    ensures res.statusCode == Respond(prompt, upstream).status
    ensures sent == RequestSent(prompt)
  {
    if !Truthy(prompt) {
      res.Status(400);
      res.Json(ErrorField(PromptRequired));
      return None;
    }
    var lowered := Lower(prompt.value);
    if IsIntroQuestion(lowered) {
      res.Json(ResponseField(Some(IntroReply)));
      return None;
    }
    sent := Some(UpstreamRequest(prompt.value));
    match upstream {
      case Threw =>
        res.Status(500);
        res.Json(ErrorField(InternalError));
      case Answered(status, body) =>
        if body.Unreadable? {
          res.Status(500);
          res.Json(ErrorField(InternalError));
        } else if !IsOk(status) {
          res.Status(status);
          res.Json(ErrorField(Or(ErrorMessage(body), UpstreamFailed)));
        } else if body.NullBody? {
          res.Status(500);
          res.Json(ErrorField(InternalError));
        } else {
          res.Json(ResponseField(CandidateText(body.candidates)));
        }
    }
  }

  // ---------------------------------------------------------------------
  // Properties
  // ---------------------------------------------------------------------

  /** Folding twice is folding once. */
  lemma {:induction false} LowerIdempotent(s: string)
    ensures Lower(Lower(s)) == Lower(s)
  {
    if s != [] {
      LowerIdempotent(s[1..]);
      assert Lower(s)[1..] == Lower(s[1..]);
    }
  }

  /** Folding works character by character, so it distributes over `+`. */
  lemma {:induction false} LowerAppend(a: string, b: string)
    ensures Lower(a + b) == Lower(a) + Lower(b)
  {
    if a != [] {
      assert (a + b)[1..] == a[1..] + b;
      LowerAppend(a[1..], b);
    }
  }

  /** A string without capital letters is its own folding. */
  lemma {:induction false} LowerWithoutCapitals(t: string)
    requires forall j :: 0 <= j < |t| ==> !('A' <= t[j] <= 'Z')
    ensures Lower(t) == t
  {
    if t != [] {
      LowerWithoutCapitals(t[1..]);
    }
  }

  /** Every trigger is already lower case, so comparing against the folded
      prompt is a case-insensitive match. */
  lemma TriggersAreLowercase()
    ensures forall k :: 0 <= k < |IntroTriggers| ==> Lower(IntroTriggers[k]) == IntroTriggers[k]
  {
    forall k | 0 <= k < |IntroTriggers|
      ensures Lower(IntroTriggers[k]) == IntroTriggers[k]
    {
      var t := IntroTriggers[k];
      assert forall j :: 0 <= j < |t| ==> !('A' <= t[j] <= 'Z');
      LowerWithoutCapitals(t);
    }
  }

  /** The recursive search finds `t` exactly when it occurs at some index. */
  lemma {:induction false} IncludesIff(s: string, t: string)
    ensures Includes(s, t) <==> exists i :: OccursAt(s, t, i)
    decreases |s|
  {
    if StartsWith(s, t) {
      assert OccursAt(s, t, 0);
    } else if s == [] {
      assert forall i :: !OccursAt(s, t, i);
    } else {
      IncludesIff(s[1..], t);
      if exists i :: OccursAt(s[1..], t, i) {
        var i :| OccursAt(s[1..], t, i);
        assert s[1..][i..i + |t|] == s[i + 1..i + 1 + |t|];
        assert OccursAt(s, t, i + 1);
      }
      if exists i :: OccursAt(s, t, i) {
        var i :| OccursAt(s, t, i);
        assert i != 0;
        assert s[1..][i - 1..i - 1 + |t|] == s[i..i + |t|];
        assert OccursAt(s[1..], t, i - 1);
      }
    }
  }

  /** The `some`/`includes` search finds a trigger exactly when one occurs
      at some index. */
  lemma IntroQuestionIff(lowered: string)
    ensures IsIntroQuestion(lowered) <==> TriggerOccurs(lowered)
  {
    forall k | 0 <= k < |IntroTriggers|
      ensures Includes(lowered, IntroTriggers[k]) <==> exists i :: OccursAt(lowered, IntroTriggers[k], i)
    {
      IncludesIff(lowered, IntroTriggers[k]);
    }
  }

  /** A non-empty prompt in which no trigger occurs, in any letter case, is
      sent upstream as typed. */
  lemma NoTriggerForwarded(p: string)
    requires p != ""
    requires forall k, i :: 0 <= k < |IntroTriggers| ==> !OccursAt(Lower(p), IntroTriggers[k], i)
    ensures RoutePrompt(Some(p)) == Forwarded(p)
    ensures RequestSent(Some(p)) == Some(UpstreamRequest(p))
  {
  }

  /** A trigger occurring in any letter case, anywhere in the prompt, gets
      the fixed introduction and no upstream request. */
  lemma TriggerAnywhere(before: string, trigger: string, after: string, k: nat, u: Upstream)
    requires k < |IntroTriggers| && Lower(trigger) == IntroTriggers[k]
    ensures Respond(Some(before + trigger + after), u) == Reply(200, ResponseField(Some(IntroReply)))
    ensures RequestSent(Some(before + trigger + after)) == None
  {
    var p := before + trigger + after;
    LowerAppend(before + trigger, after);
    LowerAppend(before, trigger);
    var lowered := Lower(p);
    assert lowered == Lower(before) + IntroTriggers[k] + Lower(after);
    assert OccursAt(lowered, IntroTriggers[k], |before|) by {
      assert lowered[|before|..|before| + |IntroTriggers[k]|] == IntroTriggers[k];
    }
    IncludesIff(lowered, IntroTriggers[k]);
    assert IsIntroQuestion(lowered);
    assert p != "" by { assert |IntroTriggers[k]| > 0; }
  }

  /** Prompts that differ only in ASCII letter case take the same route. */
  lemma RouteIgnoresCase(p: string, q: string)
    requires Lower(p) == Lower(q)
    ensures RoutePrompt(Some(p)).Introduced? == RoutePrompt(Some(q)).Introduced?
    ensures RoutePrompt(Some(p)).Rejected? == RoutePrompt(Some(q)).Rejected?
  {
  }

  /** The folded prompt is routed like the prompt itself. */
  lemma RouteSameOnFolded(p: string)
    ensures RoutePrompt(Some(Lower(p))).Introduced? == RoutePrompt(Some(p)).Introduced?
  {
    LowerIdempotent(p);
    RouteIgnoresCase(Lower(p), p);
  }

  /** A missing or empty prompt gets 400 and nothing is sent upstream. */
  lemma MissingPromptRejected(prompt: Option<string>, u: Upstream)
    requires prompt == None || prompt == Some("")
    ensures Respond(prompt, u) == Reply(400, ErrorField(PromptRequired))
    ensures RequestSent(prompt) == None
  {
  }

  /** A forwarded prompt goes upstream as typed, not folded, in one part of
      one content. */
  lemma ForwardedAsTyped(p: string)
    requires RoutePrompt(Some(p)).Forwarded?
    ensures RequestSent(Some(p)) == Some(GenerateRequest([RequestContent([RequestPart(p)])]))
  {
  }

  /** A non-ok upstream answer is passed on with its status and its message,
      or the fixed fallback when it has none. */
  lemma UpstreamErrorPassedOn(p: string, status: nat, body: UpstreamBody)
    requires RoutePrompt(Some(p)).Forwarded?
    requires !IsOk(status) && !body.Unreadable?
    ensures Respond(Some(p), Answered(status, body)).status == status
    ensures Truthy(ErrorMessage(body)) ==>
              Respond(Some(p), Answered(status, body)).body == ErrorField(ErrorMessage(body).value)
    ensures !Truthy(ErrorMessage(body)) ==>
              Respond(Some(p), Answered(status, body)).body == ErrorField(UpstreamFailed)
  {
  }

  /** An ok upstream answer is relayed as the first candidate's first part. */
  lemma SuccessRelaysText(p: string, status: nat, e: Option<ApiError>, c: Option<seq<Candidate>>)
    requires RoutePrompt(Some(p)).Forwarded? && IsOk(status)
    ensures Respond(Some(p), Answered(status, Object(e, c))) == Reply(200, ResponseField(CandidateText(c)))
  {
  }

  /** A thrown error inside the try block gives 500 with the fixed message. */
  lemma ThrowGives500(p: string)
    requires RoutePrompt(Some(p)).Forwarded?
    ensures Respond(Some(p), Threw) == Reply(500, ErrorField(InternalError))
  {
  }
}
