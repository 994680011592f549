/** What the chat widget shows for the replies the `/chat` handler of the
    Express server sends. The server's success reply is `{ response }`,
    while the widget reads `error`, `type` and `data`: both sides are
    modelled as written, and these lemmas state what follows. */
module EndToEnd {
  import opened Js
  import ChatServer
  import ChatClient

  /** The JSON of a server reply as the widget's `response.json()` reads it:
      `{ response }` has none of the fields it looks at. */
  function AsSeenByWidget(r: ChatServer.Reply): (o: ChatClient.ChatOutcome)
    ensures o.Answered? && o.status == r.status && o.body.Parsed?
    ensures o.body.kind == None && o.body.data == None
    ensures o.body.error == (if r.body.ErrorField? then Some(r.body.error) else None)
  {
    match r.body
    case ResponseField(_) => ChatClient.Answered(r.status, ChatClient.Parsed(None, None, None))
    case ErrorField(e) => ChatClient.Answered(r.status, ChatClient.Parsed(Some(e), None, None))
  }

  /** Every successful server reply, the introduction included, shows up in
      the widget as an empty bot bubble: the reply text is never displayed. */
  lemma SuccessShowsEmptyBubble(prompt: Option<string>, u: ChatServer.Upstream)
    requires ChatServer.Respond(prompt, u).body.ResponseField?
    ensures ChatClient.ReplyBubble(AsSeenByWidget(ChatServer.Respond(prompt, u)))
            == ChatClient.TextBubble(ChatClient.Start, "bot", "")
  {
  }

  /** A rejected prompt is shown as "Error: Prompt is required.". */
  lemma RejectionShown(u: ChatServer.Upstream)
    ensures ChatClient.ReplyBubble(AsSeenByWidget(ChatServer.Respond(None, u)))
            == ChatClient.BotText("Error: " + ChatServer.PromptRequired + ".")
  {
  }

  /** An upstream 401, which the server passes on as it is, makes the widget
      report an expired session. */
  lemma UpstreamUnauthorizedLooksExpired(p: string, body: ChatServer.UpstreamBody)
    requires ChatServer.RoutePrompt(Some(p)).Forwarded? && !body.Unreadable?
    ensures ChatClient.ReplyBubble(AsSeenByWidget(ChatServer.Respond(Some(p), ChatServer.Answered(401, body))))
            == ChatClient.BotText(ChatClient.SessionExpired)
  {
  }

  /** A non-ok upstream answer without an error message is shown with the
      server's fallback text, which already ends in a period: the widget
      adds a second one. */
  lemma UpstreamFailureShown(p: string, status: nat, body: ChatServer.UpstreamBody)
    requires ChatServer.RoutePrompt(Some(p)).Forwarded?
    requires !IsOk(status) && status != 401 && !body.Unreadable? && !Truthy(ChatServer.ErrorMessage(body))
    ensures ChatClient.ReplyBubble(AsSeenByWidget(ChatServer.Respond(Some(p), ChatServer.Answered(status, body))))
            == ChatClient.BotText("Error: " + ChatServer.UpstreamFailed + ".")
    ensures ChatServer.UpstreamFailed[|ChatServer.UpstreamFailed| - 1] == '.'
  {
  }

  /** An upstream failure the server turns into a 500 is shown with the
      server's fixed internal-error text. */
  lemma InternalErrorShown(p: string)
    requires ChatServer.RoutePrompt(Some(p)).Forwarded?
    ensures ChatClient.ReplyBubble(AsSeenByWidget(ChatServer.Respond(Some(p), ChatServer.Threw)))
            == ChatClient.BotText("Error: " + ChatServer.InternalError + ".")
  {
  }
}
