# AI multi-tool chatbot: request and view handlers

This project models the decision logic of a chat application made of an
Express server and two browser scripts, and proves properties of it in Dafny.

- **`/chat` on the server** (`server.js`). A missing or empty prompt is
  rejected with 400. The prompt is lower-cased. If it contains one of seven
  fixed self-introduction phrases, the server replies with a fixed
  introduction and does not call the upstream model. Otherwise it posts the
  prompt, as typed, to the language-model API and relays one of three
  things: the upstream error with its status, the first candidate's text,
  or a 500 for anything thrown.
- **The chat widget** (`chat-script.js`). It holds the composer text, five
  disabled flags, a loading indicator, an attachment with its preview, a
  list of message bubbles and a tab bar. `handleChat` runs in four steps:
  the guard, the pre-send updates, one bubble for the server's answer, and
  the `finally` block.
- **The landing page** (`script.js`). This covers section visibility for
  "get started", the switch between the sign-in and sign-up forms, and the
  two form submissions. Their errors go to a banner.

Every network call is replaced by a parameter holding its outcome: it
throws, or it answers with a status and a body. Everything the handlers
read from the DOM becomes a field of a class or a method parameter.

Modules:

- `Js`: JavaScript behaviour the handlers depend on:
  - `undefined`, modelled as `Option`;
  - string truthiness and `||`;
  - `Response.ok`;
  - the decimal text of a number in a template literal.
- `ChatServer`: the server route, with
  - pure decision functions (`RoutePrompt`, `Classify`, `Respond`);
  - a step-by-step handler `PostChat` that writes an Express-style response object.
- `ChatClient`: the widget class `ChatWidget`, with the pure text functions it uses (`trim` and the newline-to-`<br>` rendering).
- `Landing`: the class `LandingPage` and the pure result of a form submission.
- `EndToEnd`: what the widget shows for each kind of reply the server sends.

The widget reads `data.error`, `data.type` and `data.data`. The server's
success reply is `{ response }` (`server.js:67`). Both sides are modelled as
written. `EndToEnd.SuccessShowsEmptyBubble` proves the consequence: every
successful reply of this server, the fixed introduction included, appears
in the widget as an empty bot bubble.

The widget puts "Error: " before each error message and "." after it
(chat-script.js:170). The server's own error texts "An internal server error
occurred." and "Failed to get response from Gemini API." already end in a
period, so the widget shows them with two. `EndToEnd.InternalErrorShown` and
`EndToEnd.UpstreamFailureShown` state the texts exactly as built.

## Model

| member | source | states |
|---|---|---|
| `Js.Or` | server.js:62 | `a || fallback` is `a` when it is a non-empty string and `fallback` otherwise; it is empty only when both are |
| `Js.Interpolate` | chat-script.js:122 | `${a}` is the string itself when present and "undefined" when absent |
| `Js.OkExcludesErrorCodes` | chat-script.js:154-159 | `response.ok` never holds for 401, so testing 401 first loses no ok answer; the server's own error statuses 400 and 500 are not ok, and 200 is |
| `Js.NatToString` | chat-script.js:161 | a status number in a template literal becomes at least one decimal digit, with no leading zero |
| `Js.DecimalRoundTrip` | chat-script.js:161 | the decimal text of a status code reads back as exactly that code |
| `ChatServer.Lower` | server.js:26 | `toLowerCase` keeps the length and folds each character on its own (ASCII letters only) |
| `ChatServer.LowerIdempotent` | server.js:26 | folding an already folded prompt changes nothing |
| `ChatServer.LowerAppend` | server.js:26 | folding distributes over concatenation |
| `ChatServer.TriggersAreLowercase` | server.js:27-35 | every intro trigger is already lower case, so comparing it with the folded prompt ignores letter case |
| `ChatServer.IncludesIff` | server.js:37 | the `includes` search succeeds exactly when the trigger occurs at some index of the prompt |
| `ChatServer.IntroQuestionIff` | server.js:37 | the `some`/`includes` check holds exactly when some trigger occurs at some index of the folded prompt |
| `ChatServer.RoutePrompt` | server.js:20-56 | the prompt is rejected exactly when it is missing or empty; a non-empty prompt gets the introduction exactly when a trigger occurs in its folded text, and is forwarded exactly when none does; a forwarded prompt is the original, unfolded text |
| `ChatServer.NoTriggerForwarded` | server.js:37-56 | a non-empty prompt in which no trigger occurs, in any letter case, is forwarded as typed and the upstream request for it is sent |
| `ChatServer.ErrorMessage` | server.js:62 | `data?.error?.message` is present exactly when the body is an object with an `error` that has a `message`, and then it is that message |
| `ChatServer.UpstreamRequest` | server.js:53-55 | the upstream body holds exactly one content with exactly one part, whose text is the prompt |
| `ChatServer.CandidateText` | server.js:66 | the reply text is present exactly when every link of `candidates[0].content.parts[0].text` is present, and then it is that text |
| `ChatServer.Classify` | server.js:58-71 | a read non-ok upstream answer keeps its status, with the upstream `error.message` or else the fixed fallback; a throw, an unreadable body, or a null ok body gives 500 with the internal-error text; a `response` reply only comes from an ok answer and has status 200 |
| `ChatServer.Respond` | server.js:19-73 | every error reply the handler sends carries a non-empty message |
| `ChatServer.RequestSent` | server.js:37-56 | an upstream request is made exactly when the prompt is forwarded |
| `ChatServer.ServerResponse.Status` | server.js:63 | `res.status` sets the status and leaves the body alone |
| `ChatServer.ServerResponse.Json` | server.js:67 | `res.json` sets the body and leaves the status alone |
| `ChatServer.PostChat` | server.js:19-73 | the step-by-step handler, with its early returns, leaves on `res` exactly the status and body that `Respond` gives, and sends exactly the request that `RequestSent` gives |
| `ChatServer.TriggerAnywhere` | server.js:37-42 | a trigger in any letter case, with any text before or after it, gets status 200 and the fixed introduction, and no upstream request |
| `ChatServer.RouteIgnoresCase` | server.js:26-37 | two prompts equal up to ASCII case take the same route |
| `ChatServer.RouteSameOnFolded` | server.js:26-37 | a prompt and its lower-cased form are both intro questions or neither |
| `ChatServer.MissingPromptRejected` | server.js:20-24 | a missing or empty prompt gets 400 with "Prompt is required" and no upstream request |
| `ChatServer.ForwardedAsTyped` | server.js:53-55 | the request for a forwarded prompt is one content with one part holding the prompt as typed |
| `ChatServer.UpstreamErrorPassedOn` | server.js:60-63 | a non-ok upstream answer keeps its status; the message is the upstream `error.message` if truthy, else "Failed to get response from Gemini API." |
| `ChatServer.SuccessRelaysText` | server.js:66-67 | an ok upstream object is relayed with status 200 as `{ response: candidates[0].content.parts[0].text }` |
| `ChatServer.ThrowGives500` | server.js:69-71 | a thrown error gives 500 with "An internal server error occurred." |
| `ChatClient.TrimStart` | chat-script.js:133 | the result is the suffix of the input left after dropping leading JavaScript whitespace, and it starts with a non-whitespace character |
| `ChatClient.TrimEnd` | chat-script.js:133 | the result is the prefix of the input left after dropping trailing JavaScript whitespace, and it ends with a non-whitespace character |
| `ChatClient.TrimIsInfix` | chat-script.js:133 | `trim` returns a contiguous stretch of the input, cut only at whitespace, with no whitespace at either end |
| `ChatClient.Trim` | chat-script.js:133 | the trimmed text is no longer than the input and neither starts nor ends with JavaScript whitespace |
| `ChatClient.TrimEmptyIff` | chat-script.js:133 | the trimmed input is empty exactly when the input is all whitespace |
| `ChatClient.NewlinesToBr` | chat-script.js:112 | the rendered text contains no line break |
| `ChatClient.BrRoundTrip` | chat-script.js:112 | turning each `<br>` back into a line break recovers the message, if the message had no `<br>` of its own |
| `ChatClient.NoNewlineUnchanged` | chat-script.js:112 | a message without line breaks is rendered unchanged |
| `ChatClient.NoRenderedTagStart` | chat-script.js:112 | the rendered text starts with "br>" only when the message does |
| `ChatClient.MessageBubble` | chat-script.js:109-112 | the bubble is right-aligned exactly when the sender is `'user'`; a missing or empty message renders as empty text; the text has no line breaks |
| `ChatClient.ReplyBubble` | chat-script.js:154-170 | the widget adds exactly one bubble for an outcome, from the bot and left-aligned; an image bubble only comes from an ok answer with no error and `type` "image" |
| `ChatClient.NonOkMessage` | chat-script.js:160-161 | the thrown message is never empty; an unreadable body gives "Server returned an unreadable error."; a body with an error text gives that text |
| `ChatClient.CaughtErrorShown` | chat-script.js:159-170 | a rejected fetch and an unreadable ok body show "Error: " + the error's message + "."; an unreadable non-ok body, other than 401, shows "Error: Server returned an unreadable error.." |
| `ChatClient.UnauthorizedShowsExpiry` | chat-script.js:154-157 | a 401 shows exactly the session-expired message, whatever the body |
| `ChatClient.NonOkNamesStatus` | chat-script.js:159-170 | a non-ok answer without an error field shows "Error: Server responded with status: N.", where N reads back as the status |
| `ChatClient.NonOkShowsServerError` | chat-script.js:159-170 | a non-ok answer with an error text shows "Error: " + that text + "." |
| `ChatClient.OkAnswerChoice` | chat-script.js:164-167 | for an ok answer: an `error` field shows "Error: " + the error; otherwise `type` "image" gives an image bubble; anything else gives a bot text bubble of `data` |
| `ChatClient.TabContentId` | chat-script.js:46-48 | the id a tab shows is its `data-tab` value followed by "-tab", and "null-tab" when the attribute is missing |
| `ChatClient.OnlyOneSet` | chat-script.js:44-45 | when exactly one tab carries 'active', the active count is one |
| `ChatClient.NoneSet` | chat-script.js:44 | after every tab loses 'active', none is active |
| `ChatClient.ChatWidget.constructor` | chat-script.js:30 | the widget starts with nothing attached and with the page's tabs and contents; the other starting values stand for the page's markup |
| `ChatClient.ChatWidget.DisableInputs` | chat-script.js:53-59 | all five inputs become disabled and nothing else changes |
| `ChatClient.ChatWidget.EnableInputs` | chat-script.js:61-67 | all five inputs become enabled and nothing else changes |
| `ChatClient.ChatWidget.ClearAttachment` | chat-script.js:88-92 | the attachment and the file selection are emptied and the preview is hidden; nothing else changes |
| `ChatClient.ChatWidget.OnFileChange` | chat-script.js:94-103 | with no file chosen the attachment is cleared; otherwise the first file is attached and its name is shown in the preview |
| `ChatClient.ChatWidget.AddMessage` | chat-script.js:109-115 | exactly the message's bubble is appended to the window |
| `ChatClient.ChatWidget.AddImage` | chat-script.js:117-130 | exactly one image bubble with the given data is appended |
| `ChatClient.ChatWidget.ClickTab` | chat-script.js:41-51 | after a click exactly the clicked tab is active, and a content is visible exactly when its id is the tab's target plus "-tab" |
| `ChatClient.ChatWidget.BeginSend` | chat-script.js:132-139 | with blank input and no file nothing changes and nothing is sent; otherwise all inputs are disabled, the composer is cleared, the loading indicator is shown, and a user bubble is added only for non-blank text |
| `ChatClient.ChatWidget.Deliver` | chat-script.js:147-175 | one reply bubble is appended; then, on every path including the 401 return, loading is hidden, the attachment is cleared and all inputs are enabled |
| `ChatClient.ChatWidget.HandleChat` | chat-script.js:132-176 | the whole send: nothing happens at the guard; otherwise the trimmed prompt and the file are sent, the user bubble (if any) and the one reply bubble are appended, and the widget ends idle with nothing attached |
| `ChatClient.ChatWidget.KeyPress` | chat-script.js:179 | only Enter sends; a key other than Enter changes nothing |
| `Landing.AuthResult` | script.js:108-115 | a submission redirects to the chat page exactly when the reply is read and ok; a read non-ok reply shows `data.message` or the fallback; a rejected fetch or an unreadable body shows the caught error's own message |
| `Landing.SignupResult` | script.js:96-115 | different passwords give "Passwords do not match."; matching ones give the reply's result with "Signup failed." as the fallback |
| `Landing.SignupRequestOf` | script.js:96-107 | a sign-up request is sent exactly when the passwords match, and it carries the form's first name, last name, email and password but not the confirmation |
| `Landing.SignupReplyMessage` | script.js:108-115 | a non-ok sign-up reply shows `data.message`, falling back to "Signup failed."; an ok reply redirects to /chat.html |
| `Landing.LoginReplyMessage` | script.js:134-141 | a non-ok login reply shows `data.message`, falling back to "Login failed."; an ok reply redirects to /chat.html |
| `Landing.LandingPage.GetStarted` | script.js:11-35 | a logged-in user goes to /chat.html; otherwise, and when the check throws, welcome and features are hidden and login is shown |
| `Landing.LandingPage.ToSignup` | script.js:53-61 | sign-in is hidden, sign-up is shown and the toggle lines swap; nothing else changes |
| `Landing.LandingPage.ToSignin` | script.js:63-71 | the mirror image: sign-up is hidden, sign-in is shown and the toggle lines swap back |
| `Landing.LandingPage.ShowError` | script.js:76-79 | the banner shows the given text |
| `Landing.LandingPage.HideError` | script.js:81-83 | the banner is hidden and its text is kept |
| `Landing.LandingPage.Conclude` | script.js:112-114 | a success assigns the redirect URL and leaves the banner hidden; a failure shows its message in the banner |
| `Landing.LandingPage.SubmitSignup` | script.js:86-117 | the banner is hidden first; different passwords show the mismatch message and send nothing; otherwise the request is sent and the page redirects or shows the chosen message |
| `Landing.LandingPage.SubmitLogin` | script.js:120-143 | the banner is hidden first; the request is always sent; the page redirects or shows the chosen message |
| `Landing.ToggleRoundTrip` | script.js:53-71 | switching to sign-up and back restores the forms and toggle lines and changes nothing else |
| `EndToEnd.AsSeenByWidget` | chat-script.js:164-167 | the widget finds no `type` or `data` in a server reply, and finds `error` exactly in the server's error replies |
| `EndToEnd.SuccessShowsEmptyBubble` | chat-script.js:164-167 | every successful server reply (`{ response }`, server.js:67), the introduction included, is shown as an empty bot bubble |
| `EndToEnd.RejectionShown` | server.js:22-24 | a missing prompt is shown in the widget as "Error: Prompt is required." |
| `EndToEnd.UpstreamUnauthorizedLooksExpired` | server.js:60-63 | an upstream 401, passed on by the server, makes the widget report an expired session |
| `EndToEnd.UpstreamFailureShown` | server.js:60-63 | a non-ok upstream answer, other than 401, with no error message is shown as "Error: Failed to get response from Gemini API..", with two periods |
| `EndToEnd.InternalErrorShown` | server.js:69-71 | a server-side throw is shown as "Error: An internal server error occurred..", with two periods |

## Left out

- Network and process I/O are not modelled: `fetch`, the Express app with its CORS and JSON middleware, `dotenv`, the API-key check with `process.exit`, and `app.listen` (server.js:1-17, 75-77). Every reply is a parameter.
- The DOM is not modelled: element lookup, `classList` and `innerHTML`, `lucide.createIcons`, `scrollTop`, the emoji picker and its outside-click handler, and the chat-window toggle (chat-script.js:3-13, 32-39, 69-86, 113-114, 129). Only the flags and sequences the handlers change are kept.
- Rewriting the logout and Google links (chat-script.js:6-9, script.js:38-42) is not modelled; it is a one-off DOM assignment.
- `speechSynthesis.cancel` on a tab click, and the two-second redirect timer after a 401 (chat-script.js:43, 156), are not modelled. They are browser APIs and timers; the 401 bubble is modelled.
- Async interleaving is not modelled. Each handler runs as one sequential step, so a second send while a request is pending is outside the model.
- Case folding covers ASCII only; full Unicode `toLowerCase` is not modelled.
- A `prompt` that is not a string (a number, an object) is not modelled: the model's prompt is a string or missing.
- On the client, a JSON body that is `null`, and `error`, `message` or `data` fields that are not strings, are not modelled: reading a field of `null` throws in the source.
- On the server, an upstream body that is a JSON number or string behaves like an object with neither field: `Object(None, None)`.
- On the server, `data.error.message` and `parts[0].text` are relayed whatever their JSON type (server.js:62, 66). The model takes each as a string or missing, so a number, object or `false` there is not modelled.
- Browser-generated error messages are not modelled. Fetch rejections and JSON parse errors carry whatever text the browser gives, taken as a parameter.
- Reading the form fields and calling `preventDefault` are not modelled; the field values are parameters of `SubmitSignup` and `SubmitLogin`.
- The initial markup of the two pages is not part of this model. `ChatClient.ChatWidget.constructor` and `Landing.LandingPage.constructor` start from an idle state with the sign-in form selected.
- `ChatClient.ChatWidget.KeyPress`: the contract repeats only part of what `HandleChat` states, because the rest follows from `HandleChat`'s own contract.
- `data.loggedIn` is modelled as a boolean; other truthy or falsy values it might hold are not told apart.
- `console.error` logging (server.js:61, 70; script.js:29) is not modelled.
