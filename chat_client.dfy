/** The chat widget of the browser front end: the composer's inputs and
    their disabled flags, the attachment, the message list, the tab bar,
    and `handleChat`, which sends the composed message and shows the reply.
    The fetch is not made here: its outcome is a parameter. */
module ChatClient {
  import opened Js

  // ---------------------------------------------------------------------
  // `String.prototype.trim`
  // ---------------------------------------------------------------------

  /** JavaScript's WhiteSpace and LineTerminator characters, which `trim` removes. */
  predicate IsJsWhitespace(c: char)
  {
    || c == '\t' || c == '\n' || c == '\U{B}' || c == '\U{C}' || c == '\r' || c == ' '
    || c == '\U{A0}' || c == '\U{1680}' || ('\U{2000}' <= c <= '\U{200A}')
    || c == '\U{2028}' || c == '\U{2029}' || c == '\U{202F}' || c == '\U{205F}'
    || c == '\U{3000}' || c == '\U{FEFF}'
  }

  predicate AllWhitespace(s: string)
  {
    forall k :: 0 <= k < |s| ==> IsJsWhitespace(s[k])
  }

  /** Drops the leading whitespace: what is left is a suffix of `s`. */
  function TrimStart(s: string): (r: string)
    ensures |r| <= |s| && r == s[|s| - |r|..]
    ensures AllWhitespace(s[..|s| - |r|])
    ensures r != [] ==> !IsJsWhitespace(r[0])
  {
    if s != [] && IsJsWhitespace(s[0]) then TrimStart(s[1..]) else s
  }

  /** Drops the trailing whitespace: what is left is a prefix of `s`. */
  function TrimEnd(s: string): (r: string)
    ensures |r| <= |s| && r == s[..|r|]
    ensures AllWhitespace(s[|r|..])
    ensures r != [] ==> !IsJsWhitespace(r[|r| - 1])
  {
    if s != [] && IsJsWhitespace(s[|s| - 1]) then TrimEnd(s[..|s| - 1]) else s
  }

  /** `trim`: no longer than the input, and neither end is whitespace. */
  function Trim(s: string): (r: string)
    ensures |r| <= |s|
    ensures r != [] ==> !IsJsWhitespace(r[0]) && !IsJsWhitespace(r[|r| - 1])
  {
    TrimEnd(TrimStart(s))
  }

  /** `trim` keeps a middle stretch of the text, cut exactly at whitespace. */
  lemma TrimIsInfix(s: string)
    ensures exists i, j :: 0 <= i <= j <= |s| && Trim(s) == s[i..j]
                           && AllWhitespace(s[..i]) && AllWhitespace(s[j..])
  {
    var t := TrimStart(s);
    var e := TrimEnd(t);
    var i := |s| - |t|;
    var j := i + |e|;
    SlicesOfSuffix(s, i, |e|);
    assert Trim(s) == s[i..j] && AllWhitespace(s[..i]) && AllWhitespace(s[j..]);
  }

  /** Cutting the suffix `s[i..]` at `n` is cutting `s` at `i + n`. */
  lemma SlicesOfSuffix(s: string, i: nat, n: nat)
    requires i + n <= |s|
    ensures s[i..][..n] == s[i..i + n] && s[i..][n..] == s[i + n..]
  {
  }

  /** The trimmed text is empty exactly when the text is all whitespace. */
  lemma TrimEmptyIff(s: string)
    ensures Trim(s) == "" <==> AllWhitespace(s)
  {
    var t := TrimStart(s);
    assert t != [] ==> t[0] == s[|s| - |t|];
    assert t[0..] == t;
    assert s[..|s|] == s;
  }

  // ---------------------------------------------------------------------
  // Message text: `(message || "").replace(/\n/g, '<br>')`
  // ---------------------------------------------------------------------

  const Br := "<br>"

  function NewlinesToBr(s: string): (r: string)
    ensures '\n' !in r
  {
    if s == [] then []
    else (if s[0] == '\n' then Br else [s[0]]) + NewlinesToBr(s[1..])
  }

  /** Reads rendered text back: each `<br>` becomes a line break again. */
  function BrToNewlines(h: string): string
  {
    if h == [] then []
    else if |h| >= 4 && h[..4] == Br then ['\n'] + BrToNewlines(h[4..])
    else [h[0]] + BrToNewlines(h[1..])
  }

  /** `s` has no literal `<br>` tag of its own. */
  predicate NoBrTag(s: string)
  {
    forall k {:trigger s[k..]} :: 0 <= k <= |s| - 4 ==> s[k..][..4] != Br
  }

  /** A character other than a line break is copied to the front. */
  lemma NewlinesToBrFront(t: string)
    requires t != [] && t[0] != '\n'
    ensures NewlinesToBr(t) == [t[0]] + NewlinesToBr(t[1..])
  {
  }

  /** The first rendered character: '<' for a line break, else the character. */
  lemma NewlinesToBrFirst(t: string)
    requires t != []
    ensures NewlinesToBr(t) != [] && NewlinesToBr(t)[0] == (if t[0] == '\n' then '<' else t[0])
  {
  }

  /** The rendered text starts with "br>" only if the text itself does. */
  lemma NoRenderedTagStart(t: string)
    ensures |NewlinesToBr(t)| >= 3 && NewlinesToBr(t)[..3] == "br>" ==> |t| >= 3 && t[..3] == "br>"
  {
    var r := NewlinesToBr(t);
    if |r| >= 3 && r[..3] == "br>" {
      assert t != [];
      NewlinesToBrFirst(t);
      NewlinesToBrFront(t);
      var t1 := t[1..];
      assert NewlinesToBr(t1) == r[1..];
      assert t1 != [];
      NewlinesToBrFirst(t1);
      NewlinesToBrFront(t1);
      var t2 := t1[1..];
      assert NewlinesToBr(t2) == r[2..];
      assert t2 != [];
      NewlinesToBrFirst(t2);
      assert t[..3] == [t[0], t1[0], t2[0]];
    }
  }

  /** Rendering loses nothing: reading the `<br>` tags back restores the
      message, as long as it had no `<br>` of its own. */
  lemma {:induction false} BrRoundTrip(s: string)
    requires NoBrTag(s)
    ensures BrToNewlines(NewlinesToBr(s)) == s
  {
    if s != [] {
      var t := s[1..];
      assert NoBrTag(t) by {
        forall k | 0 <= k <= |t| - 4 ensures t[k..][..4] != Br {
          assert t[k..] == s[k + 1..];
        }
      }
      BrRoundTrip(t);
      var r := NewlinesToBr(s);
      if s[0] == '\n' {
        assert r == Br + NewlinesToBr(t);
        assert r[4..] == NewlinesToBr(t);
      } else {
        NewlinesToBrFront(s);
        assert r[1..] == NewlinesToBr(t);
        NoRenderedTagStart(t);
        assert s[0..] == s;
        assert |r| >= 4 ==> r[..4] == [s[0]] + NewlinesToBr(t)[..3];
        assert |s| >= 4 ==> s[..4] == [s[0]] + t[..3];
        assert !(|r| >= 4 && r[..4] == Br);
      }
    }
  }

  /** Text without line breaks is rendered unchanged. */
  lemma {:induction false} NoNewlineUnchanged(s: string)
    requires '\n' !in s
    ensures NewlinesToBr(s) == s
  {
    if s != [] {
      assert s == [s[0]] + s[1..];
      NoNewlineUnchanged(s[1..]);
    }
  }

  // ---------------------------------------------------------------------
  // Message bubbles
  // ---------------------------------------------------------------------

  /** `justify-end` or `justify-start` on the bubble's row. */
  datatype Justify = Start | End

  /** A child of the chat window: a text bubble from `addMessage`, or an
      image bubble from `addImage` carrying the interpolated base64 text. */
  datatype Bubble =
    | TextBubble(justify: Justify, sender: string, html: string)
    | ImageBubble(base64: string)

  /** The bubble `addMessage(message, sender)` appends. */
  function MessageBubble(message: Option<string>, sender: string): (b: Bubble)
    ensures b.TextBubble? && b.sender == sender
    ensures b.justify == End <==> sender == "user"
    ensures '\n' !in b.html
    ensures !Truthy(message) ==> b.html == ""
  {
    TextBubble(if sender == "user" then End else Start, sender, NewlinesToBr(OrEmpty(message)))
  }

  function BotText(text: string): Bubble
  {
    MessageBubble(Some(text), "bot")
  }

  // ---------------------------------------------------------------------
  // What the server's answer looks like to the widget
  // ---------------------------------------------------------------------

  datatype FileRef = FileRef(name: string)

  /** The form data posted: the trimmed prompt and the attached file, if any. */
  datatype ChatRequest = ChatRequest(prompt: string, file: Option<FileRef>)

  /** `response.json()`: it rejects with a message, or yields the fields the
      widget reads, `error`, `type` and `data`. */
  datatype ChatBody =
    | Unreadable(parseError: string)
    | Parsed(error: Option<string>, kind: Option<string>, data: Option<string>)

  /** The fetch rejects with a message, or answers with a status and a body. */
  datatype ChatOutcome = FetchFailed(message: string) | Answered(status: nat, body: ChatBody)

  const SessionExpired := "Your session has expired. Redirecting to login..."
  const UnreadableError := "Server returned an unreadable error."

  /** The text of the Error a non-ok answer throws. */
  function NonOkMessage(status: nat, body: ChatBody): (m: string)
    ensures m != ""
    ensures body.Unreadable? ==> m == UnreadableError
    ensures body.Parsed? && Truthy(body.error) ==> m == body.error.value
  {
    var err := if body.Unreadable? then Some(UnreadableError) else body.error;
    Or(err, "Server responded with status: " + NatToString(status))
  }

  /** The one bubble the widget appends for an outcome. */
  function ReplyBubble(o: ChatOutcome): (b: Bubble)
    ensures b.TextBubble? ==> b.sender == "bot" && b.justify == Start
    ensures b.ImageBubble? ==> o.Answered? && IsOk(o.status) && o.body.Parsed?
                               && !Truthy(o.body.error) && o.body.kind == Some("image")
  {
    match o
    case FetchFailed(m) => BotText("Error: " + m + ".")
    case Answered(status, body) =>
      if status == 401 then BotText(SessionExpired)
      else if !IsOk(status) then BotText("Error: " + NonOkMessage(status, body) + ".")
      else
        match body
        case Unreadable(m) => BotText("Error: " + m + ".")
        case Parsed(e, k, d) =>
          if Truthy(e) then BotText("Error: " + e.value)
          else if k == Some("image") then ImageBubble(Interpolate(d))
          else MessageBubble(d, "bot")
  }

  /** The caught-error paths: a rejected fetch and an unreadable ok body show
      the error's own message, and an unreadable non-ok body shows the fixed
      text put in its place, each between "Error: " and ".". */
  lemma CaughtErrorShown(m: string, status: nat)
    ensures ReplyBubble(FetchFailed(m)) == BotText("Error: " + m + ".")
    ensures IsOk(status) ==> ReplyBubble(Answered(status, Unreadable(m))) == BotText("Error: " + m + ".")
    ensures status != 401 && !IsOk(status) ==>
              ReplyBubble(Answered(status, Unreadable(m))) == BotText("Error: " + UnreadableError + ".")
  {
  }

  /** A 401 shows the session-expired notice and nothing about the body. */
  lemma UnauthorizedShowsExpiry(body: ChatBody)
    ensures ReplyBubble(Answered(401, body)) == BotText(SessionExpired)
  {
  }

  /** Joining two texts without line breaks gives none. */
  lemma NoNewlineJoin(a: string, b: string)
    requires '\n' !in a && '\n' !in b
    ensures '\n' !in a + b
  {
    assert forall j :: 0 <= j < |a + b| ==> (a + b)[j] == if j < |a| then a[j] else b[j - |a|];
  }

  lemma StatusHeadPlain()
    ensures '\n' !in "Error: " + "Server responded with status: "
  {
  }

  /** The status text around a row of digits has no line break to render. */
  lemma StatusTextPlain(digits: string)
    requires forall j :: 0 <= j < |digits| ==> IsDigit(digits[j])
    ensures NewlinesToBr("Error: " + "Server responded with status: " + digits + ".")
            == "Error: " + "Server responded with status: " + digits + "."
  {
    var head := "Error: " + "Server responded with status: ";
    StatusHeadPlain();
    assert '\n' !in digits by {
      assert forall j :: 0 <= j < |digits| ==> IsDigit(digits[j]);
    }
    NoNewlineJoin(head, digits);
    NoNewlineJoin(head + digits, ".");
    NoNewlineUnchanged(head + digits + ".");
  }

  /** A non-ok answer whose body carries no error text shows its status code,
      written so that it reads back as that very code. */
  lemma NonOkNamesStatus(status: nat, k: Option<string>, d: Option<string>)
    requires status != 401 && !IsOk(status)
    ensures ReplyBubble(Answered(status, Parsed(None, k, d))).html
            == "Error: " + "Server responded with status: " + NatToString(status) + "."
    ensures DecimalValue(NatToString(status)) == status
  {
    var digits := NatToString(status);
    var text := "Error: " + "Server responded with status: " + digits + ".";
    var message := NonOkMessage(status, Parsed(None, k, d));
    assert message == "Server responded with status: " + digits;
    assert "Error: " + message + "." == text;
    assert ReplyBubble(Answered(status, Parsed(None, k, d))) == BotText(text);
    StatusTextPlain(digits);
    DecimalRoundTrip(status);
  }

  /** A non-ok answer with an error text shows it between "Error: " and ".". */
  lemma NonOkShowsServerError(status: nat, e: string, k: Option<string>, d: Option<string>)
    requires status != 401 && !IsOk(status) && e != ""
    ensures ReplyBubble(Answered(status, Parsed(Some(e), k, d))) == BotText("Error: " + e + ".")
  {
  }

  /** An ok answer's `error` wins over `type`; an image needs `type` "image";
      anything else is shown as the text of `data`. */
  lemma OkAnswerChoice(status: nat, e: Option<string>, k: Option<string>, d: Option<string>)
    requires IsOk(status)
    ensures Truthy(e) ==> ReplyBubble(Answered(status, Parsed(e, k, d))) == BotText("Error: " + e.value)
    ensures !Truthy(e) && k == Some("image") ==>
              ReplyBubble(Answered(status, Parsed(e, k, d))) == ImageBubble(Interpolate(d))
    ensures !Truthy(e) && k != Some("image") ==>
              ReplyBubble(Answered(status, Parsed(e, k, d))) == MessageBubble(d, "bot")
  {
  }

  // ---------------------------------------------------------------------
  // Tabs
  // ---------------------------------------------------------------------

  /** `${target}-tab`; a missing `data-tab` attribute interpolates as "null". */
  function TabContentId(target: Option<string>): (id: string)
    ensures |id| >= 4 && id[|id| - 4..] == "-tab"
    ensures target.Some? ==> id[..|id| - 4] == target.value
    ensures target.None? ==> id == "null-tab"
  {
    (if target.Some? then target.value else "null") + "-tab"
  }

  function CountTrue(s: seq<bool>): nat
  {
    if s == [] then 0 else (if s[0] then 1 else 0) + CountTrue(s[1..])
  }

  /** When exactly the `i`-th flag is set, one flag is set. */
  lemma {:induction false} OnlyOneSet(s: seq<bool>, i: nat)
    requires i < |s|
    requires forall j :: 0 <= j < |s| ==> s[j] == (j == i)
    ensures CountTrue(s) == 1
  {
    if i == 0 {
      NoneSet(s[1..]);
    } else {
      OnlyOneSet(s[1..], i - 1);
    }
  }

  lemma {:induction false} NoneSet(s: seq<bool>)
    requires forall j :: 0 <= j < |s| ==> !s[j]
    ensures CountTrue(s) == 0
  {
    if s != [] {
      NoneSet(s[1..]);
    }
  }

  // ---------------------------------------------------------------------
  // The widget
  // ---------------------------------------------------------------------

  class ChatWidget {
    var inputValue: string        // chatInput.value
    var inputDisabled: bool       // chatInput.disabled
    var sendDisabled: bool        // sendButton.disabled
    var micDisabled: bool         // micButton.disabled
    var emojiDisabled: bool       // emojiButton.disabled
    var uploadDisabled: bool      // 'disabled-input' on the upload button
    var loadingHidden: bool       // 'hidden' on the loading indicator
    var attachedFile: Option<FileRef>
    var chosenFiles: seq<FileRef> // the file input's selection
    var previewHidden: bool       // 'hidden' on the attachment preview
    var previewName: string       // the preview's file name text
    var messages: seq<Bubble>     // the chat window's children, in order

    const tabTargets: seq<Option<string>>  // each tab button's data-tab
    const contentIds: seq<string>          // each tab content's id
    const tabActive: array<bool>           // 'active' on each tab button
    const contentHidden: array<bool>       // 'hidden' on each tab content

    predicate Valid()
    {
      && tabActive.Length == |tabTargets|
      && contentHidden.Length == |contentIds|
      && tabActive != contentHidden
    }

    predicate InputsDisabled()
      reads this
    {
      inputDisabled && sendDisabled && micDisabled && emojiDisabled && uploadDisabled
    }

    predicate InputsEnabled()
      reads this
    {
      !inputDisabled && !sendDisabled && !micDisabled && !emojiDisabled && !uploadDisabled
    }

    /** The widget as the page sets it up: the given tabs and contents, an
        empty composer and chat window, nothing attached or loading. */
    constructor (targets: seq<Option<string>>, active: seq<bool>, ids: seq<string>, hidden: seq<bool>)
      requires |targets| == |active| && |ids| == |hidden|
      ensures Valid() && fresh(tabActive) && fresh(contentHidden)
      ensures tabTargets == targets && contentIds == ids
      ensures tabActive[..] == active && contentHidden[..] == hidden
      ensures inputValue == "" && InputsEnabled() && loadingHidden
      ensures attachedFile == None && chosenFiles == [] && previewHidden && previewName == ""
      ensures messages == []
    {
      tabTargets := targets;
      contentIds := ids;
      tabActive := new bool[|active|](j requires 0 <= j < |active| => active[j]);
      contentHidden := new bool[|hidden|](j requires 0 <= j < |hidden| => hidden[j]);
      inputValue := "";
      inputDisabled, sendDisabled, micDisabled, emojiDisabled, uploadDisabled := false, false, false, false, false;
      loadingHidden := true;
      attachedFile := None;
      chosenFiles := [];
      previewHidden := true;
      previewName := "";
      messages := [];
    }

    /** `disableChatInputs`. */
    method DisableInputs()
      modifies this
      ensures InputsDisabled()
      ensures inputValue == old(inputValue) && loadingHidden == old(loadingHidden)
      ensures attachedFile == old(attachedFile) && chosenFiles == old(chosenFiles)
      ensures previewHidden == old(previewHidden) && previewName == old(previewName)
      ensures messages == old(messages)
    {
      inputDisabled := true;
      sendDisabled := true;
      micDisabled := true;
      emojiDisabled := true;
      uploadDisabled := true;
    }

    /** `enableChatInputs`. */
    method EnableInputs()
      modifies this
      ensures InputsEnabled()
      ensures inputValue == old(inputValue) && loadingHidden == old(loadingHidden)
      ensures attachedFile == old(attachedFile) && chosenFiles == old(chosenFiles)
      ensures previewHidden == old(previewHidden) && previewName == old(previewName)
      ensures messages == old(messages)
    {
      inputDisabled := false;
      sendDisabled := false;
      micDisabled := false;
      emojiDisabled := false;
      uploadDisabled := false;
    }

    /** `clearAttachment`: forget the file, empty the file input, hide the preview. */
    method ClearAttachment()
      modifies this
      ensures attachedFile == None && chosenFiles == [] && previewHidden
      ensures previewName == old(previewName) && inputValue == old(inputValue)
      ensures loadingHidden == old(loadingHidden) && messages == old(messages)
      ensures inputDisabled == old(inputDisabled) && sendDisabled == old(sendDisabled)
      ensures micDisabled == old(micDisabled) && emojiDisabled == old(emojiDisabled)
      ensures uploadDisabled == old(uploadDisabled)
    {
      attachedFile := None;
      chosenFiles := [];
      previewHidden := true;
    }

    /** The file input's change handler: attach the first chosen file and
        show its name, or clear the attachment when nothing is chosen. */
    method OnFileChange()
      modifies this
      ensures old(chosenFiles) == [] ==> attachedFile == None && previewHidden && previewName == old(previewName)
      ensures old(chosenFiles) != [] ==>
                attachedFile == Some(old(chosenFiles)[0]) && !previewHidden && previewName == old(chosenFiles)[0].name
      ensures chosenFiles == old(chosenFiles)
      ensures inputValue == old(inputValue) && loadingHidden == old(loadingHidden) && messages == old(messages)
      ensures inputDisabled == old(inputDisabled) && sendDisabled == old(sendDisabled)
      ensures micDisabled == old(micDisabled) && emojiDisabled == old(emojiDisabled)
      ensures uploadDisabled == old(uploadDisabled)
    {
      if chosenFiles == [] {
        ClearAttachment();
        return;
      }
      var file := chosenFiles[0];
      attachedFile := Some(file);
      previewHidden := false;
      previewName := file.name;
    }

    /** `addMessage(message, sender)`. */
    method AddMessage(message: Option<string>, sender: string)
      modifies this
      ensures messages == old(messages) + [MessageBubble(message, sender)]
      ensures inputValue == old(inputValue) && loadingHidden == old(loadingHidden)
      ensures attachedFile == old(attachedFile) && chosenFiles == old(chosenFiles)
      ensures previewHidden == old(previewHidden) && previewName == old(previewName)
      ensures inputDisabled == old(inputDisabled) && sendDisabled == old(sendDisabled)
      ensures micDisabled == old(micDisabled) && emojiDisabled == old(emojiDisabled)
      ensures uploadDisabled == old(uploadDisabled)
    {
      messages := messages + [MessageBubble(message, sender)];
    }

    /** `addImage(base64String)`. */
    method AddImage(base64: string)
      modifies this
      ensures messages == old(messages) + [ImageBubble(base64)]
      ensures inputValue == old(inputValue) && loadingHidden == old(loadingHidden)
      ensures attachedFile == old(attachedFile) && chosenFiles == old(chosenFiles)
      ensures previewHidden == old(previewHidden) && previewName == old(previewName)
      ensures inputDisabled == old(inputDisabled) && sendDisabled == old(sendDisabled)
      ensures micDisabled == old(micDisabled) && emojiDisabled == old(emojiDisabled)
      ensures uploadDisabled == old(uploadDisabled)
    {
      messages := messages + [ImageBubble(base64)];
    }

    /** A click on tab `i`: every tab loses 'active', tab `i` gains it, and
        each content is hidden unless its id is the tab's target plus "-tab". */
    method ClickTab(i: nat)
      requires Valid() && i < tabActive.Length
      modifies tabActive, contentHidden
      ensures forall j :: 0 <= j < tabActive.Length ==> tabActive[j] == (j == i)
      ensures forall k :: 0 <= k < contentHidden.Length ==>
                contentHidden[k] == (contentIds[k] != TabContentId(tabTargets[i]))
      ensures CountTrue(tabActive[..]) == 1
    {
      var j := 0;
      while j < tabActive.Length
        invariant 0 <= j <= tabActive.Length
        invariant forall m :: 0 <= m < j ==> !tabActive[m]
        invariant contentHidden[..] == old(contentHidden[..])
      {
        tabActive[j] := false;
        j := j + 1;
      }
      tabActive[i] := true;
      var id := TabContentId(tabTargets[i]);
      var k := 0;
      while k < contentHidden.Length
        invariant 0 <= k <= contentHidden.Length
        invariant forall m :: 0 <= m < k ==> contentHidden[m] == (contentIds[m] != id)
        invariant forall m :: 0 <= m < tabActive.Length ==> tabActive[m] == (m == i)
      {
        if contentIds[k] == id {
          contentHidden[k] := false;
        } else {
          contentHidden[k] := true;
        }
        k := k + 1;
      }
      OnlyOneSet(tabActive[..], i);
    }

    /** The part of `handleChat` before the request goes out: the guard,
        then disable the inputs, show the user's bubble if there is text,
        clear the composer and show the loading indicator. */
    method BeginSend() returns (request: Option<ChatRequest>)
      modifies this
      ensures Trim(old(inputValue)) == "" && old(attachedFile) == None ==> request == None && unchanged(this)
      ensures Trim(old(inputValue)) != "" || old(attachedFile) != None ==>
                && request == Some(ChatRequest(Trim(old(inputValue)), old(attachedFile)))
                && InputsDisabled() && inputValue == "" && !loadingHidden
      ensures Trim(old(inputValue)) != "" ==>
                messages == old(messages) + [MessageBubble(Some(Trim(old(inputValue))), "user")]
      ensures Trim(old(inputValue)) == "" ==> messages == old(messages)
      ensures attachedFile == old(attachedFile) && chosenFiles == old(chosenFiles)
      ensures previewHidden == old(previewHidden) && previewName == old(previewName)
    {
      var typed := Trim(inputValue);
      if typed == "" && attachedFile == None {
        return None;
      }
      DisableInputs();
      if typed != "" {
        AddMessage(Some(typed), "user");
      }
      inputValue := "";
      loadingHidden := false;
      request := Some(ChatRequest(typed, attachedFile));
    }

    /** The part of `handleChat` after the request: one bubble for the
        outcome, then the `finally` block, which runs on every path. */
    method Deliver(outcome: ChatOutcome)
      modifies this
      ensures messages == old(messages) + [ReplyBubble(outcome)]
      ensures loadingHidden && InputsEnabled()
      ensures attachedFile == None && chosenFiles == [] && previewHidden
      ensures inputValue == old(inputValue) && previewName == old(previewName)
    {
      match outcome {
        case FetchFailed(m) =>
          AddMessage(Some("Error: " + m + "."), "bot");
        case Answered(status, body) =>
          if status == 401 {
            AddMessage(Some(SessionExpired), "bot");
          } else if !IsOk(status) {
            AddMessage(Some("Error: " + NonOkMessage(status, body) + "."), "bot");
          } else {
            match body {
              case Unreadable(m) =>
                AddMessage(Some("Error: " + m + "."), "bot");
              case Parsed(e, k, d) =>
                if Truthy(e) {
                  AddMessage(Some("Error: " + e.value), "bot");
                } else if k == Some("image") {
                  AddImage(Interpolate(d));
                } else {
                  AddMessage(d, "bot");
                }
            }
          }
      }
      loadingHidden := true;
      ClearAttachment();
      EnableInputs();
    }

    /** `handleChat`, with the server's answer given as `outcome`. */
    method HandleChat(outcome: ChatOutcome) returns (sent: Option<ChatRequest>)
      modifies this
      ensures Trim(old(inputValue)) == "" && old(attachedFile) == None ==> sent == None && unchanged(this)
      ensures Trim(old(inputValue)) != "" || old(attachedFile) != None ==>
                sent == Some(ChatRequest(Trim(old(inputValue)), old(attachedFile)))
      ensures Trim(old(inputValue)) != "" ==>
                messages == old(messages) + [MessageBubble(Some(Trim(old(inputValue))), "user"), ReplyBubble(outcome)]
      ensures Trim(old(inputValue)) == "" && old(attachedFile) != None ==>
                messages == old(messages) + [ReplyBubble(outcome)]
      ensures Trim(old(inputValue)) != "" || old(attachedFile) != None ==>
                && inputValue == "" && loadingHidden && InputsEnabled()
                && attachedFile == None && chosenFiles == [] && previewHidden
                && previewName == old(previewName)
    {
      sent := BeginSend();
      if sent.Some? {
        Deliver(outcome);
      }
    }

    /** The composer's keypress handler: Enter sends. */
    method KeyPress(key: string, outcome: ChatOutcome) returns (sent: Option<ChatRequest>)
      modifies this
      ensures key != "Enter" ==> sent == None && unchanged(this)
      ensures key == "Enter" && sent.Some? ==> loadingHidden && InputsEnabled() && attachedFile == None
      ensures key == "Enter" && sent.Some? ==> sent.value.prompt == Trim(old(inputValue))
    {
      sent := None;
      if key == "Enter" {
        sent := HandleChat(outcome);
      }
    }
  }
}
