/** The landing page: the "get started" button, the switch between the
    sign-in and sign-up forms, the two form submissions and the error
    banner. Section visibility is the 'hidden' class of each element; a
    redirect is an assignment to `window.location.href`. The fetches are
    not made here: their outcomes are parameters. */
module Landing {
  import opened Js

  const ChatPage := "/chat.html"
  const PasswordsDiffer := "Passwords do not match."
  const SignupFallback := "Signup failed."
  const LoginFallback := "Login failed."

  /** The `/api/user` check: it throws, or its JSON says `loggedIn`. */
  datatype AuthCheck = CheckThrew | CheckAnswered(loggedIn: bool)

  /** `response.json()` of a sign-up or login answer. */
  datatype AuthBody = BodyUnreadable(parseError: string) | BodyParsed(message: Option<string>)

  /** The fetch rejects with a message, or answers with a status and a body. */
  datatype AuthReply = RequestFailed(message: string) | AuthAnswered(status: nat, body: AuthBody)

  datatype SignupForm = SignupForm(firstName: string, lastName: string, email: string, password: string, confirm: string)

  /** The JSON posted to `/auth/signup`: the confirmation is not sent. */
  datatype SignupRequest = SignupRequest(firstName: string, lastName: string, email: string, password: string)
  datatype LoginRequest = LoginRequest(email: string, password: string)

  /** How a submission ends: a redirect, or the banner with a message. */
  datatype Submitted = Redirect(url: string) | Failure(message: string)

  /** The try/catch of a form submission once the request is sent: a reply
      that is read and ok redirects to the chat; otherwise the caught error's
      message, which for a non-ok reply is `data.message || fallback`. */
  function AuthResult(reply: AuthReply, fallback: string): (r: Submitted)
    ensures r.Redirect? <==> reply.AuthAnswered? && IsOk(reply.status) && reply.body.BodyParsed?
    ensures r.Redirect? ==> r.url == ChatPage
    ensures reply.AuthAnswered? && !IsOk(reply.status) && reply.body.BodyParsed? ==>
              r == Failure(Or(reply.body.message, fallback))
    ensures reply.RequestFailed? ==> r == Failure(reply.message)
    ensures reply.AuthAnswered? && reply.body.BodyUnreadable? ==> r == Failure(reply.body.parseError)
  {
    match reply
    case RequestFailed(m) => Failure(m)
    case AuthAnswered(status, body) =>
      match body
      case BodyUnreadable(m) => Failure(m)
      case BodyParsed(message) =>
        if !IsOk(status) then Failure(Or(message, fallback)) else Redirect(ChatPage)
  }

  /** The sign-up submission: the passwords are compared before anything is sent. */
  function SignupResult(form: SignupForm, reply: AuthReply): (r: Submitted)
    ensures form.password != form.confirm ==> r == Failure(PasswordsDiffer)
    ensures form.password == form.confirm ==> r == AuthResult(reply, SignupFallback)
  {
    if form.password != form.confirm then Failure(PasswordsDiffer)
    else AuthResult(reply, SignupFallback)
  }

  function SignupRequestOf(form: SignupForm): (req: Option<SignupRequest>)
    ensures req.Some? <==> form.password == form.confirm
    ensures req.Some? ==> req.value.firstName == form.firstName && req.value.lastName == form.lastName
    ensures req.Some? ==> req.value.email == form.email && req.value.password == form.password
  {
    if form.password != form.confirm then None
    else Some(SignupRequest(form.firstName, form.lastName, form.email, form.password))
  }

  /** A non-ok sign-up reply shows the server's message, or "Signup failed."
      when it has none; a read ok reply goes to the chat page. */
  lemma SignupReplyMessage(form: SignupForm, status: nat, message: Option<string>)
    requires form.password == form.confirm
    ensures !IsOk(status) && Truthy(message) ==>
              SignupResult(form, AuthAnswered(status, BodyParsed(message))) == Failure(message.value)
    ensures !IsOk(status) && !Truthy(message) ==>
              SignupResult(form, AuthAnswered(status, BodyParsed(message))) == Failure(SignupFallback)
    ensures IsOk(status) ==> SignupResult(form, AuthAnswered(status, BodyParsed(message))) == Redirect(ChatPage)
  {
  }

  /** The same choice for login, with "Login failed." as the fallback. */
  lemma LoginReplyMessage(status: nat, message: Option<string>)
    ensures !IsOk(status) && Truthy(message) ==>
              AuthResult(AuthAnswered(status, BodyParsed(message)), LoginFallback) == Failure(message.value)
    ensures !IsOk(status) && !Truthy(message) ==>
              AuthResult(AuthAnswered(status, BodyParsed(message)), LoginFallback) == Failure(LoginFallback)
    ensures IsOk(status) ==> AuthResult(AuthAnswered(status, BodyParsed(message)), LoginFallback) == Redirect(ChatPage)
  {
  }

  class LandingPage {
    var welcomeHidden: bool
    var featuresHidden: bool
    var loginHidden: bool          // the section holding both forms
    var signinHidden: bool
    var signupHidden: bool
    var toSignupTextHidden: bool   // "no account? sign up" line
    var toSigninTextHidden: bool   // "have an account? sign in" line
    var bannerHidden: bool
    var bannerText: string
    var location: string           // window.location.href

    /** The page as first shown: welcome and features visible, the sign-in
        form and its toggle line ready inside the hidden login section. */
    constructor (href: string)
      ensures !welcomeHidden && !featuresHidden && loginHidden
      ensures !signinHidden && signupHidden && !toSignupTextHidden && toSigninTextHidden
      ensures bannerHidden && bannerText == "" && location == href
    {
      welcomeHidden, featuresHidden, loginHidden := false, false, true;
      signinHidden, signupHidden := false, true;
      toSignupTextHidden, toSigninTextHidden := false, true;
      bannerHidden, bannerText := true, "";
      location := href;
    }

    /** The "get started" click: a logged-in user goes to the chat; otherwise,
        and when the check fails, the welcome and features give way to login. */
    method GetStarted(check: AuthCheck)
      modifies this
      ensures check == CheckAnswered(true) ==>
                location == ChatPage && welcomeHidden == old(welcomeHidden)
                && featuresHidden == old(featuresHidden) && loginHidden == old(loginHidden)
      ensures check != CheckAnswered(true) ==>
                welcomeHidden && featuresHidden && !loginHidden && location == old(location)
      ensures signinHidden == old(signinHidden) && signupHidden == old(signupHidden)
      ensures toSignupTextHidden == old(toSignupTextHidden) && toSigninTextHidden == old(toSigninTextHidden)
      ensures bannerHidden == old(bannerHidden) && bannerText == old(bannerText)
    {
      match check {
        case CheckAnswered(loggedIn) =>
          if loggedIn {
            location := ChatPage;
          } else {
            welcomeHidden := true;
            featuresHidden := true;
            loginHidden := false;
          }
        case CheckThrew =>
          welcomeHidden := true;
          featuresHidden := true;
          loginHidden := false;
      }
    }

    /** The "sign up" link: hide sign-in, show sign-up, swap the toggle lines. */
    method ToSignup()
      modifies this
      ensures signinHidden && !signupHidden && toSignupTextHidden && !toSigninTextHidden
      ensures welcomeHidden == old(welcomeHidden) && featuresHidden == old(featuresHidden)
      ensures loginHidden == old(loginHidden) && location == old(location)
      ensures bannerHidden == old(bannerHidden) && bannerText == old(bannerText)
    {
      signinHidden := true;
      signupHidden := false;
      toSignupTextHidden := true;
      toSigninTextHidden := false;
    }

    /** The "sign in" link: the mirror image of `ToSignup`. */
    method ToSignin()
      modifies this
      ensures signupHidden && !signinHidden && toSigninTextHidden && !toSignupTextHidden
      ensures welcomeHidden == old(welcomeHidden) && featuresHidden == old(featuresHidden)
      ensures loginHidden == old(loginHidden) && location == old(location)
      ensures bannerHidden == old(bannerHidden) && bannerText == old(bannerText)
    {
      signupHidden := true;
      signinHidden := false;
      toSigninTextHidden := true;
      toSignupTextHidden := false;
    }

    /** `showError(message)`. */
    method ShowError(message: string)
      modifies this
      ensures !bannerHidden && bannerText == message
      ensures welcomeHidden == old(welcomeHidden) && featuresHidden == old(featuresHidden)
      ensures loginHidden == old(loginHidden) && location == old(location)
      ensures signinHidden == old(signinHidden) && signupHidden == old(signupHidden)
      ensures toSignupTextHidden == old(toSignupTextHidden) && toSigninTextHidden == old(toSigninTextHidden)
    {
      bannerText := message;
      bannerHidden := false;
    }

    /** `hideError()`. */
    method HideError()
      modifies this
      ensures bannerHidden && bannerText == old(bannerText)
      ensures welcomeHidden == old(welcomeHidden) && featuresHidden == old(featuresHidden)
      ensures loginHidden == old(loginHidden) && location == old(location)
      ensures signinHidden == old(signinHidden) && signupHidden == old(signupHidden)
      ensures toSignupTextHidden == old(toSignupTextHidden) && toSigninTextHidden == old(toSigninTextHidden)
    {
      bannerHidden := true;
    }

    /** Ends a submission: a failure is shown in the banner, a success redirects. */
    method Conclude(result: Submitted)
      requires bannerHidden
      modifies this
      ensures result.Redirect? ==> location == result.url && bannerHidden && bannerText == old(bannerText)
      ensures result.Failure? ==> !bannerHidden && bannerText == result.message && location == old(location)
      ensures welcomeHidden == old(welcomeHidden) && featuresHidden == old(featuresHidden)
      ensures loginHidden == old(loginHidden)
      ensures signinHidden == old(signinHidden) && signupHidden == old(signupHidden)
      ensures toSignupTextHidden == old(toSignupTextHidden) && toSigninTextHidden == old(toSigninTextHidden)
    {
      match result {
        case Redirect(url) => location := url;
        case Failure(m) => ShowError(m);
      }
    }

    /** The sign-up form's submit handler. */
    method SubmitSignup(form: SignupForm, reply: AuthReply) returns (sent: Option<SignupRequest>)
      modifies this
      ensures sent == SignupRequestOf(form)
      ensures SignupResult(form, reply).Redirect? ==>
                location == ChatPage && bannerHidden && bannerText == old(bannerText)
      ensures SignupResult(form, reply).Failure? ==>
                !bannerHidden && bannerText == SignupResult(form, reply).message && location == old(location)
      ensures welcomeHidden == old(welcomeHidden) && featuresHidden == old(featuresHidden)
      ensures loginHidden == old(loginHidden)
      ensures signinHidden == old(signinHidden) && signupHidden == old(signupHidden)
      ensures toSignupTextHidden == old(toSignupTextHidden) && toSigninTextHidden == old(toSigninTextHidden)
    {
      HideError();
      if form.password != form.confirm {
        ShowError(PasswordsDiffer);
        return None;
      }
      sent := Some(SignupRequest(form.firstName, form.lastName, form.email, form.password));
      Conclude(AuthResult(reply, SignupFallback));
    }

    /** The sign-in form's submit handler: the request is always sent. */
    method SubmitLogin(email: string, password: string, reply: AuthReply) returns (sent: LoginRequest)
      modifies this
      ensures sent == LoginRequest(email, password)
      ensures AuthResult(reply, LoginFallback).Redirect? ==>
                location == ChatPage && bannerHidden && bannerText == old(bannerText)
      ensures AuthResult(reply, LoginFallback).Failure? ==>
                !bannerHidden && bannerText == AuthResult(reply, LoginFallback).message && location == old(location)
      ensures welcomeHidden == old(welcomeHidden) && featuresHidden == old(featuresHidden)
      ensures loginHidden == old(loginHidden)
      ensures signinHidden == old(signinHidden) && signupHidden == old(signupHidden)
      ensures toSignupTextHidden == old(toSignupTextHidden) && toSigninTextHidden == old(toSigninTextHidden)
    {
      HideError();
      sent := LoginRequest(email, password);
      Conclude(AuthResult(reply, LoginFallback));
    }
  }

  /** Switching to sign-up and back returns the forms to how they were,
      from the state the page starts in. */
  method ToggleRoundTrip(page: LandingPage)
    requires !page.signinHidden && page.signupHidden && !page.toSignupTextHidden && page.toSigninTextHidden
    modifies page
    ensures !page.signinHidden && page.signupHidden && !page.toSignupTextHidden && page.toSigninTextHidden
    ensures page.welcomeHidden == old(page.welcomeHidden) && page.featuresHidden == old(page.featuresHidden)
    ensures page.loginHidden == old(page.loginHidden) && page.location == old(page.location)
    ensures page.bannerHidden == old(page.bannerHidden) && page.bannerText == old(page.bannerText)
  {
    page.ToSignup();
    page.ToSignin();
  }
}
