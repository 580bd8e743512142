/**
 * The session gate: the authentication state shared by the whole
 * application (`user`, `loading`, `error`, `success`) and the operations
 * that drive it. Every call to the identity provider is a parameter holding
 * the provider's reply.
 */
module Auth {
  import opened Optional

  /** An authenticated identity; only its id is used by the rest of the application. */
  datatype User = User(id: int)

  /** A provider session; it always carries its user. */
  datatype Session = Session(user: User)

  /** An error reported by the identity provider: its message and, sometimes, a code. */
  datatype ProviderError = ProviderError(message: string, code: Option<string>)

  /** The reply to "who is signed in": a user or nothing, and possibly an error. */
  datatype CurrentUserReply = CurrentUserReply(user: Option<User>, error: Option<ProviderError>)

  datatype SignUpReply =
    | SignUpRejected(error: ProviderError)
    | SignUpAccepted(user: Option<User>, session: Option<Session>)

  datatype SignInReply =
    | SignInRejected(error: ProviderError)
    | SignInAccepted(user: Option<User>)

  /** The provider's message when nobody is signed in; not an error for the initial lookup. */
  const SessionMissing := "Auth session missing!"
  const EmailNotConfirmed := "Email not confirmed"
  const InvalidCredentials := "Invalid login credentials"
  const EmailNotConfirmedCode := "email_not_confirmed"

  /** "Please verify your email address first ..." */
  const VerifyEmailText := "请先验证您的邮箱地址。请检查您的邮箱并点击确认链接后再登录。"
  /** "Wrong email or password ..." */
  const BadCredentialsText := "邮箱或密码错误，请检查后重试。"
  /** "Signed in!" */
  const SignedInText := "登录成功！"
  const RegisteredText := "Registration successful! Please check your email to verify your account before signing in."

  /** The user-facing categories of a sign-in failure. */
  datatype SignInFailure = Unconfirmed | BadCredentials | OtherFailure

  /**
   * How sign-in classifies a provider error. The tests are made in this
   * order: the unconfirmed-email message, the bad-credentials message, then
   * the unconfirmed-email code.
   */
  function Classify(e: ProviderError): (k: SignInFailure)
    ensures e.message == EmailNotConfirmed ==> k == Unconfirmed
    ensures e.message == InvalidCredentials ==> k == BadCredentials
    ensures e.message != EmailNotConfirmed && e.message != InvalidCredentials && e.code == Some(EmailNotConfirmedCode) ==>
      k == Unconfirmed
    ensures k == OtherFailure <==>
      e.message != EmailNotConfirmed && e.message != InvalidCredentials && e.code != Some(EmailNotConfirmedCode)
  {
    if e.message == EmailNotConfirmed then Unconfirmed
    else if e.message == InvalidCredentials then BadCredentials
    else if e.code == Some(EmailNotConfirmedCode) then Unconfirmed
    else OtherFailure
  }

  /** The message sign-in shows for a provider error. */
  function SignInErrorMessage(e: ProviderError): (m: string)
    ensures Classify(e) == Unconfirmed ==> m == VerifyEmailText
    ensures Classify(e) == BadCredentials ==> m == BadCredentialsText
    ensures Classify(e) == OtherFailure ==> m == e.message
  {
    match Classify(e)
    case Unconfirmed => VerifyEmailText
    case BadCredentials => BadCredentialsText
    case OtherFailure => e.message
  }

  /**
   * An unconfirmed email gives the same text whether the provider says so by
   * its message or by its code, and that text differs from the bad-credentials one.
   */
  lemma UnconfirmedByMessageOrCode(e: ProviderError)
    requires e.message == EmailNotConfirmed || (e.message != InvalidCredentials && e.code == Some(EmailNotConfirmedCode))
    ensures SignInErrorMessage(e) == VerifyEmailText != BadCredentialsText
  {
    assert VerifyEmailText[0] != BadCredentialsText[0];
  }

  /** For the two recognised failures the message depends on the category alone. */
  lemma SignInMessageByCategory(e1: ProviderError, e2: ProviderError)
    requires Classify(e1) != OtherFailure && Classify(e1) == Classify(e2)
    ensures SignInErrorMessage(e1) == SignInErrorMessage(e2)
  {
  }

  /** The user can tell an unconfirmed email from wrong credentials by the message. */
  lemma SignInMessagesDistinguish(e1: ProviderError, e2: ProviderError)
    requires Classify(e1) == Unconfirmed && Classify(e2) == BadCredentials
    ensures SignInErrorMessage(e1) != SignInErrorMessage(e2)
  {
    assert VerifyEmailText[0] != BadCredentialsText[0];
  }

  /** Any other failure is shown with the provider's own message, unchanged. */
  lemma SignInMessagePassesThrough(e: ProviderError)
    requires e.message != EmailNotConfirmed && e.message != InvalidCredentials && e.code != Some(EmailNotConfirmedCode)
    ensures SignInErrorMessage(e) == e.message
  {
  }

  class AuthProvider {
    var user: Option<User>
    var loading: bool
    var error: Option<string>
    var success: Option<string>

    /** Nobody is known yet, and the initial lookup is pending. */
    constructor()
      ensures user == None && loading && error == None && success == None
      ensures !IsAuthenticated()
    {
      user := None;
      loading := true;
      error := None;
      success := None;
    }

    /** Whether somebody is signed in. */
    function IsAuthenticated(): (b: bool)
      reads this
      ensures b <==> user != None
    {
      user.Some?
    }

    /**
     * The initial lookup of the current user. A missing session is the normal
     * signed-out case and is not reported; any other error is, and keeps the
     * user as it was.
     */
    method InitialSession(reply: CurrentUserReply)
      modifies this
      ensures !loading && success == old(success)
      ensures if reply.error.Some? && reply.error.value.message != SessionMissing
              then user == old(user) && error == Some(reply.error.value.message)
              else user == reply.user && error == old(error)
      ensures reply.error.None? ==> (IsAuthenticated() <==> reply.user.Some?)
    {
      if reply.error.Some? && reply.error.value.message != SessionMissing {
        // thrown, then caught
        if reply.error.value.message != SessionMissing {
          error := Some(reply.error.value.message);
        }
      } else {
        user := reply.user;
      }
      loading := false;
    }

    /** A session change pushed by the provider: its user replaces ours, and the messages go. */
    method SessionChanged(session: Option<Session>)
      modifies this
      ensures user == (if session.Some? then Some(session.value.user) else None)
      ensures !loading && error == None && success == None
      ensures IsAuthenticated() <==> session.Some?
    {
      user := if session.Some? then Some(session.value.user) else None;
      loading := false;
      error := None;
      success := None;
    }

    /**
     * Registration. It never signs anybody in; when the provider creates a
     * user without a session, the user is told to verify the email first.
     */
    method SignUp(email: string, password: string, reply: SignUpReply) returns (failure: Option<ProviderError>)
      modifies this
      ensures user == old(user) && !loading
      ensures IsAuthenticated() == old(IsAuthenticated())
      ensures reply.SignUpRejected? ==>
        failure == Some(reply.error) && error == Some(reply.error.message) && success == None
      ensures reply.SignUpAccepted? ==>
        && failure == None && error == None
        && success == (if reply.user.Some? && reply.session.None? then Some(RegisteredText) else None)
    {
      loading := true;
      error := None;
      success := None;
      match reply {
        case SignUpRejected(e) =>
          error := Some(e.message);
          failure := Some(e);
        case SignUpAccepted(u, s) =>
          if u.Some? && s.None? {
            success := Some(RegisteredText);
          }
          failure := None;
      }
      loading := false;
    }

    /**
     * Sign-in. On success the returned user replaces ours; on failure the
     * user is kept and the classified message is shown.
     */
    method SignIn(email: string, password: string, reply: SignInReply) returns (ok: bool)
      modifies this
      ensures !loading
      ensures ok <==> reply.SignInAccepted?
      ensures reply.SignInAccepted? ==>
        user == reply.user && success == Some(SignedInText) && error == None
      ensures reply.SignInRejected? ==>
        user == old(user) && success == None && error == Some(SignInErrorMessage(reply.error))
      ensures reply.SignInAccepted? ==> (IsAuthenticated() <==> reply.user.Some?)
      ensures reply.SignInRejected? ==> IsAuthenticated() == old(IsAuthenticated())
    {
      loading := true;
      error := None;
      success := None;
      match reply {
        case SignInRejected(e) =>
          error := Some(SignInErrorMessage(e));
          ok := false;
        case SignInAccepted(u) =>
          user := u;
          success := Some(SignedInText);
          ok := true;
      }
      loading := false;
    }

    /**
     * Sign-out. The user itself is cleared only by the session change the
     * provider pushes afterwards, not here.
     */
    method SignOut(reply: Option<ProviderError>)
      modifies this
      ensures user == old(user) && !loading && success == None
      ensures IsAuthenticated() == old(IsAuthenticated())
      ensures error == (if reply.Some? then Some(reply.value.message) else None)
    {
      loading := true;
      error := None;
      success := None;
      if reply.Some? {
        error := Some(reply.value.message);
      }
      loading := false;
    }
  }
}
