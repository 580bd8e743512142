/**
 * The registration form: the checks made before asking the identity
 * provider to create an account, the error banner, and when the submit
 * button is enabled.
 */
module Registration {
  import opened Optional
  import opened Text
  import opened Language

  /** The outcome of the checks, in the order they are made. */
  datatype Verdict = MissingField | PasswordMismatch | TooShort | Accepted

  /** The fewest UTF-16 code units a password may have. */
  const MinPasswordLength := 6

  /**
   * The checks: every field filled in, then the two passwords equal, then
   * the password at least six code units long.
   */
  function Check(email: string, password: string, confirm: string): (v: Verdict)
    ensures v == MissingField <==> email == [] || password == [] || confirm == []
    ensures v == PasswordMismatch <==> email != [] && password != [] && confirm != [] && password != confirm
    ensures v == TooShort <==>
      email != [] && password != [] && confirm != [] && password == confirm && CodeUnits(password) < MinPasswordLength
    ensures v == Accepted <==>
      email != [] && password != [] && password == confirm && CodeUnits(password) >= MinPasswordLength
  {
    if email == [] || password == [] || confirm == [] then MissingField
    else if password != confirm then PasswordMismatch
    else if CodeUnits(password) < MinPasswordLength then TooShort
    else Accepted
  }

  /** The translation key of a refusal: a mismatch has its own message, the others share one. */
  function MessageKey(v: Verdict): (key: string)
    requires v != Accepted
    ensures key == (if v == PasswordMismatch then "auth.passwordMismatch" else "auth.registerError")
  {
    match v
    case PasswordMismatch => "auth.passwordMismatch"
    case _ => "auth.registerError"
  }

  /**
   * A translation as the form shows it: a string as is, anything else (a
   * nested table, an inherited function) as some non-empty text.
   */
  function Shown(v: Value): (s: string)
    ensures v.Str? ==> s == v.s
    ensures !v.Str? ==> s != []
  {
    if v.Str? then v.s else "[object]"
  }

  /**
   * In either language a refusal is shown translated, never as its raw key,
   * and a mismatch reads differently from the other refusals.
   */
  lemma RefusalsTranslated(language: string, v: Verdict)
    requires language == "zh" || language == "en"
    requires v != Accepted
    ensures Shown(Lookup(language, MessageKey(v))) != MessageKey(v)
    ensures v != PasswordMismatch ==>
      Shown(Lookup(language, MessageKey(v))) != Shown(Lookup(language, MessageKey(PasswordMismatch)))
  {
    RegistrationMessages(language);
  }

  /** A translated message is never empty: a failed lookup falls back to its (non-empty) key. */
  lemma MessageNeverEmpty(language: string, key: string)
    requires key != []
    ensures Shown(Lookup(language, key)) != []
  {
  }

  /**
   * The error banner: the form's own error when it has one, else the
   * session's error; nothing when both are empty.
   */
  function Banner(localError: string, sessionError: Option<string>): (r: Option<string>)
    ensures localError != [] ==> r == Some(localError)
    ensures localError == [] ==> r == (if sessionError.Some? && sessionError.value != [] then sessionError else None)
    ensures r.Some? ==> r.value != []
    ensures r.None? <==> localError == [] && (sessionError.None? || sessionError.value == [])
  {
    if localError != [] then Some(localError)
    else if sessionError.Some? && sessionError.value != [] then sessionError
    else None
  }

  /**
   * A refused submit always shows its own message, whatever error the
   * session holds.
   */
  lemma BannerShowsRefusal(email: string, password: string, confirm: string, language: string,
                           sessionError: Option<string>)
    requires Check(email, password, confirm) != Accepted
    ensures var shown := Shown(Lookup(language, MessageKey(Check(email, password, confirm))));
      Banner(shown, sessionError) == Some(shown)
  {
    MessageNeverEmpty(language, MessageKey(Check(email, password, confirm)));
  }

  /** The submit button is enabled when nothing is loading and every field is filled in. */
  function SubmitEnabled(loading: bool, email: string, password: string, confirm: string): (b: bool)
    ensures b <==> !loading && email != [] && password != [] && confirm != []
  {
    !(loading || email == [] || password == [] || confirm == [])
  }

  /** A submit the button allows is never refused for a missing field. */
  lemma EnabledSubmitHasFields(loading: bool, email: string, password: string, confirm: string)
    requires SubmitEnabled(loading, email, password, confirm)
    ensures Check(email, password, confirm) != MissingField
  {
  }

  /** The length check counts code units: three characters beyond the Basic Multilingual Plane pass it. */
  lemma AstralPasswordPasses()
    ensures Check("a@b", "\U{1F600}\U{1F600}\U{1F600}", "\U{1F600}\U{1F600}\U{1F600}") == Accepted
  {
    var p := "\U{1F600}\U{1F600}\U{1F600}";
    assert p[1..][1..][1..] == [];
    assert CodeUnits(p) == 6;
  }

  class RegisterForm {
    var localError: string

    constructor()
      ensures localError == []
    {
      localError := [];
    }

    /**
     * Submitting: the form's error is cleared first; a refusal stores the
     * translated message and does not reach the provider; only a submit
     * passing every check asks the provider to sign up.
     */
    method HandleSubmit(email: string, password: string, confirm: string, language: string)
      returns (callsSignUp: bool)
      modifies this
      ensures callsSignUp <==> Check(email, password, confirm) == Accepted
      ensures callsSignUp ==> localError == []
      ensures !callsSignUp ==>
        localError == Shown(Lookup(language, MessageKey(Check(email, password, confirm)))) && localError != []
    {
      localError := [];
      var verdict := Check(email, password, confirm);
      if verdict != Accepted {
        localError := Shown(Lookup(language, MessageKey(verdict)));
        MessageNeverEmpty(language, MessageKey(verdict));
        return false;
      }
      return true;
    }
  }
}
