/**
 * The sign-in form of `SignIn.tsx`: submitting checks that the email and
 * the password are present, reports each missing one, and otherwise logs in
 * a user named after the email's local part and moves to the lobby.
 */
module SignIn {

  import opened Optional
  import SessionStore

  datatype FormErrors = FormErrors(email: string, password: string)

  const NoErrors := FormErrors("", "")
  const EmailRequired := "Email is required"
  const PasswordRequired := "Password is required"
  const LobbyRoute := "/lobby"

  /** The form has an error to show when either message is set. */
  /** A record reports an error exactly when it differs from the empty one. */
  predicate HasError(e: FormErrors)
    ensures !HasError(e) <==> e == NoErrors
  {
    e.email != "" || e.password != ""
  }

  /**
   * The two checks of `handleSubmit`: each field is missing only when it is
   * the empty string, and each is reported on its own.
   */
  function Validate(email: string, password: string): (e: FormErrors)
    ensures e.email == EmailRequired <==> email == ""
    ensures e.email == "" <==> email != ""
    ensures e.password == PasswordRequired <==> password == ""
    ensures e.password == "" <==> password != ""
    ensures HasError(e) <==> email == "" || password == ""
  {
    FormErrors(if email == "" then EmailRequired else "",
               if password == "" then PasswordRequired else "")
  }

  /**
   * `email.split('@')[0]`: the email up to its first '@', or all of it when
   * it has none.
   */
  function UsernameOf(email: string): (name: string)
    ensures name <= email
    ensures '@' !in name
    ensures |name| < |email| ==> email[|name|] == '@'
  {
    if email == [] || email[0] == '@' then [] else [email[0]] + UsernameOf(email[1..])
  }

  /** The user record a successful sign-in stores. */
  function SignedInUser(email: string): (u: SessionStore.User)
    ensures u.username <= email && '@' !in u.username
  {
    SessionStore.User("1", UsernameOf(email), "👑", 25000, 15)
  }

  class SignInForm {
    var email: string
    var password: string
    var errors: FormErrors

    constructor ()
      ensures email == "" && password == "" && errors == NoErrors
    {
      email, password, errors := "", "", NoErrors;
    }

    method SetEmail(text: string)
      modifies this`email
      ensures email == text
    {
      email := text;
    }

    method SetPassword(text: string)
      modifies this`password
      ensures password == text
    {
      password := text;
    }

    /**
     * `handleSubmit`. On an error it stores the errors and neither logs in nor
     * navigates; otherwise it leaves the stored errors as they were, logs in
     * and returns the route to navigate to.
     */
    method HandleSubmit(store: SessionStore.Store) returns (navigateTo: Option<string>)
      modifies this, store
      ensures email == old(email) && password == old(password)
      ensures HasError(Validate(email, password)) ==>
                && errors == Validate(email, password)
                && store.State() == old(store.State())
                && navigateTo == None
      ensures !HasError(Validate(email, password)) ==>
                && errors == old(errors)
                && store.State() == SessionStore.LoginStep(old(store.State()), SignedInUser(email))
                && navigateTo == Some(LobbyRoute)
    {
      var newErrors := NoErrors;
      if email == "" {
        newErrors := newErrors.(email := EmailRequired);
      }
      if password == "" {
        newErrors := newErrors.(password := PasswordRequired);
      }
      if newErrors.email != "" || newErrors.password != "" {
        errors := newErrors;
        return None;
      }
      store.Login(SignedInUser(email));
      navigateTo := Some(LobbyRoute);
    }
  }

  /** A successful sign-in stores a user whose name is the local part of the email. */
  lemma SignedInUserRecord(email: string)
    ensures var u := SignedInUser(email);
            && u.id == "1" && u.avatar == "👑" && u.balance == 25000 && u.level == 15
            && u.username <= email && '@' !in u.username
            && ('@' !in email ==> u.username == email)
  {
  }

  /** White space and a missing '@' both pass the form's checks. */
  lemma LenientValidation()
    ensures !HasError(Validate(" ", " "))
    ensures !HasError(Validate("player", "secret")) && UsernameOf("player") == "player"
    ensures UsernameOf("ace@poker.fun") == "ace"
  {
    assert "ace@poker.fun"[3] == '@';
  }
}
