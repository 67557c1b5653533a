/**
 * The session state held by `AuthProvider` (contexts/AuthContext.tsx): the
 * signed-in user, a loading flag, the last error text and the sign-up data
 * kept while a confirmation code is awaited.
 *
 * Every Amplify call (`signIn`, `signUp`, `confirmSignUp`, `autoSignIn`,
 * `getCurrentUser`, `fetchUserAttributes`, `signOut`) is an input of the
 * operation that awaits it: a `Call` saying whether it returned (and what)
 * or threw (and with which message). A call the operation never reaches is
 * simply not consulted. Each operation runs to completion as one step, so
 * `isLoading = true` while a call is in flight is set and then reset by the
 * same method; after the step only the `finally` value is visible.
 */
module AuthContext {
  import opened Outcomes
  import Strings

  /** What `fetchUserAttributes` returns; an absent key reads as undefined. */
  type Attributes = map<string, string>

  datatype User = User(id: string, email: string, name: Option<string>, isOnboarded: bool)

  datatype ConfirmationData = ConfirmationData(email: string, password: string, name: string)

  /** `{ success, requiresConfirmation? }` as `signUp` resolves it. */
  datatype SignUpResult = SignUpResult(success: bool, requiresConfirmation: Option<bool>)

  /** A `Partial<User>`: `None` is a key the caller did not supply. */
  datatype UserUpdate = UserUpdate(id: Option<string>, email: Option<string>,
                                   name: Option<string>, isOnboarded: Option<bool>)

  const BuildTimeError := "Authentication not available during build"
  const SignInDefault := "Failed to sign in"
  const SignUpDefault := "Failed to sign up"
  const ConfirmDefault := "Failed to confirm sign up"
  const ConfirmSignUpStep := "CONFIRM_SIGN_UP"
  const OnboardedKey := "custom:isOnboarded"

  /** `attributes[key] || fallback` */
  function AttributeOr(attrs: Attributes, key: string, fallback: string): string {
    if key in attrs && attrs[key] != "" then attrs[key] else fallback
  }

  /** `attributes['custom:isOnboarded'] === 'true'` */
  predicate OnboardedFlag(attrs: Attributes) {
    OnboardedKey in attrs && attrs[OnboardedKey] == "true"
  }

  /** The user that session restore builds: no fallbacks, the name may stay undefined. */
  function RestoredUser(userId: string, attrs: Attributes): (u: User)
    ensures u.id == userId
    ensures "email" in attrs ==> u.email == attrs["email"]
    ensures "email" !in attrs ==> u.email == ""
    ensures u.name.Some? <==> "name" in attrs
    ensures u.name.Some? ==> u.name.value == attrs["name"]
    ensures u.isOnboarded <==> OnboardedFlag(attrs)
  {
    User(userId,
         if "email" in attrs then attrs["email"] else "",
         if "name" in attrs then Some(attrs["name"]) else None,
         OnboardedFlag(attrs))
  }

  /**
   * The user that sign-in and the auto sign-in after confirmation build:
   * the typed email stands in for a missing or empty email attribute, and
   * the text before the first '@' of the typed email for a missing or
   * empty name attribute.
   */
  function SignedInUser(userId: string, attrs: Attributes, email: string): (u: User)
    ensures u.id == userId
    ensures "email" in attrs && attrs["email"] != "" ==> u.email == attrs["email"]
    ensures !("email" in attrs && attrs["email"] != "") ==> u.email == email
    ensures u.name.Some?
    ensures "name" in attrs && attrs["name"] != "" ==> u.name.value == attrs["name"]
    ensures !("name" in attrs && attrs["name"] != "") ==>
              && Strings.IsPrefix(u.name.value, email)
              && '@' !in u.name.value
              && (|u.name.value| < |email| ==> email[|u.name.value|] == '@')
    ensures u.isOnboarded <==> OnboardedFlag(attrs)
  {
    Strings.FirstSegmentIsPrefix(email, '@');
    User(userId,
         AttributeOr(attrs, "email", email),
         Some(AttributeOr(attrs, "name", Strings.FirstSegment(email, '@'))),
         OnboardedFlag(attrs))
  }

  /** `{ ...user, ...updates }` */
  function Merge(u: User, updates: UserUpdate): (m: User)
    ensures m.id == (if updates.id.Some? then updates.id.value else u.id)
    ensures m.email == (if updates.email.Some? then updates.email.value else u.email)
    ensures m.name == (if updates.name.Some? then updates.name else u.name)
    ensures m.isOnboarded == (if updates.isOnboarded.Some? then updates.isOnboarded.value else u.isOnboarded)
  {
    User(if updates.id.Some? then updates.id.value else u.id,
         if updates.email.Some? then updates.email.value else u.email,
         if updates.name.Some? then updates.name else u.name,
         if updates.isOnboarded.Some? then updates.isOnboarded.value else u.isOnboarded)
  }

  /** An update that supplies nothing leaves the user as it is. */
  lemma MergeNothing(u: User)
    ensures Merge(u, UserUpdate(None, None, None, None)) == u
  {
  }

  /** Applying the same update twice is the same as applying it once. */
  lemma MergeIdempotent(u: User, updates: UserUpdate)
    ensures Merge(Merge(u, updates), updates) == Merge(u, updates)
  {
  }

  /** Both `getCurrentUser` and `fetchUserAttributes` returned. */
  predicate SessionFetched(currentUser: Call<string>, attributes: Call<Attributes>) {
    currentUser.Returned? && attributes.Returned?
  }

  /** The message of the first call of sign-in that threw, if any. */
  function SignInThrown(signIn: Call<bool>, currentUser: Call<string>, attributes: Call<Attributes>): Option<string> {
    if signIn.Threw? then Some(signIn.message)
    else if !signIn.value then None
    else if currentUser.Threw? then Some(currentUser.message)
    else if attributes.Threw? then Some(attributes.message)
    else None
  }

  class AuthProvider {
    /** `typeof window !== 'undefined'` */
    const inBrowser: bool
    var user: Option<User>
    var isLoading: bool
    var error: string
    var confirmationRequired: Option<ConfirmationData>

    /** The initial `useState` values. */
    constructor (inBrowser: bool)
      ensures this.inBrowser == inBrowser
      ensures user == None && isLoading && error == "" && confirmationRequired == None
    {
      this.inBrowser := inBrowser;
      user := None;
      isLoading := true;
      error := "";
      confirmationRequired := None;
    }

    /**
     * The mount effect: outside a browser it only stops loading; otherwise
     * `checkAuth` restores the session, and any failure means "no user",
     * never an error.
     */
    method Restore(currentUser: Call<string>, attributes: Call<Attributes>)
      modifies this
      ensures !isLoading
      ensures error == old(error) && confirmationRequired == old(confirmationRequired)
      ensures !inBrowser ==> user == old(user)
      ensures inBrowser && SessionFetched(currentUser, attributes) ==>
                user == Some(RestoredUser(currentUser.value, attributes.value))
      ensures inBrowser && !SessionFetched(currentUser, attributes) ==> user == None
    {
      if !inBrowser {
        isLoading := false;
        return;
      }
      if currentUser.Returned? && attributes.Returned? {
        user := Some(RestoredUser(currentUser.value, attributes.value));
      } else {
        user := None;
      }
      isLoading := false;
    }

    method SignIn(email: string, password: string,
                  signIn: Call<bool>, currentUser: Call<string>, attributes: Call<Attributes>)
      returns (r: Call<bool>)
      modifies this
      ensures !inBrowser ==> r == Threw(BuildTimeError) && unchanged(this)
      ensures confirmationRequired == old(confirmationRequired)
      ensures inBrowser ==> !isLoading && r.Returned?
      ensures inBrowser ==> (r == Returned(true) <==> signIn == Returned(true) && SessionFetched(currentUser, attributes))
      ensures inBrowser && signIn == Returned(true) && SessionFetched(currentUser, attributes) ==>
                user == Some(SignedInUser(currentUser.value, attributes.value, email)) && error == ""
      ensures inBrowser && signIn == Returned(false) ==> user == old(user) && error == ""
      ensures inBrowser && SignInThrown(signIn, currentUser, attributes).Some? ==>
                user == old(user) && error == MessageOr(SignInThrown(signIn, currentUser, attributes).value, SignInDefault)
    {
      if !inBrowser {
        return Threw(BuildTimeError);
      }
      isLoading := true;
      error := "";
      if signIn.Threw? {
        error := MessageOr(signIn.message, SignInDefault);
        r := Returned(false);
      } else if signIn.value {
        if currentUser.Threw? {
          error := MessageOr(currentUser.message, SignInDefault);
          r := Returned(false);
        } else if attributes.Threw? {
          error := MessageOr(attributes.message, SignInDefault);
          r := Returned(false);
        } else {
          user := Some(SignedInUser(currentUser.value, attributes.value, email));
          r := Returned(true);
        }
      } else {
        r := Returned(false);
      }
      isLoading := false;
    }

    /** `nextStep` is the `signUpStep` the service answers with. */
    method SignUp(email: string, password: string, name: string, nextStep: Call<string>)
      returns (r: Call<SignUpResult>)
      modifies this
      ensures !inBrowser ==> r == Threw(BuildTimeError) && unchanged(this)
      ensures user == old(user)
      ensures inBrowser ==> !isLoading
      ensures inBrowser && nextStep == Returned(ConfirmSignUpStep) ==>
                && r == Returned(SignUpResult(true, Some(true)))
                && confirmationRequired == Some(ConfirmationData(email, password, name))
                && error == ""
      ensures inBrowser && nextStep.Returned? && nextStep.value != ConfirmSignUpStep ==>
                && r == Returned(SignUpResult(true, Some(false)))
                && confirmationRequired == old(confirmationRequired)
                && error == ""
      ensures inBrowser && nextStep.Threw? ==>
                && r == Returned(SignUpResult(false, None))
                && confirmationRequired == old(confirmationRequired)
                && error == MessageOr(nextStep.message, SignUpDefault)
    {
      if !inBrowser {
        return Threw(BuildTimeError);
      }
      isLoading := true;
      error := "";
      if nextStep.Threw? {
        error := MessageOr(nextStep.message, SignUpDefault);
        r := Returned(SignUpResult(false, None));
      } else if nextStep.value == ConfirmSignUpStep {
        confirmationRequired := Some(ConfirmationData(email, password, name));
        r := Returned(SignUpResult(true, Some(true)));
      } else {
        r := Returned(SignUpResult(true, Some(false)));
      }
      isLoading := false;
    }

    /**
     * Confirmation succeeds as soon as `confirmSignUp` returns; the auto
     * sign-in after it is best effort and its failure is swallowed.
     */
    method ConfirmSignUpWithCode(email: string, code: string, confirm: Call<()>, autoSignIn: Call<()>,
                                 currentUser: Call<string>, attributes: Call<Attributes>)
      returns (r: bool)
      modifies this
      ensures !isLoading
      ensures r <==> confirm.Returned?
      ensures confirm.Returned? ==> confirmationRequired == None && error == ""
      ensures confirm.Returned? && autoSignIn.Returned? && SessionFetched(currentUser, attributes) ==>
                user == Some(SignedInUser(currentUser.value, attributes.value, email))
      ensures !(confirm.Returned? && autoSignIn.Returned? && SessionFetched(currentUser, attributes)) ==>
                user == old(user)
      ensures confirm.Threw? ==>
                confirmationRequired == old(confirmationRequired) && error == MessageOr(confirm.message, ConfirmDefault)
    {
      isLoading := true;
      error := "";
      if confirm.Threw? {
        error := MessageOr(confirm.message, ConfirmDefault);
        r := false;
      } else {
        if autoSignIn.Returned? && currentUser.Returned? && attributes.Returned? {
          user := Some(SignedInUser(currentUser.value, attributes.value, email));
        }
        confirmationRequired := None;
        r := true;
      }
      isLoading := false;
    }

    /**
     * The user is cleared only when the remote sign-out returns; a failure
     * is swallowed, so the returned promise always resolves.
     */
    method SignOut(remote: Call<()>) returns (r: Call<()>)
      modifies this`user
      ensures r == Returned(())
      ensures user == if inBrowser && remote.Returned? then None else old(user)
    {
      r := Returned(());
      if !inBrowser {
        return;
      }
      if remote.Returned? {
        user := None;
      }
    }

    /** A local merge into the current user; nothing happens without one. */
    method UpdateUser(updates: UserUpdate)
      modifies this`user
      ensures old(user).None? ==> user == None
      ensures old(user).Some? ==> user == Some(Merge(old(user).value, updates))
    {
      if user.Some? {
        user := Some(Merge(user.value, updates));
      }
    }

    method ClearError()
      modifies this`error
      ensures error == ""
    {
      error := "";
    }
  }
}
