/**
 * The user menu of enhancements/user-display/EnhancedUserDisplay.tsx: the
 * shown name and email, copied from the context user by an effect, the
 * avatar initials of the shown name, and sign-out followed by the optional
 * `onSignOut` callback.
 */
module EnhancedUserDisplay {
  import opened Outcomes
  import opened Strings
  import opened AuthContext
  import Navigation

  /**
   * `user.name || user.email?.split('@')[0] || 'User'`: the name when it is
   * non-empty, else the part of the email before the first '@' when that is
   * non-empty, else 'User'.
   */
  function DisplayName(user: User): (d: string)
    ensures d != ""
    ensures user.name.Some? && user.name.value != "" ==> d == user.name.value
    ensures !(user.name.Some? && user.name.value != "") && d != "User" ==>
              IsPrefix(d, user.email) && '@' !in d && (|d| == |user.email| || user.email[|d|] == '@')
    ensures !(user.name.Some? && user.name.value != "") && FirstSegment(user.email, '@') == "" ==> d == "User"
    ensures !(user.name.Some? && user.name.value != "") && FirstSegment(user.email, '@') != "" ==>
              d == FirstSegment(user.email, '@')
  {
    FirstSegmentIsPrefix(user.email, '@');
    if user.name.Some? && user.name.value != "" then user.name.value
    else if FirstSegment(user.email, '@') != "" then FirstSegment(user.email, '@')
    else "User"
  }

  /** An email that starts with '@' (or is empty) falls back to 'User' when there is no name. */
  lemma DisplayNameFallback(id: string, email: string, isOnboarded: bool)
    requires email == [] || email[0] == '@'
    ensures DisplayName(User(id, email, None, isOnboarded)) == "User"
  {
  }

  class UserDisplay {
    var userDisplayName: string
    var userEmail: string

    constructor ()
      ensures userDisplayName == "" && userEmail == ""
    {
      userDisplayName := "";
      userEmail := "";
    }

    /** The effect on `[user]`: copies name and email from a signed-in user; with no user it keeps the old values. */
    method OnUserChange(user: Option<User>)
      modifies this
      ensures user.None? ==> userDisplayName == old(userDisplayName) && userEmail == old(userEmail)
      ensures user.Some? ==> userDisplayName == DisplayName(user.value) && userEmail == user.value.email
    {
      if user.Some? {
        userDisplayName := DisplayName(user.value);
        userEmail := user.value.email;
      }
    }

    /** `getInitials(userDisplayName)`: never the 'U' fallback for a display name taken from a user. */
    function AvatarInitials(): (initials: string)
      reads this
      ensures userDisplayName != "" ==> initials == Upper(Navigation.WordStarts(userDisplayName))
      ensures userDisplayName == "" ==> initials == "U"
    {
      Navigation.GetInitials(Some(userDisplayName))
    }

    /**
     * `handleSignOut`: the context's `signOut` catches every failure of the
     * remote call, so `onSignOut`, when given, always runs after it.
     */
    method HandleSignOut(auth: AuthProvider, remote: Call<()>, hasCallback: bool) returns (callbackRan: bool)
      modifies auth`user
      ensures callbackRan <==> hasCallback
      ensures auth.user == if auth.inBrowser && remote.Returned? then None else old(auth.user)
    {
      var outcome := auth.SignOut(remote);
      callbackRan := false;
      if outcome.Returned? && hasCallback {
        callbackRan := true;
      }
    }
  }
}
