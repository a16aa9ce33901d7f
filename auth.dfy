/**
 * The session store (`AuthProvider`): the current user and role, a loading flag, and the
 * two local storage keys "user" and "role" that make a session survive a page reload.
 */
module Auth {
  import opened Common

  /** The user record a login page builds and hands to `login`. */
  datatype UserRecord = UserRecord(id: int, name: string, email: string)

  /**
   * Whether the restore step takes the saved session: both keys must be present and, as
   * JavaScript truthiness demands, the saved role must not be the empty string (a saved
   * user is a JSON text, never empty).
   */
  predicate Restorable(savedUser: Option<UserRecord>, savedRole: Option<string>) {
    savedUser.Some? && savedRole.Some? && savedRole.value != ""
  }

  /** The user and role after the restore step, starting from `user` and `role`. */
  function AfterRestore(user: Option<UserRecord>, role: Option<string>,
                        savedUser: Option<UserRecord>, savedRole: Option<string>): (Option<UserRecord>, Option<string>)
  {
    if Restorable(savedUser, savedRole) then (savedUser, savedRole) else (user, role)
  }

  /** A fresh page is logged in after restoring exactly when both keys were saved (and the role is not empty). */
  lemma RestoreNeedsBothKeys(savedUser: Option<UserRecord>, savedRole: Option<string>)
    ensures AfterRestore(None, None, savedUser, savedRole).0.Some? <==> Restorable(savedUser, savedRole)
    ensures !Restorable(savedUser, savedRole) ==> AfterRestore(None, None, savedUser, savedRole) == (None, None)
  {
  }

  /**
   * What `login(u, r)` writes is read back by the next page load: the same user and role,
   * provided the role is not empty. An empty role is stored but not restored.
   */
  lemma LoginSurvivesReload(u: UserRecord, r: string)
    ensures r != "" ==> AfterRestore(None, None, Some(u), Some(r)) == (Some(u), Some(r))
    ensures r == "" ==> AfterRestore(None, None, Some(u), Some(r)) == (None, None)
  {
  }

  /** After `logout` both keys are gone, so the next page load starts logged out. */
  lemma LogoutSurvivesReload()
    ensures AfterRestore(None, None, None, None) == (None, None)
  {
  }

  class AuthStore {
    var user: Option<UserRecord>
    var role: Option<string>
    var isLoading: bool
    /** Local storage key "user" (`None` when absent). */
    var savedUser: Option<UserRecord>
    /** Local storage key "role" (`None` when absent). */
    var savedRole: Option<string>

    /** `isAuthenticated: !!user`. */
    function IsAuthenticated(): bool
      reads this
    {
      user.Some?
    }

    /** The provider's first render: logged out and loading, over whatever local storage holds. */
    constructor (savedUser: Option<UserRecord>, savedRole: Option<string>)
      ensures user == None && role == None && isLoading && !IsAuthenticated()
      ensures this.savedUser == savedUser && this.savedRole == savedRole
    {
      user, role, isLoading := None, None, true;
      this.savedUser, this.savedRole := savedUser, savedRole;
    }

    /** The mount effect: take the saved session when both keys are there, then stop loading. */
    method RestoreSession()
      modifies this
      ensures (user, role) == AfterRestore(old(user), old(role), savedUser, savedRole)
      ensures !isLoading
      ensures savedUser == old(savedUser) && savedRole == old(savedRole)
    {
      if Restorable(savedUser, savedRole) {
        user := savedUser;
        role := savedRole;
      }
      isLoading := false;
    }

    method Login(userData: UserRecord, userRole: string)
      modifies this
      ensures user == Some(userData) && role == Some(userRole) && IsAuthenticated()
      ensures savedUser == Some(userData) && savedRole == Some(userRole)
      ensures isLoading == old(isLoading)
    {
      user := Some(userData);
      role := Some(userRole);
      savedUser := Some(userData);
      savedRole := Some(userRole);
    }

    method Logout()
      modifies this
      ensures user == None && role == None && !IsAuthenticated()
      ensures savedUser == None && savedRole == None
      ensures isLoading == old(isLoading)
    {
      user := None;
      role := None;
      savedUser := None;
      savedRole := None;
    }
  }
}
