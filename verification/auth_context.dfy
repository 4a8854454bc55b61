/**
 * The mock authentication provider (`AuthProvider` in lib/auth-context.tsx):
 * the signed-in user, the loading flag, and the browser's saved record under
 * the key `chatbot-user`, which survives a reload.
 */
module AuthContext {
  import opened Wrappers

  datatype AuthUser = AuthUser(id: string, name: string, email: string)

  /**
   * The saved record: absent (or the empty string, which the source treats
   * the same way), a record that parses back to a user, or text that does
   * not parse.
   */
  datatype StoredEntry = Missing | Saved(user: AuthUser) | Malformed

  /** The id every mock account gets. */
  const MockId: string := "1"

  /**
   * `email.split('@')[0]`: the text before the first `@`, or the whole
   * address when it has none.
   */
  function EmailPrefix(email: string): (p: string)
    ensures |p| <= |email| && p == email[..|p|]
    ensures '@' !in p
    ensures |p| < |email| ==> email[|p|] == '@'
  {
    if email == [] || email[0] == '@' then [] else [email[0]] + EmailPrefix(email[1..])
  }

  /** The prefix of `local@domain` is `local` whenever `local` holds no `@`. */
  lemma EmailPrefixOfAddress(local: string, domain: string)
    requires '@' !in local
    ensures EmailPrefix(local + "@" + domain) == local
  {
    var email := local + "@" + domain;
    var p := EmailPrefix(email);
    assert email[|local|] == '@';
    assert forall i :: 0 <= i < |local| ==> email[i] == local[i];
    assert email[..|local|] == local;
  }

  /** The account `login` makes up: the address's prefix as the name. */
  function LoginUser(email: string): (u: AuthUser)
    ensures u.id == MockId && u.email == email && u.name == EmailPrefix(email)
  {
    AuthUser(MockId, EmailPrefix(email), email)
  }

  class AuthSession {
    var user: Option<AuthUser>
    var isLoading: bool
    var stored: StoredEntry

    /** The provider's first render: nobody signed in yet, and the session check pending. */
    constructor (stored: StoredEntry)
      ensures user.None? && isLoading && this.stored == stored
    {
      user := None;
      isLoading := true;
      this.stored := stored;
    }

    /** `!!user`. */
    function IsAuthenticated(): (signedIn: bool)
      reads this
      ensures signedIn <==> user.Some?
    {
      user.Some?
    }

    /**
     * `checkAuth`: a saved user is restored; a missing or unreadable record
     * leaves the user as it was; loading ends either way.
     */
    method CheckAuth()
      modifies this
      ensures stored.Saved? ==> user == Some(stored.user)
      ensures !stored.Saved? ==> user == old(user)
      ensures !isLoading && stored == old(stored)
    {
      if stored.Saved? {
        user := Some(stored.user);
      }
      isLoading := false;
    }

    /**
     * `login`: after the simulated delay the user is the made-up account
     * for the address, and the same record is saved. The password is not
     * looked at.
     */
    method Login(email: string, password: string)
      modifies this
      ensures user == Some(LoginUser(email)) && stored == Saved(LoginUser(email))
      ensures !isLoading
    {
      isLoading := true;
      var mock := LoginUser(email);
      user := Some(mock);
      stored := Saved(mock);
      isLoading := false;
    }

    /** `signup`: the user is the given name and address under the mock id, and is saved. */
    method Signup(name: string, email: string, password: string)
      modifies this
      ensures user == Some(AuthUser(MockId, name, email)) && stored == Saved(AuthUser(MockId, name, email))
      ensures !isLoading
    {
      isLoading := true;
      var mock := AuthUser(MockId, name, email);
      user := Some(mock);
      stored := Saved(mock);
      isLoading := false;
    }

    /** `logout`: nobody is signed in and the saved record is gone. */
    method Logout()
      modifies this
      ensures user.None? && stored == Missing
      ensures isLoading == old(isLoading)
    {
      user := None;
      stored := Missing;
    }
  }

  /**
   * A sign-in survives a reload: a fresh provider over what `login` saved
   * restores the same user once its session check has run.
   */
  method ReloadAfterLogin(before: StoredEntry, email: string, password: string) returns (restored: Option<AuthUser>, loading: bool)
    ensures restored == Some(LoginUser(email)) && !loading
  {
    var first := new AuthSession(before);
    first.CheckAuth();
    first.Login(email, password);
    var second := new AuthSession(first.stored);
    second.CheckAuth();
    restored, loading := second.user, second.isLoading;
  }

  /** A sign-out survives a reload: a fresh provider over what is left stays signed out. */
  method ReloadAfterLogout(before: StoredEntry) returns (restored: Option<AuthUser>, signedIn: bool)
    ensures restored.None? && !signedIn
  {
    var first := new AuthSession(before);
    first.CheckAuth();
    first.Logout();
    var second := new AuthSession(first.stored);
    second.CheckAuth();
    restored, signedIn := second.user, second.IsAuthenticated();
  }

  /** An unreadable saved record is ignored: the reloaded provider is signed out and done loading. */
  method ReloadWithMalformedRecord() returns (restored: Option<AuthUser>, loading: bool)
    ensures restored.None? && !loading
  {
    var session := new AuthSession(Malformed);
    session.CheckAuth();
    restored, loading := session.user, session.isLoading;
  }
}
