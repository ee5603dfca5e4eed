/** The mock authentication (`AuthContext.tsx`): the signed-in user, a
    loading flag, and the stored session under the key `briefme_user`.
    Login and signup accept any password of at least six UTF-16 code units
    and make up a fresh user; nothing is checked against an account store. */
module AuthContext {
  import opened Types
  import opened Text

  const SessionKey: string := "briefme_user"
  const UserIdPrefix: string := "user_"
  const MinPasswordLength: nat := 6
  const LoginRejected: string := "Senha inválida"
  const SignupRejected: string := "A senha deve ter pelo menos 6 caracteres"

  /** `s.length`: the number of UTF-16 code units, two for a character outside
      the basic multilingual plane. */
  function Utf16Length(s: string): (n: nat)
    ensures |s| <= n <= 2 * |s|
    ensures (forall i :: 0 <= i < |s| ==> s[i] as int <= 0xFFFF) ==> n == |s|
  {
    if s == [] then 0 else (if s[0] as int > 0xFFFF then 2 else 1) + Utf16Length(s[1..])
  }

  /** A password the mock back end accepts. */
  predicate AcceptsPassword(password: string)
  {
    Utf16Length(password) >= MinPasswordLength
  }

  /** `email.split('@')[0]`: the text before the first '@', or all of it. */
  function NameFromEmail(email: string): (name: string)
    ensures '@' !in name
    ensures |name| <= |email| && name == email[..|name|]
    ensures |name| < |email| ==> email[|name|] == '@'
  {
    var parts := Split(email, '@');
    JoinStartsWithHead(parts, '@');
    parts[0]
  }

  /** A join begins with its first part, followed by the separator when there is more. */
  lemma JoinStartsWithHead(parts: seq<string>, sep: char)
    requires |parts| >= 1
    ensures var s := Join(parts, sep);
      |parts[0]| <= |s| && s[..|parts[0]|] == parts[0]
      && (|parts| > 1 ==> |parts[0]| < |s| && s[|parts[0]|] == sep)
      && (|parts| == 1 ==> s == parts[0])
  {
    if |parts| > 1 {
      var s := Join(parts, sep);
      assert s == parts[0] + [sep] + Join(parts[1..], sep);
      assert s[..|parts[0]|] == parts[0];
    }
  }

  /** The user `login` makes up. */
  function LoginUser(email: string, stamp: string, now: Timestamp): User
  {
    User(UserIdPrefix + stamp, email, Some(NameFromEmail(email)), now)
  }

  /** The user `signup` makes up. */
  function SignupUser(email: string, name: string, stamp: string, now: Timestamp): User
  {
    User(UserIdPrefix + stamp, email, Some(name), now)
  }

  /** What storage holds under `briefme_user`: text that parses to a user, or not. */
  datatype StoredSession = StoredUser(user: User) | Unparsable

  /** The user after the session-restoring effect. */
  function RestoredUser(session: Option<StoredSession>, current: Option<User>): Option<User>
  {
    if session.Some? && session.value.StoredUser? then Some(session.value.user) else current
  }

  /** The session after the session-restoring effect: an unparsable one is removed. */
  function SessionAfterRestore(session: Option<StoredSession>): Option<StoredSession>
  {
    if session.Some? && session.value.Unparsable? then None else session
  }

  class AuthState {
    var user: Option<User>
    var loading: bool
    var session: Option<StoredSession>

    /** The provider before its first effect. */
    constructor (session: Option<StoredSession>)
      ensures user.None? && loading && this.session == session
    {
      user := None;
      loading := true;
      this.session := session;
    }

    /** The mount effect: restores a stored user, drops an unparsable session. */
    method Restore()
      modifies this
      ensures user == RestoredUser(old(session), old(user))
      ensures session == SessionAfterRestore(old(session))
      ensures !loading
    {
      if session.Some? {
        match session.value
        case StoredUser(u) => user := Some(u);
        case Unparsable => session := None;
      }
      loading := false;
    }

    /** `login`: a short password is rejected and changes nothing; otherwise
        the made-up user is signed in and stored as the session. */
    method Login(email: string, password: string, stamp: string, now: Timestamp) returns (r: Result<User>)
      modifies this
      ensures !loading
      ensures !AcceptsPassword(password) ==>
        r == Err(LoginRejected) && user == old(user) && session == old(session)
      ensures AcceptsPassword(password) ==>
        var u := LoginUser(email, stamp, now);
        r == Ok(u) && user == Some(u) && session == Some(StoredUser(u))
    {
      loading := true;
      if Utf16Length(password) < MinPasswordLength {
        r := Err(LoginRejected);
      } else {
        var u := User(UserIdPrefix + stamp, email, Some(Split(email, '@')[0]), now);
        user := Some(u);
        session := Some(StoredUser(u));
        r := Ok(u);
      }
      loading := false;
    }

    /** `signup`: as `login`, with the given name and its own message. */
    method Signup(email: string, password: string, name: string, stamp: string, now: Timestamp) returns (r: Result<User>)
      modifies this
      ensures !loading
      ensures !AcceptsPassword(password) ==>
        r == Err(SignupRejected) && user == old(user) && session == old(session)
      ensures AcceptsPassword(password) ==>
        var u := SignupUser(email, name, stamp, now);
        r == Ok(u) && user == Some(u) && session == Some(StoredUser(u))
    {
      loading := true;
      if Utf16Length(password) < MinPasswordLength {
        r := Err(SignupRejected);
      } else {
        var u := User(UserIdPrefix + stamp, email, Some(name), now);
        user := Some(u);
        session := Some(StoredUser(u));
        r := Ok(u);
      }
      loading := false;
    }

    /** `logout`: removes the session and signs the user out. */
    method Logout()
      modifies this
      ensures user.None? && session.None? && !loading
    {
      loading := true;
      session := None;
      user := None;
      loading := false;
    }
  }

  /** A session written by a successful login is restored, unchanged, by the
      next provider that starts on that storage. */
  method LoginSurvivesReload(email: string, password: string, stamp: string, now: Timestamp)
    returns (signedIn: Option<User>, restored: Option<User>)
    ensures AcceptsPassword(password) ==> signedIn == Some(LoginUser(email, stamp, now)) && restored == signedIn
    ensures !AcceptsPassword(password) ==> signedIn.None? && restored.None?
  {
    var first := new AuthState(None);
    first.Restore();
    var _ := first.Login(email, password, stamp, now);
    signedIn := first.user;
    var second := new AuthState(first.session);
    second.Restore();
    restored := second.user;
  }

  /** After logout, a reload restores nobody. */
  method LogoutSurvivesReload(session: Option<StoredSession>) returns (restored: Option<User>)
    ensures restored.None?
  {
    var first := new AuthState(session);
    first.Restore();
    first.Logout();
    var second := new AuthState(first.session);
    second.Restore();
    restored := second.user;
  }

  /** The login name is the part of the address before the '@'. */
  lemma NameOfSampleAddress()
    ensures NameFromEmail("ana@acme.com") == "ana"
  {
    var s := "ana@acme.com";
    var name := NameFromEmail(s);
    assert s[3] == '@';
    assert '@' !in s[..3];
  }

  /** Five ASCII characters are too short; six are enough. */
  lemma PasswordLengthBoundary()
    ensures !AcceptsPassword("12345")
    ensures AcceptsPassword("123456")
  {
  }
}
