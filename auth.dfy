/**
  The session store of `AuthContext`: the current user, the `isLoading` flag and the one
  persisted storage slot (`localStorage['docspot_user']`). The one-second simulated
  latency of `login` and `register` is folded into a single step.
 */
module Auth {
  import opened Wrappers
  import Text

  datatype Role = Patient | Doctor | Admin

  datatype User = User(id: string, name: string, email: string, role: Role, avatar: Option<string>)

  /** The avatar every synthesised user gets. */
  const DefaultAvatar: string :=
    "https://images.pexels.com/photos/220453/pexels-photo-220453.jpeg?auto=compress&cs=tinysrgb&w=150&h=150&dpr=1"

  /** The display name `login` derives: `email.split('@')[0]`. It is the longest prefix of the
      email that holds no `'@'`; it is the whole email when there is no `'@'`. */
  function EmailName(email: string): (name: string)
    ensures name <= email && '@' !in name
    ensures |name| < |email| ==> email[|name|] == '@'
    ensures '@' !in email ==> name == email
  {
    Text.BeforeFirst(email, '@')
  }

  /** For an address `local@domain` whose local part holds no `'@'`, the display name is the
      local part, whatever the domain holds. */
  lemma EmailNameOfAddress(local: string, domain: string)
    requires '@' !in local
    ensures EmailName(local + "@" + domain) == local
  {
    var email := local + "@" + domain;
    assert email[|local|] == '@';
    assert email[..|local|] == local;
  }

  /** The user `login` synthesises: the name is derived from the email. */
  function LoginUser(id: string, email: string, role: Role): (u: User)
    ensures u.id == id && u.email == email && u.role == role && u.name == EmailName(email)
    ensures u.avatar == Some(DefaultAvatar)
  {
    User(id, EmailName(email), email, role, Some(DefaultAvatar))
  }

  /** The user `register` synthesises: identical to `login`'s except for the supplied name. */
  function RegisterUser(id: string, name: string, email: string, role: Role): (u: User)
    ensures u == LoginUser(id, email, role).(name := name)
  {
    User(id, name, email, role, Some(DefaultAvatar))
  }

  class SessionStore {
    var user: Option<User>
    var isLoading: bool
    /** The persisted slot: `Some(u)` when storage holds `JSON.stringify(u)`. */
    var storage: Option<User>

    /** The provider as it mounts: no user yet, loading, storage as the browser left it. */
    constructor (slot: Option<User>)
      ensures user == None && isLoading && storage == slot
    {
      user := None;
      isLoading := true;
      storage := slot;
    }

    /** The mount effect: a stored user becomes the current user; without one the current
        user is kept. Loading ends either way; storage is only read. */
    method Restore()
      modifies this
      ensures user == (if old(storage).Some? then old(storage) else old(user))
      ensures !isLoading && storage == old(storage)
    {
      if storage.Some? {
        user := storage;
      }
      isLoading := false;
    }

    /** `login`: sets the synthesised user, then persists it. `storageWritable` says whether
        `localStorage.setItem` succeeds; when it throws, the user is already set, storage is
        unchanged and the promise rejects with "Login failed". Loading ends in every outcome. */
    method Login(email: string, password: string, role: Role, id: string, storageWritable: bool)
      returns (outcome: Outcome)
      modifies this
      ensures user == Some(LoginUser(id, email, role))
      ensures storage == if storageWritable then user else old(storage)
      ensures outcome == if storageWritable then Pass else Fail("Login failed")
      ensures !isLoading
    {
      isLoading := true;
      var mockUser := User(id, EmailName(email), email, role, Some(DefaultAvatar));
      user := Some(mockUser);
      if storageWritable {
        storage := Some(mockUser);
        outcome := Pass;
      } else {
        outcome := Fail("Login failed");
      }
      isLoading := false;
    }

    /** `register`: as `Login`, with the supplied display name and the message
        "Registration failed". */
    method Register(name: string, email: string, password: string, role: Role, id: string,
                    storageWritable: bool)
      returns (outcome: Outcome)
      modifies this
      ensures user == Some(RegisterUser(id, name, email, role))
      ensures storage == if storageWritable then user else old(storage)
      ensures outcome == if storageWritable then Pass else Fail("Registration failed")
      ensures !isLoading
    {
      isLoading := true;
      var mockUser := User(id, name, email, role, Some(DefaultAvatar));
      user := Some(mockUser);
      if storageWritable {
        storage := Some(mockUser);
        outcome := Pass;
      } else {
        outcome := Fail("Registration failed");
      }
      isLoading := false;
    }

    /** `logout`: no current user and an empty slot; the loading flag is not touched. */
    method Logout()
      modifies this
      ensures user == None && storage == None
      ensures isLoading == old(isLoading)
    {
      user := None;
      storage := None;
    }
  }

  /** A login that persists, from whatever session the browser had stored, followed by a
      reload of the page: the restored session holds exactly the user that logged in. */
  method ReloadAfterLogin(slot: Option<User>, email: string, password: string, role: Role,
                          id: string)
    returns (signedIn: Option<User>, restored: Option<User>)
    ensures signedIn == Some(LoginUser(id, email, role))
    ensures restored == signedIn
  {
    var session := new SessionStore(slot);
    session.Restore();
    var _ := session.Login(email, password, role, id, true);
    signedIn := session.user;
    var reloaded := new SessionStore(session.storage);
    reloaded.Restore();
    restored := reloaded.user;
  }

  /** The same for `register`, starting from whatever session the browser had stored. */
  method ReloadAfterRegister(slot: Option<User>, name: string, email: string, password: string,
                             role: Role, id: string)
    returns (signedIn: Option<User>, restored: Option<User>)
    ensures signedIn == Some(RegisterUser(id, name, email, role))
    ensures restored == signedIn
  {
    var session := new SessionStore(slot);
    session.Restore();
    var _ := session.Register(name, email, password, role, id, true);
    signedIn := session.user;
    var reloaded := new SessionStore(session.storage);
    reloaded.Restore();
    restored := reloaded.user;
  }

  /** Logging out twice leaves the same session as logging out once, and a reload after
      logging out restores no user. */
  method LogoutThenReload(slot: Option<User>)
    returns (once: Option<User>, twice: Option<User>, slotAfter: Option<User>, restored: Option<User>)
    ensures once == None && twice == once
    ensures slotAfter == None && restored == None
  {
    var session := new SessionStore(slot);
    session.Restore();
    session.Logout();
    once := session.user;
    session.Logout();
    twice := session.user;
    slotAfter := session.storage;
    var reloaded := new SessionStore(session.storage);
    reloaded.Restore();
    restored := reloaded.user;
  }
}
