/** The demo session store: who is signed in, whether a sign-in is in progress, and the
    copy of the account kept in the browser's storage. Any credentials are accepted. */
module AuthContext {
  import opened Wrappers
  import opened Types
  import Text

  /** The built-in demo account; `createdAt` is fixed when the module is loaded. */
  function DemoUser(loadedAt: int): User {
    User("demo-user", "Demo User", None, "+252612345678", "Mogadishu", true, loadedAt)
  }

  /** The account `login` signs in: the demo account with the phone that was typed. */
  function LoggedInUser(phone: string, loadedAt: int): (u: User)
    ensures u.phone == phone
    ensures u == DemoUser(loadedAt).(phone := phone)
    ensures u.isSeller
  {
    var demo := DemoUser(loadedAt);
    demo.(phone := phone)
  }

  /** The account `register` creates; `stamp` is `Date.now()` and `now` the time `new Date()` reads. */
  function RegisteredUser(name: string, phone: string, location: string, stamp: int, now: int): (u: User)
    ensures u.name == name && u.phone == phone && u.location == location
    ensures !u.isSeller && u.email.None? && u.createdAt == now
    ensures |u.id| > 5 && u.id[..5] == "user-" && u.id[5..] == Text.IntToString(stamp)
  {
    User("user-" + Text.IntToString(stamp), name, None, phone, location, false, now)
  }

  class Session {
    var user: Option<User>
    var isLoading: bool
    /** The browser-storage copy of the signed-in account. */
    var stored: Option<User>
    const loadedAt: int

    /** The signed-in account and the stored copy agree. */
    predicate InStep()
      reads this
    {
      user == stored
    }

    /** The provider's first render: nobody signed in yet, loading. */
    constructor (storedCopy: Option<User>, loadedAt: int)
      ensures user == None && isLoading && stored == storedCopy
      ensures this.loadedAt == loadedAt
    {
      user := None;
      isLoading := true;
      stored := storedCopy;
      this.loadedAt := loadedAt;
    }

    /** The mount effect: a stored copy, if there is one, becomes the signed-in account. */
    method RestoreStoredUser()
      modifies this
      ensures user == if old(stored).Some? then old(stored) else old(user)
      ensures stored == old(stored) && !isLoading
      ensures old(user) == None ==> InStep()
    {
      if stored.Some? {
        user := stored;
      }
      isLoading := false;
    }

    /** `login`: always succeeds, signing in the demo account under the typed phone. */
    method Login(phone: string, password: string) returns (success: bool)
      modifies this
      ensures success
      ensures user == Some(LoggedInUser(phone, loadedAt))
      ensures InStep() && !isLoading
    {
      isLoading := true;
      var loggedInUser := LoggedInUser(phone, loadedAt);
      user := Some(loggedInUser);
      stored := Some(loggedInUser);
      isLoading := false;
      success := true;
    }

    /** `register`: always succeeds, signing in a new non-seller account. */
    method Register(name: string, phone: string, password: string, location: string, stamp: int, now: int)
      returns (success: bool)
      modifies this
      ensures success
      ensures user == Some(RegisteredUser(name, phone, location, stamp, now))
      ensures InStep() && !isLoading
    {
      isLoading := true;
      var newUser := RegisteredUser(name, phone, location, stamp, now);
      user := Some(newUser);
      stored := Some(newUser);
      isLoading := false;
      success := true;
    }

    /** `logout`: nobody signed in and no stored copy; the loading flag is left alone. */
    method Logout()
      modifies this
      ensures user == None && stored == None
      ensures InStep() && isLoading == old(isLoading)
    {
      user := None;
      stored := None;
    }
  }
}
