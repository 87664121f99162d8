/** The session store: the signed-in user, the bearer token and the
    `isAuthenticated` flag, overwritten together by `login` and `logout`. */
module AuthStore {
  import opened Types

  /** The three fields of the store as one value. */
  datatype Session = Session(user: Option<User>, token: Option<string>, isAuthenticated: bool)

  const SignedOut: Session := Session(None, None, false)

  /** The flag is set exactly when both a user and a token are held. */
  predicate Consistent(s: Session)
  {
    s.isAuthenticated <==> s.user.Some? && s.token.Some?
  }

  class AuthState {
    var user: Option<User>
    var token: Option<string>
    var isAuthenticated: bool

    function Snapshot(): Session
      reads this
    {
      Session(user, token, isAuthenticated)
    }

    constructor ()
      ensures Snapshot() == SignedOut && Consistent(Snapshot())
    {
      user, token, isAuthenticated := None, None, false;
    }

    /** `login(user, token)`. */
    method Login(u: User, t: string)
      modifies this
      ensures Snapshot() == Session(Some(u), Some(t), true)
      ensures Consistent(Snapshot())
    {
      user, token, isAuthenticated := Some(u), Some(t), true;
    }

    /** `logout()`: back to the signed-out state, whatever the state before. */
    method Logout()
      modifies this
      ensures Snapshot() == SignedOut
      ensures Consistent(Snapshot())
    {
      user, token, isAuthenticated := None, None, false;
    }
  }

  /** Any sequence of logins and logouts from a fresh store keeps the flag
      consistent; logging out twice is logging out once; logging in and out
      again returns to the fresh store. */
  method SessionLifecycle(u: User, t: string)
  {
    var store := new AuthState();
    store.Login(u, t);
    assert store.isAuthenticated && Consistent(store.Snapshot());
    store.Logout();
    assert store.Snapshot() == SignedOut;
    store.Logout();
    assert store.Snapshot() == SignedOut;
  }
}
