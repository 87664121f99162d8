/** The stand-in authentication service: a list of users and an id counter.
    Logging in looks the e-mail up and never reads the password; the token
    is derived from the user's id. */
module AuthService {
  import opened Types
  import opened Strings
  import Seqs

  const InvalidCredentials: ApiError := ApiError(401, "Invalid credentials")
  const EmailAlreadyRegistered: ApiError := ApiError(409, "This email is already registered.")

  /** The token `mock-jwt-token-${id}` handed out for a user id. */
  function TokenFor(id: int): string
  {
    "mock-jwt-token-" + IntToString(id)
  }

  /** Different users get different tokens, and the token gives back the id. */
  lemma TokensIdentifyUsers(a: int, b: int)
    ensures TokenFor(a) == TokenFor(b) <==> a == b
    ensures ParseInt(TokenFor(a)[|"mock-jwt-token-"|..]) == Some(a)
  {
    if a != b {
      IntToStringInjective(a, b);
      PrefixedDistinct("mock-jwt-token-", IntToString(a), IntToString(b));
    }
    assert TokenFor(a)[|"mock-jwt-token-"|..] == IntToString(a);
    IntToStringRoundTrip(a);
  }

  function UserEmail(u: User): string
  {
    u.email
  }

  function UserId(u: User): int
  {
    u.id
  }

  /** `mockUsers.find(u => u.email === email)`, as the index of the first match. */
  function FindByEmail(users: seq<User>, email: string): (r: Option<nat>)
    ensures r.Some? ==> r.value < |users| && users[r.value].email == email
    ensures r.Some? ==> forall k :: 0 <= k < r.value ==> users[k].email != email
    ensures r.None? <==> forall k :: 0 <= k < |users| ==> users[k].email != email
  {
    Seqs.FindIndex(users, (u: User) => u.email == email)
  }

  /** The three seeded users, with ids 1, 99 and 100. */
  function SeedUsers(now: string): (r: seq<User>)
    ensures Seqs.KeysDistinct(r, UserEmail) && Seqs.KeysDistinct(r, UserId)
    ensures forall k :: 0 <= k < |r| ==> r[k].id < 101
  {
    var users := [
      User(1, "user@example.com", "Test User", UserRole, now),
      User(99, "admin@example.com", "Admin User", AdminRole, now),
      User(100, "demo@example.com", "Demo User", UserRole, now)];
    assert users[0].email[0] != users[1].email[0] && users[0].email[0] != users[2].email[0]
        && users[1].email[0] != users[2].email[0];
    users
  }

  class MockAuthService {
    var mockUsers: seq<User>
    var nextUserId: int

    /** E-mails and ids are distinct, and every id is below the counter. */
    ghost predicate Valid()
      reads this
    {
      && Seqs.KeysDistinct(mockUsers, UserEmail)
      && Seqs.KeysDistinct(mockUsers, UserId)
      && (forall k :: 0 <= k < |mockUsers| ==> mockUsers[k].id < nextUserId)
    }

    constructor (now: string)
      ensures Valid()
      ensures mockUsers == SeedUsers(now) && nextUserId == 101
    {
      mockUsers := SeedUsers(now);
      nextUserId := 101;
    }

    /** `authService.login`: succeeds exactly when some user has the e-mail,
        whatever the password; returns the first such user and its token. */
    method Login(email: string, password: string) returns (r: Result<AuthResponse>)
      ensures r.Ok? <==> exists k :: 0 <= k < |mockUsers| && mockUsers[k].email == email
      ensures r.Ok? ==>
        var k := FindByEmail(mockUsers, email).value;
        r.value == AuthResponse(mockUsers[k], TokenFor(mockUsers[k].id))
      ensures r.Err? ==> r.error == InvalidCredentials
    {
      var found := FindByEmail(mockUsers, email);
      if found.Some? {
        var user := mockUsers[found.value];
        r := Ok(AuthResponse(user, TokenFor(user.id)));
      } else {
        r := Err(InvalidCredentials);
      }
    }

    /** `authService.register`: a taken e-mail is refused with 409 and nothing
        changes; otherwise one user with the next id and role `user` is
        appended, and a later login with the e-mail finds exactly this user. */
    method Register(email: string, password: string, username: string, now: string)
      returns (r: Result<AuthResponse>)
      requires Valid()
      modifies this
      ensures Valid()
      ensures (exists k :: 0 <= k < |old(mockUsers)| && old(mockUsers)[k].email == email) ==>
        r == Err(EmailAlreadyRegistered) && mockUsers == old(mockUsers) && nextUserId == old(nextUserId)
      ensures (forall k :: 0 <= k < |old(mockUsers)| ==> old(mockUsers)[k].email != email) ==>
        var u := User(old(nextUserId), email, username, UserRole, now);
        && mockUsers == old(mockUsers) + [u]
        && nextUserId == old(nextUserId) + 1
        && r == Ok(AuthResponse(u, TokenFor(u.id)))
      ensures r.Ok? ==> FindByEmail(mockUsers, email) == Some(|old(mockUsers)|)
    {
      if FindByEmail(mockUsers, email).Some? {
        return Err(EmailAlreadyRegistered);
      }
      var u := User(nextUserId, email, username, UserRole, now);
      nextUserId := nextUserId + 1;
      mockUsers := mockUsers + [u];
      assert mockUsers[|mockUsers| - 1].email == email;
      assert forall k :: 0 <= k < |mockUsers| - 1 ==> mockUsers[k] == old(mockUsers)[k];
      r := Ok(AuthResponse(u, TokenFor(u.id)));
    }
  }
}
