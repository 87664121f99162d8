/** The in-memory backend: a catalogue of sweets, a table of users keyed by
    e-mail, and the two id counters. Each call either resolves with a value
    or rejects with an HTTP-style status; network delay is not modelled. */
module MockApi {
  import opened Types
  import opened Strings
  import Seqs

  /** A row of the user table. */
  datatype Credentials = Credentials(user: User, password: string)

  const NotFound: ApiError := ApiError(404, "Sweet not found")
  const NotEnoughStock: ApiError := ApiError(400, "Not enough stock available")
  const BadCredentials: ApiError := ApiError(401, "Invalid email or password")
  const EmailTaken: ApiError := ApiError(409, "This email is already registered.")

  function SweetId(s: Sweet): int
  {
    s.id
  }

  /** `sweets.findIndex(s => s.id === id)`. */
  function FindSweet(sweets: seq<Sweet>, id: int): (r: Option<nat>)
    ensures r.Some? ==> r.value < |sweets| && sweets[r.value].id == id
    ensures r.None? <==> forall k :: 0 <= k < |sweets| ==> sweets[k].id != id
  {
    Seqs.FindIndex(sweets, (s: Sweet) => s.id == id)
  }

  // ---- the search of mockGetSweets ----

  /** The lower-cased query occurs in the lower-cased name or in the
      lower-cased description, when there is one. */
  predicate QueryMatches(s: Sweet, query: string)
  {
    var q := ToLower(query);
    Contains(ToLower(s.name), q) || (s.description.Some? && Contains(ToLower(s.description.value), q))
  }

  function MatchingQuery(query: string): Sweet -> bool
  {
    (s: Sweet) => QueryMatches(s, query)
  }

  function InCategory(category: string): Sweet -> bool
  {
    (s: Sweet) => s.category == category
  }

  function InPriceRange(range: PriceRange): Sweet -> bool
  {
    (s: Sweet) => range.low <= s.price <= range.high
  }

  /** A search constrains the result only through the keys it supplies: a
      missing or empty query and a missing or empty category impose nothing. */
  predicate SatisfiesSearch(s: Sweet, params: SearchParams)
  {
    && (params.query.Some? && params.query.value != "" ==> QueryMatches(s, params.query.value))
    && (params.category.Some? && params.category.value != "" ==> s.category == params.category.value)
    && (params.priceRange.Some? ==> params.priceRange.value.low <= s.price <= params.priceRange.value.high)
  }

  /** The filter chain of `mockGetSweets`: query, then category, then price.
      The result keeps the catalogue's order and holds exactly the sweets that
      satisfy every supplied filter. */
  function SearchSweets(sweets: seq<Sweet>, params: SearchParams): (r: seq<Sweet>)
    ensures Seqs.IsSubsequence(r, sweets)
    ensures forall s :: s in r <==> s in sweets && SatisfiesSearch(s, params)
  {
    var byQuery :=
      if params.query.Some? && params.query.value != ""
      then Seqs.Filter(sweets, MatchingQuery(params.query.value)) else sweets;
    var byCategory :=
      if params.category.Some? && params.category.value != ""
      then Seqs.Filter(byQuery, InCategory(params.category.value)) else byQuery;
    var byPrice :=
      if params.priceRange.Some?
      then Seqs.Filter(byCategory, InPriceRange(params.priceRange.value)) else byCategory;
    Seqs.SubsequenceReflexive(sweets);
    Seqs.SubsequenceReflexive(byQuery);
    Seqs.SubsequenceReflexive(byCategory);
    Seqs.SubsequenceTransitive(byCategory, byQuery, sweets);
    Seqs.SubsequenceTransitive(byPrice, byCategory, sweets);
    byPrice
  }

  /** With no parameters the whole catalogue comes back, in order. */
  lemma SearchWithoutParamsIsIdentity(sweets: seq<Sweet>)
    ensures SearchSweets(sweets, NoSearchParams) == sweets
  {
  }

  /** The case of the query does not matter. */
  lemma QueryIgnoresCase(s: Sweet, query: string)
    ensures QueryMatches(s, query) == QueryMatches(s, ToLower(query))
  {
    ToLowerIdempotent(query);
  }

  /** `QueryMatches` is "the query occurs at some offset of the name or of
      the description", after lower-casing both. */
  lemma QueryMatchesAtOffset(s: Sweet, query: string)
    ensures QueryMatches(s, query) <==>
      (exists i :: OccursAt(ToLower(s.name), ToLower(query), i)) ||
      (s.description.Some? && exists i :: OccursAt(ToLower(s.description.value), ToLower(query), i))
  {
    ContainsAt(ToLower(s.name), ToLower(query));
    if s.description.Some? {
      ContainsAt(ToLower(s.description.value), ToLower(query));
    }
  }

  // ---- writes ----

  /** `{ ...sweet, ...dto, updatedAt: now }`: every key the payload supplies
      replaces the stored one; the id and creation time are kept. */
  function Merge(s: Sweet, dto: UpdateSweetDto, now: string): (r: Sweet)
    ensures r.id == s.id && r.createdAt == s.createdAt && r.updatedAt == now
    ensures r.name == (if dto.name.Present? then dto.name.value else s.name)
    ensures r.category == (if dto.category.Present? then dto.category.value else s.category)
    ensures r.price == (if dto.price.Present? then dto.price.value else s.price)
    ensures r.quantity == (if dto.quantity.Present? then dto.quantity.value else s.quantity)
    ensures r.description == (if dto.description.Present? then dto.description.value else s.description)
    ensures r.imageUrl == (if dto.imageUrl.Present? then dto.imageUrl.value else s.imageUrl)
  {
    var r := s.(updatedAt := now);
    var r := if dto.name.Present? then r.(name := dto.name.value) else r;
    var r := if dto.category.Present? then r.(category := dto.category.value) else r;
    var r := if dto.price.Present? then r.(price := dto.price.value) else r;
    var r := if dto.quantity.Present? then r.(quantity := dto.quantity.value) else r;
    var r := if dto.description.Present? then r.(description := dto.description.value) else r;
    if dto.imageUrl.Present? then r.(imageUrl := dto.imageUrl.value) else r
  }

  // ---- the seed data ----

  /** The k-th seeded sweet: id k + 1, prices in whole rupees. */
  function SeedSweet(k: nat, now: string): (s: Sweet)
    requires k < 10
    ensures s.id == k + 1
  {
    Sweet(k + 1, SeedNames(k), SeedCategories(k), SeedPrices(k), SeedStock(k),
          Some(SeedDescriptions(k)), Some(SeedImages(k)), now, now)
  }

  /** Names of the seeded sweets, by position. */
  function SeedNames(k: nat): string
    requires k < 10
  {
    match k
    case 0 => "Chocolate Fudge Cake"
    case 1 => "Glazed Doughnuts"
    case 2 => "Gummy Bears"
    case 3 => "Strawberry Ice Cream"
    case 4 => "Red Velvet Cupcakes"
    case 5 => "Croissants"
    case 6 => "Lollipops"
    case 7 => "Mint Chocolate Chip Gelato"
    case 8 => "Macarons"
    case _ => "Caramel Popcorn"
  }

  /** Categories of the seeded sweets. */
  function SeedCategories(k: nat): string
    requires k < 10
  {
    match k
    case 0 => "Cakes"
    case 1 => "Pastries"
    case 2 => "Candies"
    case 3 => "Frozen"
    case 4 => "Cakes"
    case 5 => "Pastries"
    case 6 => "Candies"
    case 7 => "Frozen"
    case 8 => "Pastries"
    case _ => "Candies"
  }

  /** Prices of the seeded sweets, cut to whole rupees. */
  function SeedPrices(k: nat): int
    requires k < 10
  {
    match k
    case 0 => 25
    case 1 => 2
    case 2 => 5
    case 3 => 7
    case 4 => 4
    case 5 => 3
    case 6 => 1
    case 7 => 8
    case 8 => 2
    case _ => 6
  }

  /** Stock of the seeded sweets. */
  function SeedStock(k: nat): int
    requires k < 10
  {
    match k
    case 0 => 15
    case 1 => 50
    case 2 => 120
    case 3 => 30
    case 4 => 24
    case 5 => 40
    case 6 => 200
    case 7 => 25
    case 8 => 60
    case _ => 0
  }

  /** Descriptions of the seeded sweets. */
  function SeedDescriptions(k: nat): string
    requires k < 10
  {
    match k
    case 0 => "A rich and decadent chocolate fudge cake, perfect for any celebration."
    case 1 => "Classic glazed doughnuts, light, fluffy, and utterly irresistible."
    case 2 => "A colorful assortment of fruity gummy bears."
    case 3 => "Creamy strawberry ice cream made with real fruit."
    case 4 => "Moist red velvet cupcakes with cream cheese frosting."
    case 5 => "Buttery, flaky croissants, perfect for breakfast."
    case 6 => "A rainbow of swirly lollipops in various flavors."
    case 7 => "Authentic Italian gelato with a refreshing mint flavor and rich chocolate chips."
    case 8 => "Delicate and colorful French macarons in assorted flavors."
    case _ => "Sweet and crunchy caramel-coated popcorn. Currently out of stock."
  }

  /** Image addresses of the seeded sweets. */
  function SeedImages(k: nat): string
    requires k < 10
  {
    match k
    case 0 => "https://images.unsplash.com/photo-1578985545062-69928b1d9587?auto=format&fit=crop&w=500&q=60"
    case 1 => "https://images.unsplash.com/photo-1551024601-bec78aea704b?auto=format&fit=crop&w=500&q=60"
    case 2 => "https://images.unsplash.com/photo-1580574993627-3a49c78a3908?auto=format&fit=crop&w=500&q=60"
    case 3 => "https://images.unsplash.com/photo-1580915411954-282cb1b0d780?auto=format&fit=crop&w=500&q=60"
    case 4 => "https://images.unsplash.com/photo-1614707267537-78974675b872?auto=format&fit=crop&w=500&q=60"
    case 5 => "https://images.unsplash.com/photo-1555507036-ab1f4038808a?auto=format&fit=crop&w=500&q=60"
    case 6 => "https://images.unsplash.com/photo-1575849639852-ff4573677446?auto=format&fit=crop&w=500&q=60"
    case 7 => "https://images.unsplash.com/photo-1567206563064-6f60f40a2b57?auto=format&fit=crop&w=500&q=60"
    case 8 => "https://images.unsplash.com/photo-1558326567-98ae2405596b?auto=format&fit=crop&w=500&q=60"
    case _ => "https://images.unsplash.com/photo-1575379121482-6ce0d3d6242d?auto=format&fit=crop&w=500&q=60"
  }

  /** The seeded catalogue: ten sweets with ids 1 to 10, in that order. */
  function SeedCatalogue(now: string): (r: seq<Sweet>)
    ensures |r| == 10 && forall k :: 0 <= k < 10 ==> r[k].id == k + 1
  {
    seq(10, k requires 0 <= k < 10 => SeedSweet(k, now))
  }

  /** A seeded account: every one has the password "password". */
  function SeedUser(id: int, email: string, username: string, role: Role, now: string): (c: Credentials)
  {
    Credentials(User(id, email, username, role, now), "password")
  }

  /** The mock database and its two counters. */
  class MockBackend {
    var sweets: seq<Sweet>
    var users: map<string, Credentials>
    var nextSweetId: int
    var nextUserId: int

    /** Sweet ids are distinct and below the sweet counter; each user is
        stored under its own e-mail, and user ids are distinct and below the
        user counter. */
    ghost predicate Valid()
      reads this
    {
      && Seqs.KeysDistinct(sweets, SweetId)
      && (forall k :: 0 <= k < |sweets| ==> sweets[k].id < nextSweetId)
      && (forall e :: e in users ==> users[e].user.email == e && users[e].user.id < nextUserId)
      && (forall e1, e2 :: e1 in users && e2 in users && e1 != e2 ==> users[e1].user.id != users[e2].user.id)
    }

    /** The seeded database: sweets 1 to 10, three users, counters 11 and 4. */
    constructor (now: string)
      ensures Valid()
      ensures sweets == SeedCatalogue(now)
      ensures users == map[
        "admin@example.com" := SeedUser(1, "admin@example.com", "Admin", AdminRole, now),
        "user@example.com" := SeedUser(2, "user@example.com", "User", UserRole, now),
        "demo@example.com" := SeedUser(3, "demo@example.com", "Demo User", UserRole, now)]
      ensures nextSweetId == 11 && nextUserId == 4
    {
      sweets := SeedCatalogue(now);
      var admin, user, demo := "admin@example.com", "user@example.com", "demo@example.com";
      assert admin[0] != user[0] && admin[0] != demo[0] && user[0] != demo[0];
      users := map[
        "admin@example.com" := SeedUser(1, "admin@example.com", "Admin", AdminRole, now),
        "user@example.com" := SeedUser(2, "user@example.com", "User", UserRole, now),
        "demo@example.com" := SeedUser(3, "demo@example.com", "Demo User", UserRole, now)];
      nextSweetId := 11;
      nextUserId := 4;
    }

    /** `mockLogin`: succeeds exactly when the e-mail is registered with this
        password. `tokenId` stands for the fresh uuid of the token. */
    method Login(email: string, password: string, tokenId: string) returns (r: Result<AuthResponse>)
      ensures r.Ok? <==> email in users && users[email].password == password
      ensures r.Ok? ==> r.value == AuthResponse(users[email].user, "mock-token-" + tokenId)
      ensures r.Err? ==> r.error == BadCredentials
    {
      if email in users && users[email].password == password {
        r := Ok(AuthResponse(users[email].user, "mock-token-" + tokenId));
      } else {
        r := Err(BadCredentials);
      }
    }

    /** `mockRegister`: a taken e-mail is refused with 409 and nothing changes;
        otherwise a user with the next id and role `user` is stored under the
        e-mail, so that logging in with it and this password succeeds. */
    method Register(email: string, password: string, username: string, tokenId: string, now: string)
      returns (r: Result<AuthResponse>)
      requires Valid()
      modifies this
      ensures Valid()
      ensures sweets == old(sweets) && nextSweetId == old(nextSweetId)
      ensures email in old(users) ==>
        r == Err(EmailTaken) && users == old(users) && nextUserId == old(nextUserId)
      ensures email !in old(users) ==>
        var u := User(old(nextUserId), email, username, UserRole, now);
        && users == old(users)[email := Credentials(u, password)]
        && nextUserId == old(nextUserId) + 1
        && r == Ok(AuthResponse(u, "mock-token-" + tokenId))
      ensures r.Ok? ==> email in users && users[email].password == password
    {
      if email in users {
        return Err(EmailTaken);
      }
      var u := User(nextUserId, email, username, UserRole, now);
      nextUserId := nextUserId + 1;
      users := users[email := Credentials(u, password)];
      r := Ok(AuthResponse(u, "mock-token-" + tokenId));
    }

    /** `mockGetSweets`: the filtered copy; the catalogue itself is untouched. */
    method GetSweets(params: SearchParams) returns (r: seq<Sweet>)
      ensures r == SearchSweets(sweets, params)
    {
      r := SearchSweets(sweets, params);
    }

    /** `mockAddSweet`: the new sweet gets the next id and goes to the front. */
    method AddSweet(dto: CreateSweetDto, now: string) returns (r: Sweet)
      requires Valid()
      modifies this
      ensures Valid()
      ensures r == Sweet(old(nextSweetId), dto.name, dto.category, dto.price, dto.quantity,
                         dto.description, dto.imageUrl, now, now)
      ensures sweets == [r] + old(sweets) && nextSweetId == old(nextSweetId) + 1
      ensures forall k :: 0 <= k < |old(sweets)| ==> old(sweets)[k].id != r.id
      ensures users == old(users) && nextUserId == old(nextUserId)
    {
      r := Sweet(nextSweetId, dto.name, dto.category, dto.price, dto.quantity,
                 dto.description, dto.imageUrl, now, now);
      nextSweetId := nextSweetId + 1;
      sweets := [r] + sweets;
      assert forall k :: 1 <= k < |sweets| ==> sweets[k] == old(sweets)[k - 1];
    }

    /** `mockUpdateSweet`: 404 for an unknown id; otherwise the payload is
        merged into that sweet, in place. */
    method UpdateSweet(id: int, dto: UpdateSweetDto, now: string) returns (r: Result<Sweet>)
      requires Valid()
      modifies this
      ensures Valid()
      ensures users == old(users) && nextSweetId == old(nextSweetId) && nextUserId == old(nextUserId)
      ensures FindSweet(old(sweets), id).None? ==> r == Err(NotFound) && sweets == old(sweets)
      ensures FindSweet(old(sweets), id).Some? ==>
        var i := FindSweet(old(sweets), id).value;
        sweets == old(sweets)[i := Merge(old(sweets)[i], dto, now)] && r == Ok(sweets[i])
    {
      var index := FindSweet(sweets, id);
      if index.None? {
        return Err(NotFound);
      }
      var i := index.value;
      Seqs.ReplaceKeepsKeysDistinct(sweets, i, Merge(sweets[i], dto, now), SweetId);
      sweets := sweets[i := Merge(sweets[i], dto, now)];
      r := Ok(sweets[i]);
    }

    /** `mockDeleteSweet`: 404 for an unknown id; otherwise that sweet is
        spliced out and the others keep their order. */
    method DeleteSweet(id: int) returns (r: Result<()>)
      requires Valid()
      modifies this
      ensures Valid()
      ensures users == old(users) && nextSweetId == old(nextSweetId) && nextUserId == old(nextUserId)
      ensures FindSweet(old(sweets), id).None? ==> r == Err(NotFound) && sweets == old(sweets)
      ensures FindSweet(old(sweets), id).Some? ==>
        var i := FindSweet(old(sweets), id).value;
        && sweets == old(sweets)[..i] + old(sweets)[i + 1..]
        && |sweets| == |old(sweets)| - 1
        && (forall k :: 0 <= k < |sweets| ==> sweets[k].id != id)
        && r == Ok(())
    {
      var index := FindSweet(sweets, id);
      if index.None? {
        return Err(NotFound);
      }
      var i := index.value;
      var rest := sweets[..i] + sweets[i + 1..];
      Seqs.RemoveAtIsSubsequence(sweets, i);
      Seqs.SubsequenceKeysDistinct(rest, sweets, SweetId);
      Seqs.SubsequenceMembers(rest, sweets);
      forall k | 0 <= k < |rest| ensures rest[k].id != id {
        var j := if k < i then k else k + 1;
        assert rest[k] == sweets[j];
        assert SweetId(sweets[j]) != SweetId(sweets[i]);
      }
      sweets := rest;
      r := Ok(());
    }

    /** `mockPurchaseSweet`: 404 for an unknown id, 400 when the stock is below
        the quantity (nothing changes); otherwise the stock drops by exactly
        the quantity. */
    method PurchaseSweet(id: int, quantity: int, now: string) returns (r: Result<bool>)
      requires Valid()
      modifies this
      ensures Valid()
      ensures users == old(users) && nextSweetId == old(nextSweetId) && nextUserId == old(nextUserId)
      ensures FindSweet(old(sweets), id).None? ==> r == Err(NotFound) && sweets == old(sweets)
      ensures FindSweet(old(sweets), id).Some? ==>
        var i := FindSweet(old(sweets), id).value;
        if old(sweets)[i].quantity < quantity then
          r == Err(NotEnoughStock) && sweets == old(sweets)
        else
          && sweets == old(sweets)[i := old(sweets)[i].(quantity := old(sweets)[i].quantity - quantity, updatedAt := now)]
          && r == Ok(true)
    {
      var index := FindSweet(sweets, id);
      if index.None? {
        return Err(NotFound);
      }
      var i := index.value;
      if sweets[i].quantity < quantity {
        return Err(NotEnoughStock);
      }
      var bought := sweets[i].(quantity := sweets[i].quantity - quantity, updatedAt := now);
      Seqs.ReplaceKeepsKeysDistinct(sweets, i, bought, SweetId);
      sweets := sweets[i := bought];
      r := Ok(true);
    }

    /** `mockUpdateSweetQuantity`: 404 for an unknown id; otherwise the stock
        of that sweet is set to the new quantity. */
    method UpdateSweetQuantity(id: int, newQuantity: int, now: string) returns (r: Result<Sweet>)
      requires Valid()
      modifies this
      ensures Valid()
      ensures users == old(users) && nextSweetId == old(nextSweetId) && nextUserId == old(nextUserId)
      ensures FindSweet(old(sweets), id).None? ==> r == Err(NotFound) && sweets == old(sweets)
      ensures FindSweet(old(sweets), id).Some? ==>
        var i := FindSweet(old(sweets), id).value;
        && sweets == old(sweets)[i := old(sweets)[i].(quantity := newQuantity, updatedAt := now)]
        && r == Ok(sweets[i])
    {
      var index := FindSweet(sweets, id);
      if index.None? {
        return Err(NotFound);
      }
      var i := index.value;
      var updated := sweets[i].(quantity := newQuantity, updatedAt := now);
      Seqs.ReplaceKeepsKeysDistinct(sweets, i, updated, SweetId);
      sweets := sweets[i := updated];
      r := Ok(updated);
    }
  }

  /** A sweet with 2 in stock: buying 2 succeeds and leaves 0, a further
      purchase is refused with 400, and an unknown id with 404. */
  method PurchaseScenario(now: string)
  {
    var db := new MockBackend(now);
    var toffee := db.AddSweet(CreateSweetDto("Toffee", "Candies", 3, 2, None, None), now);
    assert toffee.id == 11 && db.sweets[0] == toffee;
    var first := db.PurchaseSweet(11, 2, now);
    assert first == Ok(true);
    assert db.sweets[0].quantity == 0;
    var second := db.PurchaseSweet(11, 1, now);
    assert second == Err(NotEnoughStock);
    var unknown := db.PurchaseSweet(0, 1, now);
    assert unknown == Err(NotFound);
  }

  /** Each seeded account logs in with the password "password" as itself,
      the admin with the admin role; a wrong password is refused with 401. */
  method SeededLoginScenario(now: string)
    returns (admin: Result<AuthResponse>, user: Result<AuthResponse>, demo: Result<AuthResponse>,
             wrong: Result<AuthResponse>)
    ensures admin == Ok(AuthResponse(User(1, "admin@example.com", "Admin", AdminRole, now), "mock-token-t0"))
    ensures user == Ok(AuthResponse(User(2, "user@example.com", "User", UserRole, now), "mock-token-t1"))
    ensures demo == Ok(AuthResponse(User(3, "demo@example.com", "Demo User", UserRole, now), "mock-token-t2"))
    ensures wrong == Err(BadCredentials)
  {
    var db := new MockBackend(now);
    var a, u, d := "admin@example.com", "user@example.com", "demo@example.com";
    assert a[0] != u[0] && a[0] != d[0] && u[0] != d[0];
    assert db.users[a] == SeedUser(1, a, "Admin", AdminRole, now);
    assert db.users[u] == SeedUser(2, u, "User", UserRole, now);
    assert db.users[d] == SeedUser(3, d, "Demo User", UserRole, now);
    assert "mock-token-" + "t0" == "mock-token-t0";
    assert "mock-token-" + "t1" == "mock-token-t1";
    assert "mock-token-" + "t2" == "mock-token-t2";
    admin := db.Login(a, "password", "t0");
    user := db.Login(u, "password", "t1");
    demo := db.Login(d, "password", "t2");
    wrong := db.Login(a, "admin", "t3");
  }

  /** A new account can log in with its password at once, not with another
      password; an unknown e-mail is refused with 401. */
  method RegisterThenLoginScenario(now: string)
  {
    var db := new MockBackend(now);
    var stranger := db.Login("new@example.com", "secret", "t0");
    assert stranger == Err(BadCredentials);
    var registered := db.Register("new@example.com", "secret", "New", "t1", now);
    assert registered.Ok? && registered.value.user.id == 4;
    var again := db.Register("new@example.com", "other", "Other", "t2", now);
    assert again == Err(EmailTaken);
    var wrong := db.Login("new@example.com", "other", "t3");
    assert wrong == Err(BadCredentials);
    var right := db.Login("new@example.com", "secret", "t4");
    assert right.Ok? && right.value.user.id == 4;
  }
}
