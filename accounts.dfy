/** The in-memory account and item store of the authentication demo API:
    two dictionaries (users by name, item lists by owner), the registration
    gates, password checks over password + salt, sequential item ids, and the
    read-only projections served by the protected and debug endpoints. */
module Accounts {
  import opened Wrappers

  const MinUsernameLength := 3
  const MinPasswordLength := 6
  /** The expiry create_access_token falls back to, in minutes. */
  const DefaultExpiryMinutes := 15

  datatype HttpError = HttpError(status: int, detail: string)

  const UsernameTaken := HttpError(400, "Username already registered")
  const UsernameTooShort := HttpError(400, "Username must be at least 3 characters long")
  const PasswordTooShort := HttpError(400, "Password must be at least 6 characters long")
  const LoginRefused := HttpError(401, "Incorrect username or password")
  const BadCredentials := HttpError(401, "Could not validate credentials")
  const DebugDisabled := HttpError(404, "Debug endpoints are disabled in production")
  const Registered := "User registered successfully"

  /** A value of fake_users_db. */
  datatype UserRecord = UserRecord(
    username: string,
    email: string,
    hashedPassword: string,
    salt: string,
    createdAt: string,
    isActive: bool)

  /** An element of a list in fake_items_db. */
  datatype StoredItem = StoredItem(
    id: int,
    name: string,
    description: string,
    owner: string,
    createdAt: string,
    isPublic: bool)

  /** The Item response model: a stored item without its metadata. */
  datatype ItemView = ItemView(id: int, name: string, description: string, owner: string)

  /** The User response model of /profile. */
  datatype Profile = Profile(username: string, email: string)

  /** The claims an access token carries; the JWT encoding itself is not modelled.
      Instants (exp, and the now it is computed from) are counted in minutes here,
      where the real "exp" claim counts whole seconds since the epoch. */
  datatype Claims = Claims(sub: string, exp: int)

  datatype Token = Token(claims: Claims, tokenType: string)

  datatype DebugListing = DebugListing(users: seq<string>, totalUsers: int)

  /** The password library's hash and verify operations. A hash may be
      randomised, so each registration is given the hash it used. */
  type Hasher = string -> string
  type Verifier = (string, string) -> bool

  /** Verification accepts every string against its own hash. */
  ghost predicate RoundTrips(hash: Hasher, verify: Verifier) {
    forall s :: verify(s, hash(s))
  }

  /** What is handed to the password library: the password followed by the
      salt, unless the salt is empty (Python's falsy salt). */
  function SaltedInput(password: string, salt: string): (r: string)
    ensures salt != "" ==> r == password + salt
    ensures salt == "" ==> r == password
  {
    if salt != "" then password + salt else password
  }

  /** get_password_hash */
  function PasswordHash(password: string, salt: string, hash: Hasher): string {
    hash(SaltedInput(password, salt))
  }

  /** verify_password */
  function VerifyPassword(plain: string, hashed: string, salt: string, verify: Verifier): bool {
    verify(SaltedInput(plain, salt), hashed)
  }

  /** A password verifies against the hash made of it with the same salt. */
  lemma HashThenVerify(password: string, salt: string, hash: Hasher, verify: Verifier)
    requires RoundTrips(hash, verify)
    ensures VerifyPassword(password, PasswordHash(password, salt, hash), salt, verify)
  {
  }

  /** authenticate_user: the stored record when the name is known and the
      password verifies against its hash and salt, else None. */
  function Authenticate(users: map<string, UserRecord>, username: string, password: string,
                        verify: Verifier): (r: Option<UserRecord>)
    ensures username !in users ==> r == None
    ensures r.Some? <==> (username in users
              && VerifyPassword(password, users[username].hashedPassword, users[username].salt, verify))
    ensures r.Some? ==> r.value == users[username]
  {
    if username !in users then None
    else
      var user := users[username];
      if !VerifyPassword(password, user.hashedPassword, user.salt, verify) then None
      else Some(user)
  }

  /** get_current_user over a decoded token: None stands for a token that does
      not decode or carries no "sub" claim. */
  function CurrentUser(users: map<string, UserRecord>, sub: Option<string>): (r: Result<UserRecord, HttpError>)
    ensures r.Ok? <==> sub.Some? && sub.value in users
    ensures r.Ok? ==> r.value == users[sub.value]
    ensures r.Err? ==> r.error == BadCredentials
  {
    match sub
    case None => Err(BadCredentials)
    case Some(username) =>
      if username in users then Ok(users[username]) else Err(BadCredentials)
  }

  /** The three registration gates, in the order register checks them. */
  function RegisterGate(users: map<string, UserRecord>, username: string, password: string): (r: Option<HttpError>)
    ensures r == None <==> username !in users && |username| >= MinUsernameLength && |password| >= MinPasswordLength
    ensures username in users ==> r == Some(UsernameTaken)
    ensures username !in users && |username| < MinUsernameLength ==> r == Some(UsernameTooShort)
    ensures (username !in users && |username| >= MinUsernameLength && |password| < MinPasswordLength)
              ==> r == Some(PasswordTooShort)
  {
    if username in users then Some(UsernameTaken)
    else if |username| < MinUsernameLength then Some(UsernameTooShort)
    else if |password| < MinPasswordLength then Some(PasswordTooShort)
    else None
  }

  /** The record register stores for a new user. */
  function NewUser(username: string, email: string, password: string, salt: string,
                   createdAt: string, hash: Hasher): UserRecord
  {
    UserRecord(username, email, PasswordHash(password, salt, hash), salt, createdAt, true)
  }

  /** fake_items_db.get(username, []) */
  function ItemsOf(items: map<string, seq<StoredItem>>, username: string): (r: seq<StoredItem>)
    ensures username in items ==> r == items[username]
    ensures username !in items ==> r == []
  {
    if username in items then items[username] else []
  }

  /** The item create_item appends to an owner's list. */
  function NewItem(list: seq<StoredItem>, owner: string, name: string, description: string,
                   createdAt: string): StoredItem
  {
    StoredItem(|list| + 1, name, description, owner, createdAt, false)
  }

  function View(item: StoredItem): ItemView {
    ItemView(item.id, item.name, item.description, item.owner)
  }

  /** The list comprehension of get_items: every stored item, in stored order. */
  function Views(list: seq<StoredItem>): (r: seq<ItemView>)
    ensures |r| == |list|
    ensures forall i :: 0 <= i < |list| ==>
              r[i].id == list[i].id && r[i].name == list[i].name
              && r[i].description == list[i].description && r[i].owner == list[i].owner
  {
    if list == [] then [] else [View(list[0])] + Views(list[1..])
  }

  /** An owner's list as create_item builds it: ids 1, 2, ... in order, every
      item owned by that owner and private. */
  ghost predicate WellFormedItems(list: seq<StoredItem>, owner: string) {
    forall i :: 0 <= i < |list| ==> list[i].id == i + 1 && list[i].owner == owner && !list[i].isPublic
  }

  /** The body of one create_item request. */
  datatype ItemRequest = ItemRequest(name: string, description: string, createdAt: string)

  /** An owner's list after create_item has served each request in turn. */
  function AppendAll(list: seq<StoredItem>, owner: string, requests: seq<ItemRequest>): (r: seq<StoredItem>)
    ensures |r| == |list| + |requests|
    ensures r[..|list|] == list
    decreases |requests|
  {
    if requests == [] then list
    else
      var r := requests[0];
      AppendAll(list + [NewItem(list, owner, r.name, r.description, r.createdAt)], owner, requests[1..])
  }

  /** Serving one more request appends exactly the item create_item would add
      to the list the earlier requests left behind. */
  lemma {:induction false} AppendAllStep(list: seq<StoredItem>, owner: string, requests: seq<ItemRequest>,
                                         r: ItemRequest)
    ensures var before := AppendAll(list, owner, requests);
            AppendAll(list, owner, requests + [r])
              == before + [NewItem(before, owner, r.name, r.description, r.createdAt)]
    decreases |requests|
  {
    if requests != [] {
      var q := requests[0];
      var next := list + [NewItem(list, owner, q.name, q.description, q.createdAt)];
      assert (requests + [r])[0] == q;
      assert (requests + [r])[1..] == requests[1..] + [r];
      AppendAllStep(next, owner, requests[1..], r);
    } else {
      assert [r][1..] == [];
    }
  }

  /** One create_item keeps a well-formed list well formed, with the new id one past the last. */
  lemma AppendKeepsWellFormed(list: seq<StoredItem>, owner: string, name: string, description: string,
                              createdAt: string)
    requires WellFormedItems(list, owner)
    ensures WellFormedItems(list + [NewItem(list, owner, name, description, createdAt)], owner)
  {
  }

  /** After n create_item calls on a well-formed list of k items, the list has
      k + n items, is still well formed, and item k + i is the i-th request. */
  lemma {:induction false} AppendAllSequential(list: seq<StoredItem>, owner: string, requests: seq<ItemRequest>)
    requires WellFormedItems(list, owner)
    ensures |AppendAll(list, owner, requests)| == |list| + |requests|
    ensures WellFormedItems(AppendAll(list, owner, requests), owner)
    ensures AppendAll(list, owner, requests)[..|list|] == list
    ensures forall i :: 0 <= i < |requests| ==>
              AppendAll(list, owner, requests)[|list| + i].id == |list| + i + 1
              && AppendAll(list, owner, requests)[|list| + i].name == requests[i].name
              && AppendAll(list, owner, requests)[|list| + i].description == requests[i].description
    decreases |requests|
  {
    if requests != [] {
      var r := requests[0];
      var next := list + [NewItem(list, owner, r.name, r.description, r.createdAt)];
      AppendKeepsWellFormed(list, owner, r.name, r.description, r.createdAt);
      AppendAllSequential(next, owner, requests[1..]);
      var result := AppendAll(list, owner, requests);
      assert result == AppendAll(next, owner, requests[1..]);
      assert result[..|list|] == next[..|next|][..|list|];
      forall i | 0 <= i < |requests|
        ensures result[|list| + i].id == |list| + i + 1
        ensures result[|list| + i].name == requests[i].name
        ensures result[|list| + i].description == requests[i].description
      {
        if i == 0 {
          assert result[|list|] == next[|list|];
        } else {
          assert result[|next| + (i - 1)] == result[|list| + i];
        }
      }
    }
  }

  /** A user who has created n items from an empty list sees ids exactly 1..n, in request order. */
  lemma CreatedFromEmpty(owner: string, requests: seq<ItemRequest>)
    ensures |AppendAll([], owner, requests)| == |requests|
    ensures forall i :: 0 <= i < |requests| ==>
              AppendAll([], owner, requests)[i].id == i + 1
              && AppendAll([], owner, requests)[i].name == requests[i].name
              && AppendAll([], owner, requests)[i].owner == owner
  {
    AppendAllSequential([], owner, requests);
    var result := AppendAll([], owner, requests);
    forall i | 0 <= i < |requests|
      ensures result[i].id == i + 1 && result[i].name == requests[i].name && result[i].owner == owner
    {
      assert result[0 + i] == result[i];
    }
  }

  /** The expiry create_access_token writes into the "exp" claim: now plus the
      given delta, or plus 15 minutes when the delta is absent or zero
      (a zero timedelta is falsy). */
  function TokenExpiry(now: int, delta: Option<int>): (exp: int)
    ensures delta.Some? && delta.value != 0 ==> exp == now + delta.value
    ensures delta == None || delta == Some(0) ==> exp == now + DefaultExpiryMinutes
  {
    if delta.Some? && delta.value != 0 then now + delta.value else now + DefaultExpiryMinutes
  }

  predicate Distinct(s: seq<string>) {
    forall i, j :: 0 <= i < j < |s| ==> s[i] != s[j]
  }

  /** A list without repetitions has as many elements as the set of its elements. */
  lemma {:induction false} DistinctCardinality(s: seq<string>)
    requires Distinct(s)
    ensures |set x | x in s| == |s|
  {
    if s != [] {
      var init := s[..|s| - 1];
      var last := s[|s| - 1];
      assert Distinct(init);
      DistinctCardinality(init);
      assert last !in init by {
        forall i | 0 <= i < |init| ensures init[i] != last {
          assert s[i] == init[i];
        }
      }
      assert (set x | x in s) == (set x | x in init) + {last} by {
        assert s == init + [last];
      }
    }
  }

  /** Registering a user and then authenticating with the same name and
      password yields the stored record, given a hash/verify pair that round-trips. */
  lemma RegisterThenAuthenticate(users: map<string, UserRecord>, username: string, email: string,
                                 password: string, salt: string, createdAt: string,
                                 hash: Hasher, verify: Verifier)
    requires RoundTrips(hash, verify)
    ensures var record := NewUser(username, email, password, salt, createdAt, hash);
            Authenticate(users[username := record], username, password, verify) == Some(record)
  {
  }

  /** The application state: the two dictionaries, and the insertion order of
      fake_users_db's keys (Python dictionaries keep it; debug_users lists it). */
  class AuthApp {
    var users: map<string, UserRecord>
    var userOrder: seq<string>
    var items: map<string, seq<StoredItem>>

    /** Every record is filed under its own name; only registered users own
        item lists, each built by create_item; userOrder lists each key once. */
    ghost predicate Valid()
      reads this
    {
      && (forall u :: u in users ==> users[u].username == u)
      && items.Keys <= users.Keys
      && (forall u :: u in items ==> WellFormedItems(items[u], u))
      && Distinct(userOrder)
      && (forall u :: u in users <==> u in userOrder)
    }

    /** Both dictionaries start empty. */
    constructor ()
      ensures Valid()
      ensures users == map[] && userOrder == [] && items == map[]
    {
      users, userOrder, items := map[], [], map[];
    }

    /** POST /register. The salt and creation time stand for generate_salt and
        the clock; hash is the password library's hash for this call. */
    method Register(username: string, password: string, email: string, salt: string,
                    createdAt: string, hash: Hasher) returns (r: Result<string, HttpError>)
      requires Valid()
      modifies this
      ensures Valid()
      ensures r.Err? <==> RegisterGate(old(users), username, password).Some?
      ensures r.Err? ==> (r.error == RegisterGate(old(users), username, password).value
                          && users == old(users) && items == old(items) && userOrder == old(userOrder))
      ensures r.Ok? ==> r.value == Registered
                        && users == old(users)[username := NewUser(username, email, password, salt, createdAt, hash)]
                        && items == old(items)[username := []]
                        && userOrder == old(userOrder) + [username]
    {
      if username in users {
        return Err(UsernameTaken);
      }
      if |username| < MinUsernameLength {
        return Err(UsernameTooShort);
      }
      if |password| < MinPasswordLength {
        return Err(PasswordTooShort);
      }
      users := users[username := NewUser(username, email, password, salt, createdAt, hash)];
      userOrder := userOrder + [username];
      items := items[username := []];
      r := Ok(Registered);
    }

    /** POST /login: a bearer token whose subject is the user's name, expiring
        expireMinutes (ACCESS_TOKEN_EXPIRE_MINUTES) after now. */
    function Login(username: string, password: string, verify: Verifier, now: int,
                   expireMinutes: int): (r: Result<Token, HttpError>)
      reads this
      ensures r.Ok? <==> Authenticate(users, username, password, verify).Some?
      ensures r.Err? ==> r.error == LoginRefused
      ensures r.Ok? ==> r.value.tokenType == "bearer"
                        && r.value.claims.sub == users[username].username
                        && r.value.claims.exp == TokenExpiry(now, Some(expireMinutes))
    {
      match Authenticate(users, username, password, verify)
      case None => Err(LoginRefused)
      case Some(user) => Ok(Token(Claims(user.username, TokenExpiry(now, Some(expireMinutes))), "bearer"))
    }

    /** GET /profile */
    function GetProfile(sub: Option<string>): (r: Result<Profile, HttpError>)
      reads this
      ensures r.Err? <==> CurrentUser(users, sub).Err?
      ensures r.Err? ==> r.error == BadCredentials
      ensures r.Ok? ==> r.value == Profile(users[sub.value].username, users[sub.value].email)
    {
      match CurrentUser(users, sub)
      case Err(e) => Err(e)
      case Ok(user) => Ok(Profile(user.username, user.email))
    }

    /** GET /items: the caller's items in stored order, or none when the caller has no list. */
    function GetItems(sub: Option<string>): (r: Result<seq<ItemView>, HttpError>)
      reads this
      requires Valid()
      ensures r.Err? <==> CurrentUser(users, sub).Err?
      ensures r.Err? ==> r.error == BadCredentials
      ensures r.Ok? ==> var list := ItemsOf(items, sub.value);
                        |r.value| == |list|
                        && forall i :: 0 <= i < |list| ==>
                             r.value[i].id == i + 1 && r.value[i].owner == sub.value
                             && r.value[i].name == list[i].name && r.value[i].description == list[i].description
    {
      match CurrentUser(users, sub)
      case Err(e) => Err(e)
      case Ok(user) =>
        var list := ItemsOf(items, user.username);
        assert WellFormedItems(list, user.username);
        Ok(Views(list))
    }

    /** POST /items: appends an item with the next id to the caller's list,
        creating the list when it is absent. */
    method CreateItem(sub: Option<string>, name: string, description: string, createdAt: string)
      returns (r: Result<ItemView, HttpError>)
      requires Valid()
      modifies this
      ensures Valid()
      ensures users == old(users) && userOrder == old(userOrder)
      ensures r.Err? <==> CurrentUser(old(users), sub).Err?
      ensures r.Err? ==> r.error == BadCredentials && items == old(items)
      ensures r.Ok? ==>
                var owner := sub.value;
                var before := ItemsOf(old(items), owner);
                var item := NewItem(before, owner, name, description, createdAt);
                && items == old(items)[owner := before + [item]]
                && r.value == ItemView(|before| + 1, name, description, owner)
    {
      var user := CurrentUser(users, sub);
      if user.Err? {
        return Err(user.error);
      }
      var owner := user.value.username;
      if owner !in items {
        items := items[owner := []];
      }
      var list := items[owner];
      var item := NewItem(list, owner, name, description, createdAt);
      AppendKeepsWellFormed(list, owner, name, description, createdAt);
      items := items[owner := list + [item]];
      r := Ok(View(item));
    }

    /** GET /debug/users: every registered name in registration order, and their number. */
    function DebugUsers(debug: bool): (r: Result<DebugListing, HttpError>)
      reads this
      requires Valid()
      ensures !debug <==> r.Err?
      ensures r.Err? ==> r.error == DebugDisabled
      ensures r.Ok? ==> r.value.users == userOrder
      ensures r.Ok? ==> r.value.totalUsers == |r.value.users|
                        && Distinct(r.value.users)
                        && forall u :: u in r.value.users <==> u in users
    {
      if !debug then Err(DebugDisabled)
      else
        DistinctCardinality(userOrder);
        assert (set x | x in userOrder) == users.Keys;
        Ok(DebugListing(userOrder, |users|))
    }

    /** GET /debug/items: the whole item dictionary. */
    function DebugItems(debug: bool): (r: Result<map<string, seq<StoredItem>>, HttpError>)
      reads this
      ensures !debug <==> r.Err?
      ensures r.Err? ==> r.error == DebugDisabled
      ensures r.Ok? ==> r.value == items
    {
      if !debug then Err(DebugDisabled) else Ok(items)
    }
  }

  /** A successful registration admits a login with the same name and password,
      whose token subject leads back to the new user's record and profile.
      users is the dictionary before register, app the application after it. */
  lemma RegisterLoginProfile(app: AuthApp, users: map<string, UserRecord>, username: string, email: string,
                             password: string, salt: string, createdAt: string,
                             hash: Hasher, verify: Verifier, now: int, expireMinutes: int)
    requires RoundTrips(hash, verify)
    requires app.users == users[username := NewUser(username, email, password, salt, createdAt, hash)]
    ensures var login := app.Login(username, password, verify, now, expireMinutes);
            && login.Ok? && login.value.claims.sub == username
            && CurrentUser(app.users, Some(login.value.claims.sub)) == Ok(app.users[username])
            && app.GetProfile(Some(login.value.claims.sub)) == Ok(Profile(username, email))
            && app.users[username].isActive
  {
    RegisterThenAuthenticate(users, username, email, password, salt, createdAt, hash, verify);
  }
}
