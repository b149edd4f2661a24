/**
 * The decisions of backend/routes/auth.js: the `/btc-price` provider
 * fallback, the Bearer-header and role gate of `/admin/users`, the
 * credential check and login record of `/login`, and the duplicate check of
 * `/register`.
 *
 * Network replies, token verification and password comparison are
 * parameters, and so is the descriptor `parseUserInfo` (the Helpers module)
 * gives for the request; the user collection is a store object holding the
 * user documents, which the handlers update in place.
 */
module AuthRoutes {
  import opened Wrappers
  import opened Text
  import opened RequestInfo
  import Helpers

  // ---------------------------------------------------------------------
  // GET /btc-price
  // ---------------------------------------------------------------------

  /** The price property of a provider's JSON reply. */
  datatype PriceField = Missing | Number(value: real) | NotNumber

  /** A provider call: it failed (network error, timeout, error status) or answered with a price property. */
  datatype Reply = Failed | Answered(field: PriceField)

  /** The price sent back: a number written with two decimals, or a fixed text. */
  datatype Price = Fixed2(amount: real) | Literal(text: string)

  datatype PriceResponse = PriceResponse(success: bool, price: Price, source: string)

  const StaticPrice: string := "86629.41"

  /**
   * CoinGecko's `bitcoin.usd` is used when it is truthy and `toFixed`
   * applies: a number other than zero. Zero is falsy and falls through; so
   * does anything that is not a number, which either fails the truthiness
   * test or makes `toFixed` throw.
   */
  predicate CoinGeckoUsable(reply: Reply) {
    reply.Answered? && reply.field.Number? && reply.field.value != 0.0
  }

  /** Blockchain's `last_trade_price` is used whenever `toFixed` applies: any number, zero included. */
  predicate BlockchainUsable(reply: Reply) {
    reply.Answered? && reply.field.Number?
  }

  /** The first usable provider supplies the price; the static text is the last resort. */
  function BtcPrice(coinGecko: Reply, blockchain: Reply): (r: PriceResponse)
    ensures r.success
    ensures r.source == "CoinGecko" <==> CoinGeckoUsable(coinGecko)
    ensures r.source == "Blockchain" <==> !CoinGeckoUsable(coinGecko) && BlockchainUsable(blockchain)
    ensures r.source == "Static Fallback" <==> !CoinGeckoUsable(coinGecko) && !BlockchainUsable(blockchain)
    ensures r.price.Fixed2? <==> r.source != "Static Fallback"
    ensures r.source == "CoinGecko" ==> r.price.amount == coinGecko.field.value
    ensures r.source == "Blockchain" ==> r.price.amount == blockchain.field.value
    ensures r.source == "Static Fallback" ==> r.price == Literal(StaticPrice)
  {
    if CoinGeckoUsable(coinGecko) then
      PriceResponse(true, Fixed2(coinGecko.field.value), "CoinGecko")
    else if BlockchainUsable(blockchain) then
      PriceResponse(true, Fixed2(blockchain.field.value), "Blockchain")
    else
      PriceResponse(true, Literal(StaticPrice), "Static Fallback")
  }

  /** When CoinGecko answers with a usable price, Blockchain's reply makes no difference. */
  lemma SecondProviderIgnored(coinGecko: Reply, b1: Reply, b2: Reply)
    requires CoinGeckoUsable(coinGecko)
    ensures BtcPrice(coinGecko, b1) == BtcPrice(coinGecko, b2)
    ensures BtcPrice(coinGecko, b1).source == "CoinGecko"
  {
  }

  /**
   * A price of zero is refused from CoinGecko but accepted from Blockchain;
   * when neither provider gives a number the static text is sent.
   */
  lemma ZeroPrice(blockchain: Reply)
    ensures BtcPrice(Answered(Number(0.0)), blockchain) == BtcPrice(Failed, blockchain)
    ensures BtcPrice(Failed, Answered(Number(0.0))) == PriceResponse(true, Fixed2(0.0), "Blockchain")
    ensures BtcPrice(Failed, Failed) == PriceResponse(true, Literal(StaticPrice), "Static Fallback")
  {
  }

  // ---------------------------------------------------------------------
  // User documents and the login record.
  // ---------------------------------------------------------------------

  datatype Location = Location(country: string, city: string, region: Option<string>)

  /** `user.lastLogin` (its timestamp is not modelled). */
  datatype LoginRecord = LoginRecord(ip: string, browser: string, os: string, device: string)

  /** An element of `user.loginHistory` (its timestamp is not modelled). */
  datatype HistoryEntry = HistoryEntry(ip: string, browser: string, os: string, device: string, location: Location)

  function LoginOf(info: Helpers.UserInfo): LoginRecord {
    LoginRecord(info.ip, info.browser, info.os, info.device)
  }

  /** The location of a descriptor; the error record has no region. */
  function LocationOf(info: Helpers.UserInfo): Location {
    match info
    case Parsed(_, _, geo, _, _, _, _) => Location(geo.country, geo.city, Some(geo.region))
    case ParseError(_, country, city, _, _, _) => Location(country, city, None)
  }

  function EntryOf(info: Helpers.UserInfo): HistoryEntry {
    HistoryEntry(info.ip, info.browser, info.os, info.device, LocationOf(info))
  }

  /** A history entry and a login record describe the same client. */
  predicate Agrees(e: HistoryEntry, login: LoginRecord) {
    e.ip == login.ip && e.browser == login.browser && e.os == login.os && e.device == login.device
  }

  /** Everything a user document holds, as a value. */
  datatype Profile = Profile(
    id: string, username: string, email: string, password: string, role: string,
    signupInfo: Helpers.UserInfo, lastLogin: Option<LoginRecord>, loginHistory: seq<HistoryEntry>)

  class UserDoc {
    const id: string
    var username: string
    var email: string
    var password: string
    var role: string
    var signupInfo: Helpers.UserInfo
    var lastLogin: Option<LoginRecord>
    var loginHistory: seq<HistoryEntry>

    /**
     * The newest history entry records the same client as `lastLogin`, and a
     * document that was never logged into has neither.
     */
    predicate Valid()
      reads this
    {
      && (lastLogin.None? <==> loginHistory == [])
      && (lastLogin.Some? ==> Agrees(loginHistory[|loginHistory| - 1], lastLogin.value))
    }

    function Snapshot(): Profile
      reads this
    {
      Profile(id, username, email, password, role, signupInfo, lastLogin, loginHistory)
    }

    /** `new User({ username, email, password, signupInfo })`, with the schema's default role. */
    constructor (id: string, username: string, email: string, password: string, role: string,
                 signupInfo: Helpers.UserInfo)
      ensures Valid()
      ensures Snapshot() == Profile(id, username, email, password, role, signupInfo, None, [])
    {
      this.id := id;
      this.username := username;
      this.email := email;
      this.password := password;
      this.role := role;
      this.signupInfo := signupInfo;
      this.lastLogin := None;
      this.loginHistory := [];
    }

    /**
     * `user.lastLogin = …` and `user.loginHistory.push(…)`: the login record
     * is overwritten and exactly one entry, describing the same client, is
     * appended; nothing else changes.
     */
    method RecordLogin(info: Helpers.UserInfo)
      modifies this
      ensures Valid()
      ensures lastLogin == Some(LoginOf(info))
      ensures loginHistory == old(loginHistory) + [EntryOf(info)]
      ensures Snapshot() == old(Snapshot()).(lastLogin := lastLogin, loginHistory := loginHistory)
    {
      lastLogin := Some(LoginOf(info));
      loginHistory := loginHistory + [EntryOf(info)];
    }
  }

  // ---------------------------------------------------------------------
  // The user collection and the handlers that read or change it.
  // ---------------------------------------------------------------------

  /** What the verified token carries that the handler reads. */
  datatype Claims = Claims(userId: string)

  /** A user as listed to an admin: the document without password and login history. */
  datatype UserView = UserView(id: string, username: string, email: string, role: string,
                               signupInfo: Helpers.UserInfo, lastLogin: Option<LoginRecord>)

  datatype AdminReply = AdminDenied(status: nat, message: string) | UserList(users: seq<UserView>)
  datatype LoginReply = LoginDenied(status: nat, message: string) | LoggedIn(id: string, username: string, email: string, role: string)
  datatype RegisterReply = RegisterDenied(status: nat, message: string) | Registered(id: string, username: string, email: string, role: string)

  const InvalidCredentials: string := "Invalid credentials"

  /** The key a lookup matches on. */
  datatype Key = ById | ByEmail

  function KeyOf(u: UserDoc, key: Key): string
    reads u
  {
    match key
    case ById => u.id
    case ByEmail => u.email
  }

  function ViewOf(u: UserDoc): UserView
    reads u
  {
    UserView(u.id, u.username, u.email, u.role, u.signupInfo, u.lastLogin)
  }

  /** The text after `Bearer ` up to the next blank: `authHeader.split(' ')[1]`. */
  function BearerToken(header: string): (token: string)
    requires StartsWith(header, "Bearer ")
    ensures token == Split(header[7..], ' ')[0]
    ensures ' ' !in token && token <= header[7..]
  {
    assert header[6] == ' ';
    BearerSplit(header);
    Split(header, ' ')[1]
  }

  /** A header starting with `Bearer ` splits into the word `Bearer` and the pieces of the rest. */
  lemma BearerSplit(header: string)
    requires StartsWith(header, "Bearer ")
    ensures Split(header, ' ') == ["Bearer"] + Split(header[7..], ' ')
  {
    assert header[..7] == "Bearer ";
    assert header[..6] == "Bearer";
    IndexOfCharFirst(header, ' ', 6);
    SplitCons(header, ' ', 6);
  }

  /** A profile as listed to an admin. */
  function ViewOfProfile(p: Profile): UserView {
    UserView(p.id, p.username, p.email, p.role, p.signupInfo, p.lastLogin)
  }

  /** The views of a collection, newest (last inserted) first. */
  function NewestFirst(ps: seq<Profile>): seq<UserView> {
    if ps == [] then [] else [ViewOfProfile(ps[|ps| - 1])] + NewestFirst(ps[..|ps| - 1])
  }

  lemma {:induction false} NewestFirstAt(ps: seq<Profile>)
    ensures |NewestFirst(ps)| == |ps|
    ensures forall k :: 0 <= k < |ps| ==> NewestFirst(ps)[k] == ViewOfProfile(ps[|ps| - 1 - k])
  {
    if ps != [] {
      var init := ps[..|ps| - 1];
      var rest := NewestFirst(init);
      NewestFirstAt(init);
      assert NewestFirst(ps) == [ViewOfProfile(ps[|ps| - 1])] + rest;
      forall k | 0 <= k < |ps|
        ensures NewestFirst(ps)[k] == ViewOfProfile(ps[|ps| - 1 - k])
      {
        if k > 0 {
          assert NewestFirst(ps)[k] == rest[k - 1];
          assert init[|init| - 1 - (k - 1)] == ps[|ps| - 1 - k];
        }
      }
    }
  }

  /** A sequence showing, at each position `k`, the profile `k`-th from last is the newest-first listing. */
  lemma NewestFirstMatches(ps: seq<Profile>, r: seq<UserView>)
    requires |r| == |ps| && forall k :: 0 <= k < |ps| ==> r[k] == ViewOfProfile(ps[|ps| - 1 - k])
    ensures r == NewestFirst(ps)
  {
    NewestFirstAt(ps);
  }

  /**
   * A document added to the collection heads the admin listing, in front of
   * the listing as it was: with `Register` appending to the profiles, the
   * newest registration is listed first.
   */
  lemma {:induction false} NewestFirstAppend(ps: seq<Profile>, p: Profile)
    ensures NewestFirst(ps + [p]) == [ViewOfProfile(p)] + NewestFirst(ps)
  {
    assert (ps + [p])[..|ps|] == ps;
  }

  class UserStore {
    var users: seq<UserDoc>
    /** The role a new document gets from the schema. */
    const defaultRole: string

    /** The documents are distinct objects, each keeping its login record consistent. */
    predicate Valid()
      reads this, users
    {
      && (forall i, j :: 0 <= i < j < |users| ==> users[i] != users[j])
      && (forall i :: 0 <= i < |users| ==> users[i].Valid())
    }

    /** The collection as values, in insertion order. */
    function Profiles(): (r: seq<Profile>)
      reads this, users
      ensures |r| == |users| && forall i :: 0 <= i < |users| ==> r[i] == users[i].Snapshot()
    {
      seq(|users|, i reads this, users requires 0 <= i < |users| => users[i].Snapshot())
    }

    constructor (defaultRole: string)
      ensures Valid() && users == [] && this.defaultRole == defaultRole
    {
      users := [];
      this.defaultRole := defaultRole;
    }

    /** `findOne` on one key: the first document, from `from` on, whose key equals `value`. */
    function Find(key: Key, value: string, from: nat): (r: Option<nat>)
      reads this, users
      decreases |users| - from
      ensures r.Some? ==> from <= r.value < |users| && KeyOf(users[r.value], key) == value
      ensures r.Some? ==> forall j :: from <= j < r.value ==> KeyOf(users[j], key) != value
      ensures r.None? ==> forall j :: from <= j < |users| ==> KeyOf(users[j], key) != value
    {
      if from >= |users| then None
      else if KeyOf(users[from], key) == value then Some(from)
      else Find(key, value, from + 1)
    }

    /** `findOne({ $or: [{ email }, { username }] })` finds a document. */
    predicate Taken(email: string, username: string)
      reads this, users
    {
      exists i :: 0 <= i < |users| && (users[i].email == email || users[i].username == username)
    }

    /** The requester named by the token exists and has the role `admin`. */
    predicate IsAdmin(userId: string)
      reads this, users
    {
      var found := Find(ById, userId, 0);
      found.Some? && users[found.value].role == "admin"
    }

    /** `find().select('-password -loginHistory').sort({ createdAt: -1 })`: newest document first. */
    function Listing(): (r: seq<UserView>)
      reads this, users
      ensures |r| == |users|
      ensures r == NewestFirst(Profiles())
    {
      var ps := Profiles();
      var r := seq(|ps|, k requires 0 <= k < |ps| => ViewOfProfile(ps[|ps| - 1 - k]));
      NewestFirstMatches(ps, r);
      r
    }

    /**
     * GET /admin/users: 401 without a `Bearer ` header or when the token
     * does not verify, 403 unless the token names an existing admin, and the
     * listing otherwise.
     */
    function AdminUsers(header: Option<string>, verify: string -> Option<Claims>): (r: AdminReply)
      reads this, users
      ensures !(Truthy(header) && StartsWith(header.value, "Bearer ")) ==> r == AdminDenied(401, "Unauthorized")
      ensures Truthy(header) && StartsWith(header.value, "Bearer ") && verify(BearerToken(header.value)).None?
              ==> r == AdminDenied(401, "Token invalid or expired")
      ensures Truthy(header) && StartsWith(header.value, "Bearer ") && verify(BearerToken(header.value)).Some?
              ==> (r.UserList? <==> IsAdmin(verify(BearerToken(header.value)).value.userId))
      ensures Truthy(header) && StartsWith(header.value, "Bearer ") && verify(BearerToken(header.value)).Some?
              && !IsAdmin(verify(BearerToken(header.value)).value.userId)
              ==> r == AdminDenied(403, "Access denied: Admins only")
      ensures r.AdminDenied? ==> r.status == 401 || r == AdminDenied(403, "Access denied: Admins only")
      ensures r.UserList? ==> r.users == Listing()
    {
      if !Truthy(header) || !StartsWith(header.value, "Bearer ") then AdminDenied(401, "Unauthorized")
      else
        match verify(BearerToken(header.value))
        case None => AdminDenied(401, "Token invalid or expired")
        case Some(claims) =>
          if !IsAdmin(claims.userId) then AdminDenied(403, "Access denied: Admins only")
          else UserList(Listing())
    }

    /**
     * POST /login: an unknown email and a wrong password give the same 401
     * and change nothing; otherwise the document found records the login.
     */
    method Login(email: string, password: string, info: Helpers.UserInfo,
                 passwordMatches: (string, string) -> bool)
      returns (reply: LoginReply)
      requires Valid()
      modifies users
      ensures Valid() && users == old(users)
      ensures old(Find(ByEmail, email, 0)).None? ==> reply == LoginDenied(401, InvalidCredentials)
      ensures reply.LoginDenied? ==> reply == LoginDenied(401, InvalidCredentials) && Profiles() == old(Profiles())
      ensures reply.LoggedIn? <==>
        var found := old(Find(ByEmail, email, 0));
        found.Some? && passwordMatches(old(Profiles())[found.value].password, password)
      ensures reply.LoggedIn? ==>
        var i := old(Find(ByEmail, email, 0)).value;
        var was := old(Profiles())[i];
        && reply == LoggedIn(was.id, was.username, was.email, was.role)
        && Profiles() == old(Profiles())[i := was.(lastLogin := Some(LoginOf(info)),
                                                  loginHistory := was.loginHistory + [EntryOf(info)])]
    {
      var found := Find(ByEmail, email, 0);
      if found.None? {
        return LoginDenied(401, InvalidCredentials);
      }
      var user := users[found.value];
      if !passwordMatches(user.password, password) {
        return LoginDenied(401, InvalidCredentials);
      }
      user.RecordLogin(info);
      reply := LoggedIn(user.id, user.username, user.email, user.role);
    }

    /**
     * POST /register: refused with 400 when any document has the email or
     * the username; otherwise a new document is appended and is the one a
     * lookup by that email finds.
     */
    method Register(username: string, email: string, password: string, newId: string, info: Helpers.UserInfo)
      returns (reply: RegisterReply)
      requires Valid()
      modifies this
      ensures Valid()
      ensures old(Taken(email, username)) ==> reply == RegisterDenied(400, "User exists") && users == old(users)
      ensures !old(Taken(email, username)) ==>
        && reply == Registered(newId, username, email, defaultRole)
        && |users| == |old(users)| + 1 && users[..|old(users)|] == old(users) && fresh(users[|old(users)|])
        && Profiles() == old(Profiles()) + [Profile(newId, username, email, password, defaultRole, info, None, [])]
        && Find(ByEmail, email, 0) == Some(|old(users)|)
    {
      if Taken(email, username) {
        return RegisterDenied(400, "User exists");
      }
      var user := new UserDoc(newId, username, email, password, defaultRole, info);
      Append(user);
      reply := Registered(newId, username, email, defaultRole);
      var n := |old(users)|;
      forall j | 0 <= j < n
        ensures KeyOf(users[j], ByEmail) != email
      {
        assert users[j] == old(users)[j];
      }
      assert KeyOf(users[n], ByEmail) == email;
      ghost var found := Find(ByEmail, email, 0);
      assert found.Some? && found.value == n;
    }

    /** `save()` of a new document: it joins the collection after every existing one. */
    method Append(user: UserDoc)
      requires Valid() && user.Valid() && user !in users
      modifies this
      ensures Valid()
      ensures users == old(users) + [user]
      ensures Profiles() == old(Profiles()) + [user.Snapshot()]
    {
      ghost var before := Profiles();
      users := users + [user];
      forall i | 0 <= i < |before|
        ensures users[i].Snapshot() == before[i]
      {
        assert users[i] == old(users)[i];
      }
    }
  }
}
