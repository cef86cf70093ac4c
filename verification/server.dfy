/** The three request handlers: `/signup`, `/login` and the protected
    `/farmer/data`, over the `Farmer` collection.

    The collection is a `FarmerStore` object; signup is the only handler
    that changes it. Login and the data endpoint only read it, so they are
    functions of the stored records. The outside world is handed in: the
    clock (`now`, seconds), bcrypt's random salt, the token signature check
    (`decode`) and the ThingSpeak service (`remote`). */
module Server {
  import opened Wrappers
  import opened Passwords
  import opened Tokens
  import opened Farmers
  import opened Http
  import opened Auth
  import opened Telemetry

  /** `req.body` of `/signup`; `None` is an absent field. */
  datatype SignupBody = SignupBody(
    username: Option<string>,
    name: Option<string>,
    email: Option<string>,
    password: Option<string>,
    thingspeakChannel: Option<string>,
    thingspeakApiKey: Option<string>)

  /** `req.body` of `/login`. */
  datatype LoginBody = LoginBody(username: Option<string>, email: Option<string>, password: Option<string>)

  /** JavaScript truthiness of an optional string: `JsValues.Truthy`
      restricted to strings, with `None` standing for `undefined`. */
  predicate Present(s: Option<string>) {
    s.Some? && s.value != ""
  }

  const DUPLICATE: Reply := Reply(400, Error("Username or email already registered"))
  const REGISTERED: Reply := Reply(200, Message("Farmer registered successfully!"))

  /** Whether signup's record gets through: `bcrypt.hash` throws on an
      absent password, and `save` rejects a missing or empty `username` or
      `email` (schema `required`). */
  predicate Storable(body: SignupBody) {
    body.password.Some? && Present(body.username) && Present(body.email)
  }

  /** The record signup stores for `body` under `id`. */
  function NewFarmer(id: nat, body: SignupBody, salt: nat): Farmer
    requires Storable(body)
  {
    Farmer(id, body.username.value, body.name, body.email.value, Hash(body.password.value, salt),
           body.thingspeakChannel, body.thingspeakApiKey)
  }

  /** The `Farmer` collection. `nextId` stands for the store's supply of
      fresh `_id` values. */
  class FarmerStore {
    var farmers: seq<Farmer>
    var nextId: nat

    /** Unique usernames, emails and ids; every id already handed out; the
        required fields non-empty. */
    ghost predicate Valid()
      reads this
    {
      && Unique(farmers)
      && (forall k :: 0 <= k < |farmers| ==> farmers[k].id < nextId)
      && (forall k :: 0 <= k < |farmers| ==> farmers[k].username != "" && farmers[k].email != "")
    }

    constructor ()
      ensures Valid() && farmers == []
    {
      farmers := [];
      nextId := 0;
    }

    /** `POST /signup`: reject a username or email already taken, hash the
        password, store the new record. `salt` is bcrypt's random salt. */
    method Signup(body: SignupBody, salt: nat) returns (reply: Reply)
      requires Valid()
      modifies this
      ensures Valid()
      ensures FindOne(old(farmers), body.username, body.email).Some? ==>
                reply == DUPLICATE && farmers == old(farmers) && nextId == old(nextId)
      ensures FindOne(old(farmers), body.username, body.email).None? && !Storable(body) ==>
                reply == SERVER_ERROR && farmers == old(farmers) && nextId == old(nextId)
      ensures FindOne(old(farmers), body.username, body.email).None? && Storable(body) ==>
                reply == REGISTERED && farmers == old(farmers) + [NewFarmer(old(nextId), body, salt)]
                && nextId == old(nextId) + 1
    {
      var existingUser := FindOne(farmers, body.username, body.email);
      if existingUser.Some? {
        return DUPLICATE;
      }
      if body.password.None? {
        // bcrypt.hash rejects an undefined password
        return SERVER_ERROR;
      }
      var hashedPassword := Hash(body.password.value, salt);
      if !Present(body.username) || !Present(body.email) {
        // save() fails schema validation
        return SERVER_ERROR;
      }
      var farmer := Farmer(nextId, body.username.value, body.name, body.email.value, hashedPassword,
                           body.thingspeakChannel, body.thingspeakApiKey);
      assert FindById(farmers, nextId).None?;
      InsertPreservesUnique(farmers, farmer);
      farmers := farmers + [farmer];
      nextId := nextId + 1;
      reply := REGISTERED;
    }
  }

  const MISSING_CREDENTIALS: Reply := Reply(400, Error("Provide username/email and password"))
  const UNKNOWN_USER: Reply := Reply(400, Error("Invalid username or email"))
  const WRONG_PASSWORD: Reply := Reply(400, Error("Invalid password"))

  /** Record `k` is the one `findOne` returns: the first that matches. */
  predicate FirstMatch(farmers: seq<Farmer>, k: nat, username: Option<string>, email: Option<string>)
    requires k < |farmers|
  {
    Matches(farmers[k], username, email) && forall j :: 0 <= j < k ==> !Matches(farmers[j], username, email)
  }

  /** The login input check: a truthy password and a truthy username or email. */
  predicate CredentialsGiven(body: LoginBody) {
    Present(body.password) && (Present(body.username) || Present(body.email))
  }

  /** `POST /login` against the stored records at time `now`. */
  function Login(farmers: seq<Farmer>, body: LoginBody, now: nat): (r: Reply)
    ensures !CredentialsGiven(body) ==> r == MISSING_CREDENTIALS
    ensures r == UNKNOWN_USER <==>
              CredentialsGiven(body) && forall k :: 0 <= k < |farmers| ==> !Matches(farmers[k], body.username, body.email)
    ensures r == WRONG_PASSWORD <==>
              CredentialsGiven(body)
              && exists k :: 0 <= k < |farmers| && FirstMatch(farmers, k, body.username, body.email)
                             && !Compare(body.password.value, farmers[k].password)
    ensures r.status == 200 <==>
              CredentialsGiven(body)
              && exists k :: 0 <= k < |farmers| && FirstMatch(farmers, k, body.username, body.email)
                             && Compare(body.password.value, farmers[k].password)
    ensures r.status == 200 ==>
              exists k :: 0 <= k < |farmers| && FirstMatch(farmers, k, body.username, body.email)
                          && r.body == LoginSuccess("Login successful", Issue(farmers[k].id, now),
                                                    WithoutPassword(farmers[k]))
    ensures r.status in {200, 400}
  {
    if !CredentialsGiven(body) then MISSING_CREDENTIALS
    else
      match FindOne(farmers, body.username, body.email)
      case None => UNKNOWN_USER
      case Some(farmer) =>
        if !Compare(body.password.value, farmer.password) then WRONG_PASSWORD
        else Reply(200, LoginSuccess("Login successful", Issue(farmer.id, now), WithoutPassword(farmer)))
  }

  /** What the data endpoint answered, and the ThingSpeak request it issued
      on the way (`None` when it made no outbound call). */
  datatype DataOutcome = DataOutcome(reply: Reply, request: Option<FetchRequest>)

  const NOT_FOUND: Reply := Reply(404, Error("Farmer not found"))
  const CREDENTIALS_MISSING := "Thingspeak credentials missing for this user"
  const NO_DATA := "No Thingspeak data available"
  const FETCH_FAILED := "Unable to fetch Thingspeak data"

  /** Whether the farmer has both ThingSpeak settings (both truthy). */
  predicate Configured(f: Farmer) {
    Present(f.thingspeakChannel) && Present(f.thingspeakApiKey)
  }

  /** The request for the latest entry of the farmer's channel. */
  function LatestEntryRequest(f: Farmer): FetchRequest
    requires Configured(f)
  {
    FetchRequest(f.thingspeakChannel.value, f.thingspeakApiKey.value, 1)
  }

  /** `feeds?.[0]` and `channel`, when both are there. */
  predicate HasData(p: Payload) {
    p.feeds.Some? && |p.feeds.value| > 0 && p.channel.Some?
  }

  /** The handler of `GET /farmer/data`, run for the account id the gate
      let through. */
  function FarmerData(farmers: seq<Farmer>, userId: nat, remote: FetchRequest -> Result<Payload, string>): (o: DataOutcome)
    ensures FindById(farmers, userId).None? ==> o == DataOutcome(NOT_FOUND, None)
    ensures o.request.Some? <==> FindById(farmers, userId).Some? && Configured(FindById(farmers, userId).value)
    ensures o.request.Some? ==> o.request.value == LatestEntryRequest(FindById(farmers, userId).value)
    ensures FindById(farmers, userId).Some? ==>
              var farmer := WithoutPassword(FindById(farmers, userId).value);
              && (o.reply.status == 400 <==> o.request.None?)
              && (o.reply.status == 400 ==> o.reply.body == ErrorWithFarmer(CREDENTIALS_MISSING, farmer))
              && (o.reply.status == 502 <==> o.request.Some? && remote(o.request.value).Failure?)
              && (o.reply.status == 502 ==> o.reply.body == ErrorWithFarmer(FETCH_FAILED, farmer))
              && (o.reply.status == 404 <==>
                    o.request.Some? && remote(o.request.value).Success? && !HasData(remote(o.request.value).value))
              && (o.reply.status == 404 ==> o.reply.body == ErrorWithFarmer(NO_DATA, farmer))
              && (o.reply.status == 200 ==>
                    o.request.Some? && remote(o.request.value).Success?
                    && var p := remote(o.request.value).value;
                    HasData(p) && o.reply.body == FarmerReadings(farmer, SensorMap(p.channel.value, p.feeds.value[0])))
    ensures o.reply.status in {200, 400, 404, 502}
  {
    match FindById(farmers, userId)
    case None => DataOutcome(NOT_FOUND, None)
    case Some(f) =>
      var farmer := WithoutPassword(f);
      if !Configured(f) then DataOutcome(Reply(400, ErrorWithFarmer(CREDENTIALS_MISSING, farmer)), None)
      else
        var request := LatestEntryRequest(f);
        match remote(request)
        case Failure(_) => DataOutcome(Reply(502, ErrorWithFarmer(FETCH_FAILED, farmer)), Some(request))
        case Success(p) =>
          if !HasData(p) then DataOutcome(Reply(404, ErrorWithFarmer(NO_DATA, farmer)), Some(request))
          else DataOutcome(Reply(200, FarmerReadings(farmer, SensorMap(p.channel.value, p.feeds.value[0]))), Some(request))
  }

  /** `GET /farmer/data`: the gate, then the handler. */
  function FarmerDataRoute(farmers: seq<Farmer>, header: Option<string>, decode: string -> Option<Claims>, now: nat,
                           remote: FetchRequest -> Result<Payload, string>): (o: DataOutcome)
    ensures o.reply.status in {401, 403} <==> AuthGate(header, decode, now).Deny?
    ensures o.reply.status in {401, 403} ==> o.request.None?
    ensures AuthGate(header, decode, now).Deny? ==> o == DataOutcome(AuthGate(header, decode, now).reply, None)
    ensures AuthGate(header, decode, now).Allow? ==>
              o == FarmerData(farmers, AuthGate(header, decode, now).userId, remote)
  {
    match AuthGate(header, decode, now)
    case Deny(reply) => DataOutcome(reply, None)
    case Allow(userId) => FarmerData(farmers, userId, remote)
  }

  /** A successful signup makes login succeed: after a farmer is stored for
      `body` under a fresh id, logging in with its username or with its
      email and the same password answers 200 with a token for that id and
      the stored record without its password. */
  lemma SignupThenLogin(farmers: seq<Farmer>, id: nat, body: SignupBody, salt: nat, now: nat)
    requires Unique(farmers) && FindById(farmers, id).None?
    requires FindOne(farmers, body.username, body.email).None? && Storable(body)
    requires body.password.value != ""
    ensures var f := NewFarmer(id, body, salt);
            var success := Reply(200, LoginSuccess("Login successful", Issue(id, now), WithoutPassword(f)));
            && Login(farmers + [f], LoginBody(body.username, None, body.password), now) == success
            && Login(farmers + [f], LoginBody(None, body.email, body.password), now) == success
  {
    var f := NewFarmer(id, body, salt);
    InsertPreservesUnique(farmers, f);
    FindOwnRecord(farmers + [f], |farmers|);
    CompareHash(body.password.value, body.password.value, salt);
  }

  /** Login refuses an empty password before looking at the store. */
  lemma EmptyPasswordRefused(farmers: seq<Farmer>, body: LoginBody, now: nat)
    requires body.password == Some("")
    ensures Login(farmers, body, now) == MISSING_CREDENTIALS
  {
  }

  /** Signup accepts an empty password (it is hashed and stored). Under the
      exact compare of `Passwords`, a hash of `""` accepts only `""`, which
      login refuses up front, so no successful login returns that farmer or
      a token for its id. bcrypt's own compare is looser (a NUL-only
      password matches the hash of `""`), so this holds of the model only. */
  lemma EmptyPasswordLockedOut(farmers: seq<Farmer>, k: nat, salt: nat, body: LoginBody, now: nat)
    requires Unique(farmers) && k < |farmers| && farmers[k].password == Hash("", salt)
    ensures Login(farmers, body, now).status == 200 ==>
              Login(farmers, body, now).body.farmer.id != farmers[k].id
              && Login(farmers, body, now).body.token.id != farmers[k].id
  {
    var r := Login(farmers, body, now);
    if r.status == 200 {
      var j :| 0 <= j < |farmers| && FirstMatch(farmers, j, body.username, body.email)
               && Compare(body.password.value, farmers[j].password)
               && r.body == LoginSuccess("Login successful", Issue(farmers[j].id, now), WithoutPassword(farmers[j]));
      assert body.password.value != "";
      CompareHash("", body.password.value, salt);
      assert j != k;
    }
  }

  /** A token from a successful login opens `/farmer/data` for one hour: the
      gate lets the `Bearer` header through as the logged-in farmer and the
      handler finds that farmer, so the reply is the handler's answer for
      that record (never 401, 403 or "Farmer not found"). */
  lemma LoginThenFarmerData(farmers: seq<Farmer>, body: LoginBody, issuedAt: nat, token: string,
                            decode: string -> Option<Claims>, now: nat,
                            remote: FetchRequest -> Result<Payload, string>)
    requires Unique(farmers)
    requires Login(farmers, body, issuedAt).status == 200
    requires NoSpace(token) && token != ""
    requires decode(token) == Some(Login(farmers, body, issuedAt).body.token)
    requires now < issuedAt + TOKEN_LIFETIME
    ensures var o := FarmerDataRoute(farmers, Some("Bearer " + token), decode, now, remote);
            && o.reply != NOT_FOUND && o.reply.status !in {401, 403}
            && o.reply.body.farmer == Login(farmers, body, issuedAt).body.farmer
  {
    var k :| 0 <= k < |farmers| && FirstMatch(farmers, k, body.username, body.email)
             && Login(farmers, body, issuedAt).body == LoginSuccess("Login successful", Issue(farmers[k].id, issuedAt),
                                                                   WithoutPassword(farmers[k]));
    BearerTokenLifetime(token, decode, farmers[k].id, issuedAt, now);
    FindOwnRecord(farmers, k);
  }
}
