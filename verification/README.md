# Smart Farm API: a Dafny model of its request handlers

The Smart Farm API is a small Express/MongoDB server. It registers farmers,
logs them in with a password and issues a one-hour JSON Web Token. For a
logged-in farmer it proxies the latest reading of their ThingSpeak channel.
This project models that core in Dafny and proves what the handlers promise:

- which status code and body each request gets;
- when the `Farmer` collection changes, and how;
- that the collection keeps unique usernames and emails;
- that returned farmer records lose only the password field;
- how ThingSpeak's eight numbered slots (`field1` .. `field8`) become a
  name-to-value map.

The model is split into modules:

- `Wrappers`: `Option` and `Result`.
- `JsValues`: the JavaScript values found in JSON. It defines truthiness,
  `=== undefined || === null`, and the conversion of a value to a property
  key.
- `Passwords`: bcrypt, modelled symbolically. A `PasswordHash` records the
  work factor (10), the random salt and the secret it was made from.
  `Compare` succeeds exactly for that secret. The stored `password` field
  has this hash type, and no reply type can carry it.
- `Tokens`: token claims `{id, iat, exp}` with `exp = iat + 3600` ("1h"). The
  signature check is a parameter `decode: string -> Option<Claims>`. The
  expiry check (`now < exp`) is written out.
- `Auth`: `authMiddleware`. It models `split(" ")` (with `join` as its
  partner), takes the second piece as the token, and decides between three
  rejections and `next()`.
- `Telemetry`: the ThingSpeak request, the shape of its answer, and the
  field-mapping loop. The loop is the method `MapFields`. It is proved equal
  to a reference function `SensorMap`, and lemmas describe `SensorMap` slot
  by slot.
- `Farmers`: the stored record, its password-free view, the `findOne` (on
  username or email) and `findById` queries, and the uniqueness of the
  collection.
- `Http`: a reply is a status code plus one of the JSON body shapes the
  server sends.
- `Server`: the `FarmerStore` class. It holds the collection as a sequence
  of records and a supply of fresh ids. Its `Signup` method is the only
  handler that changes the collection. `Login`, `FarmerData` and
  `FarmerDataRoute` are functions of the stored records. `FarmerDataRoute`
  is the gate followed by the handler. The lemmas in this module chain
  signup, login and the data endpoint together.

The server also depends on the clock, bcrypt's random salt, the token
signature check and the ThingSpeak service. All four are parameters. The
data endpoint returns the ThingSpeak request it issued, or `None`. So the
lemmas can say when no outbound call is made.

Three behaviours of the code are easy to misread:

- A header with no second word gets 401 "Invalid token", not 403
  (server.js:54).
- Farmers sent back to clients keep `thingspeakApiKey`. Only `password` is
  removed (server.js:118-119, 132).
- Signup does not check its inputs itself. A missing username, email or
  password makes `bcrypt.hash` or `save` throw, which gives 500
  (server.js:79, 89, 91-93).

Signup hashes and stores an empty password, while login rejects an empty
password before it reads the store (`Server.EmptyPasswordRefused`). Under
the model's exact password compare, no successful login ever returns such
an account or a token for its id (`Server.EmptyPasswordLockedOut`). Real
bcrypt is not exact in this way (see "Left out").

## Model

| member | source | states |
|---|---|---|
| `Passwords.Hash` | smart_farm_api/server.js:79 | the stored hash is made with work factor 10 |
| `Passwords.CompareHash` | smart_farm_api/server.js:111 | under the model's exact compare, comparing a candidate with `Hash(p, salt)` succeeds exactly when the candidate is `p`, whatever the salt |
| `Tokens.Issue` | smart_farm_api/server.js:115 | a login token claims the farmer's id, is issued at the current time and expires 3600 s ("1h") after it is issued |
| `Tokens.Verify` | smart_farm_api/server.js:56 | a token verifies exactly when its signature checks out and the current time is before its `exp`, and then yields the id it claims |
| `Tokens.IssuedTokenLifetime` | smart_farm_api/server.js:56 | a token issued at T verifies to its id exactly at times before T + 3600, and fails from then on |
| `Tokens.ValidAt59InvalidAt61` | smart_farm_api/server.js:115 | a token is still valid 59 minutes after issue and invalid after 61 |
| `Auth.Split` | smart_farm_api/server.js:53 | `split(" ")` always yields at least one piece |
| `Auth.JoinSplit` | smart_farm_api/server.js:53 | joining the pieces of `split(" ")` with spaces gives back the header, and no piece contains a space |
| `Auth.SplitWord` | smart_farm_api/server.js:53 | a string without spaces splits into itself alone |
| `Auth.SplitFirstWord` | smart_farm_api/server.js:53 | `w + " " + tail` splits into `w` followed by the pieces of `tail` when `w` has no space |
| `Auth.SplitJoin` | smart_farm_api/server.js:53 | spaceless pieces joined with spaces split back into the same pieces |
| `Auth.TokenOf` | smart_farm_api/server.js:53 | the header has a second piece exactly when it contains a space, and that piece contains no space |
| `Auth.AuthGate` | smart_farm_api/server.js:49-61 | exactly a missing or empty header gives 401 "No token provided"; exactly a header with no second piece, or an empty one, gives 401 "Invalid token"; exactly a non-empty second piece that fails verification gives 403 "Token not valid"; exactly a verified token lets the request through, as the token's id |
| `Auth.OneWordHeaderInvalid` | smart_farm_api/server.js:53-54 | a one-word header (no space) is always 401 "Invalid token" |
| `Auth.AnySchemeAccepted` | smart_farm_api/server.js:53-59 | any first word is accepted, not only `Bearer`; the decision depends on the second word only, and extra words after it are ignored |
| `Auth.BearerTokenLifetime` | smart_farm_api/server.js:49-61 | `Bearer <token>` for a token issued at T is let through as its id before T + 3600 and refused with 403 afterwards |
| `JsValues.Truthy` | smart_farm_api/server.js:167 | a truthy value is neither undefined nor null, and its property key is not empty |
| `JsValues.ToKey` | smart_farm_api/server.js:168 | a value's property key is empty exactly for the empty string |
| `Telemetry.LatestSlot` | smart_farm_api/server.js:164-170 | the highest slot up to a bound that has a truthy name equal to `n` (other than `"__proto__"`) and a non-null value, or 0 when there is none |
| `Telemetry.Readings` | smart_farm_api/server.js:164-170 | the mapping built from slots 1..hi never has an empty key, never the key `"__proto__"`, and no undefined or null value |
| `Telemetry.ReadingsEntries` | smart_farm_api/server.js:164-170 | after slots 1..hi, the keys are exactly the names of the eligible slots (truthy name other than `"__proto__"`, value neither undefined nor null), and each key holds the value of the highest eligible slot with that name |
| `Telemetry.SensorMap` | smart_farm_api/server.js:164-170 | the mapping has at most 8 entries |
| `Telemetry.SensorMapEntries` | smart_farm_api/server.js:164-170 | `n ↦ v` is in the mapping exactly when some slot 1..8 has truthy name `n`, `n` is not `"__proto__"`, its value `v` is neither undefined nor null, and no higher slot names `n` with such a value; no name or value is invented |
| `Telemetry.EligibleSlotKept` | smart_farm_api/server.js:166-168 | a slot with a truthy name other than `"__proto__"` and a value that is neither undefined nor null (so `0`, `false` and `""` count) is in the mapping unless a higher slot takes its name |
| `Telemetry.ReadingsSize` | smart_farm_api/server.js:164 | after slots 1..hi the mapping has at most hi entries |
| `Telemetry.ReadingsReadOnlySlots` | smart_farm_api/server.js:165-167 | channels and feed entries that agree on `field1`..`field<hi>` give the same mapping over slots 1..hi |
| `Telemetry.SensorMapReadsOnlySlots` | smart_farm_api/server.js:164-166 | channels and feed entries that agree on `field1`..`field8` give the same mapping; every other property is ignored |
| `Telemetry.TemperatureExample` | smart_farm_api/server.js:164-170 | channel `{field1: "temperature", field3: "humidity"}` with entry `{field1: "23.5", field2: "10", field3: null}` maps to exactly `{temperature: "23.5"}` |
| `Telemetry.ProtoSlotDropped` | smart_farm_api/server.js:168 | a slot named `"__proto__"` is not copied: channel `{field1: "__proto__"}` with entry `{field1: "5"}` maps to nothing |
| `Telemetry.MapFields` | smart_farm_api/server.js:164-170 | the loop over `field1`..`field8`, whose assignment stores nothing under `"__proto__"`, builds exactly the reference mapping `SensorMap` |
| `Farmers.WithoutPassword` | smart_farm_api/server.js:118-119 | the farmer view drops only `password`: putting the stored hash back gives the stored record, so `thingspeakApiKey` and every other field are kept |
| `Farmers.FindOne` | smart_farm_api/server.js:107 | finds nothing exactly when no stored farmer matches the username or the email; otherwise finds the first stored farmer, in insertion order, that matches |
| `Farmers.FindById` | smart_farm_api/server.js:132 | finds nothing exactly when no stored farmer has the id; otherwise finds a stored farmer with that id |
| `Farmers.InsertPreservesUnique` | smart_farm_api/server.js:37-39 | adding a farmer whose username and email are not taken, under a fresh id, keeps usernames, emails and ids unique |
| `Farmers.FindOwnRecord` | smart_farm_api/server.js:76 | in a unique collection, each farmer is found by its username, by its email, by both together, and by its id |
| `Server.FarmerStore.constructor` | smart_farm_api/server.js:46 | an empty collection satisfies the store invariant |
| `Server.FarmerStore.Signup` | smart_farm_api/server.js:71-95 | username or email taken: 400 and the store is unchanged; a record that cannot be hashed or saved: 500 and the store is unchanged; otherwise 200 and exactly one record is appended, with the five other fields from the body, the hash in `password` and a fresh id; uniqueness is preserved |
| `Server.Login` | smart_farm_api/server.js:98-126 | no truthy password, or neither username nor email, gives 400 before any lookup; no matching farmer gives 400 "Invalid username or email"; the first match with a wrong password gives 400 "Invalid password"; otherwise 200 with a token for that farmer's id issued now and the farmer without its password |
| `Server.FarmerData` | smart_farm_api/server.js:130-186 | the checks run in order: unknown id gives 404 with no fetch; missing channel or key gives 400 with the farmer and no fetch; otherwise one request for the latest entry, then 502 if it fails, 404 if the entry or the channel is missing, else 200 with the farmer and the field mapping of `feeds[0]` |
| `Server.FarmerDataRoute` | smart_farm_api/server.js:130 | 401/403 come exactly when the gate refuses; a refused request gets the gate's own reply (so no header gives 401 "No token provided") and no fetch; a request the gate lets through gets the handler's answer for the token's id |
| `Server.SignupThenLogin` | smart_farm_api/server.js:76-121 | after a successful signup with a non-empty password, logging in with the username or with the email and that password gives 200, a token for the new id and the new record without its password |
| `Server.EmptyPasswordRefused` | smart_farm_api/server.js:102-104 | login with an empty password is always 400 "Provide username/email and password", whatever is stored |
| `Server.EmptyPasswordLockedOut` | smart_farm_api/server.js:102-121 | under the exact compare, in a unique collection, a farmer stored with the hash of an empty password is never the farmer, nor the token's id, of a 200 login reply |
| `Server.LoginThenFarmerData` | smart_farm_api/server.js:132-133 | within the hour, the token of a successful login opens `/farmer/data` for the same farmer: never 401, 403 or "Farmer not found", and the reply carries the farmer that login returned |

## Left out

- Express setup, body parsing, CORS, the OPTIONS preflight responder and the root route (server.js:14-28, 66-68): HTTP plumbing.
- The MongoDB connection, environment configuration, `app.listen` and console logging (server.js:2, 31-33, 190-191).
- Database failures: the store never fails in the model. So the 500 replies of login and of the data endpoint's outer `catch` have no cause here. Signup's 500 is modelled where the code reaches it: an absent password makes `bcrypt.hash` throw, and a missing or empty username or email fails the schema's `required` check on `save`.
- `Farmers.FindOne`, `Server.Login`: when a username matches one stored farmer and an email matches another, `findOne` without a sort returns whichever document the query plan reaches first. The model settles this by storage (insertion) order. Which document MongoDB really returns is not modelled.
- `Farmers.Matches`: a request field that is absent takes no part in the `$or` filter. How Mongoose itself treats `undefined` inside `$or` belongs to that library and is not modelled.
- `_id` values are natural numbers from a counter. `toObject()` extras such as `__v` are not modelled. Casting a malformed id in `findById` (a 500 in the code) cannot happen with a numeric id.
- bcrypt is symbolic. The asynchrony and the real cost of hashing are not modelled.
- `Passwords.CompareHash`, `Server.EmptyPasswordLockedOut`: the model's compare is exact string equality. bcrypt's is not. It keys on the password's bytes plus a closing NUL, repeated to fill the key, and uses only the first 72 bytes. So it also accepts a candidate that agrees with the password on those 72 bytes, and it treats `""` like a password made only of NUL characters: a login with `"\u0000"` passes the truthiness check and opens an account created with `""`. Both lemmas therefore hold of the model only, not of the deployed server.
- The JWT signature and secret are the abstract `decode` parameter. The token's text encoding and library options that the server does not use (`nbf`, clock tolerance) are left out.
- The ThingSpeak call is the `remote` parameter. Its URL and query string are the fields of `FetchRequest`. Timeouts are not modelled: the code sets none.
- JSON bodies: request fields are strings or absent. `null` and other JSON types in a request body are not modelled.
- Feed entries and the channel descriptor are JSON objects. A `feeds` array whose first element is `null` or a non-object is not modelled. Neither is any failure thrown while reading the answer, which the inner `catch` would turn into 502.
- JSON values in a feed entry are primitives. An object or array value stored under `"__proto__"` would replace the prototype of `sensorData` rather than be dropped; that case is not modelled.
- Numbers are integers. Floating point and `NaN` (falsy in JavaScript) are not modelled.
- Concurrent requests: each request is atomic. The race between signup's existence check and `save` is out of scope.
