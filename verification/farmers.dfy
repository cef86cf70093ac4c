/** The `Farmer` collection: the stored record, the password-free view the
    handlers send back, and the two queries the handlers run against the
    collection (`findOne` on username or email, `findById`). The collection
    itself is the sequence of stored records in insertion order. */
module Farmers {
  import opened Wrappers
  import opened Passwords

  /** A stored farmer. `id` is the store-assigned `_id`; `username`, `email`
      and `password` are required by the schema, the rest are optional. */
  datatype Farmer = Farmer(
    id: nat,
    username: string,
    name: Option<string>,
    email: string,
    password: PasswordHash,
    thingspeakChannel: Option<string>,
    thingspeakApiKey: Option<string>)

  /** A farmer as the handlers send it to a client: every stored field except
      `password`. The ThingSpeak API key is NOT removed. */
  datatype PublicFarmer = PublicFarmer(
    id: nat,
    username: string,
    name: Option<string>,
    email: string,
    thingspeakChannel: Option<string>,
    thingspeakApiKey: Option<string>)

  /** `delete safeFarmer.password` after `toObject()`, and likewise
      `select("-password")`: the view loses the password and nothing else. */
  function WithoutPassword(f: Farmer): (p: PublicFarmer)
    ensures WithPassword(p, f.password) == f
  {
    PublicFarmer(f.id, f.username, f.name, f.email, f.thingspeakChannel, f.thingspeakApiKey)
  }

  /** Puts a password back into a view; the inverse of `WithoutPassword`. */
  function WithPassword(p: PublicFarmer, password: PasswordHash): Farmer {
    Farmer(p.id, p.username, p.name, p.email, password, p.thingspeakChannel, p.thingspeakApiKey)
  }

  /** The filter `{ $or: [{ username }, { email }] }`, where an absent
      request field takes no part in the match. */
  predicate Matches(f: Farmer, username: Option<string>, email: Option<string>) {
    (username.Some? && f.username == username.value) || (email.Some? && f.email == email.value)
  }

  /** `Farmer.findOne({ $or: [{ username }, { email }] })`: the first stored
      farmer that matches, if any. */
  function FindOne(farmers: seq<Farmer>, username: Option<string>, email: Option<string>): (r: Option<Farmer>)
    ensures r.None? <==> forall k :: 0 <= k < |farmers| ==> !Matches(farmers[k], username, email)
    ensures r.Some? ==> exists k :: 0 <= k < |farmers| && farmers[k] == r.value
                          && Matches(farmers[k], username, email)
                          && forall j :: 0 <= j < k ==> !Matches(farmers[j], username, email)
  {
    if |farmers| == 0 then None
    else if Matches(farmers[0], username, email) then Some(farmers[0])
    else FindOne(farmers[1..], username, email)
  }

  /** `Farmer.findById(id)`: the stored farmer with that `_id`, if any. */
  function FindById(farmers: seq<Farmer>, id: nat): (r: Option<Farmer>)
    ensures r.None? <==> forall k :: 0 <= k < |farmers| ==> farmers[k].id != id
    ensures r.Some? ==> r.value in farmers && r.value.id == id
  {
    if |farmers| == 0 then None
    else if farmers[0].id == id then Some(farmers[0])
    else FindById(farmers[1..], id)
  }

  /** The schema's `unique` constraints, and the store's unique `_id`. */
  ghost predicate Unique(farmers: seq<Farmer>) {
    forall i, j :: 0 <= i < j < |farmers| ==>
      && farmers[i].id != farmers[j].id
      && farmers[i].username != farmers[j].username
      && farmers[i].email != farmers[j].email
  }

  /** Appending a farmer whose username and email no stored farmer has, under
      a fresh id, keeps the collection unique. */
  lemma InsertPreservesUnique(farmers: seq<Farmer>, f: Farmer)
    requires Unique(farmers)
    requires FindOne(farmers, Some(f.username), Some(f.email)).None?
    requires FindById(farmers, f.id).None?
    ensures Unique(farmers + [f])
  {
    var all := farmers + [f];
    forall i, j | 0 <= i < j < |all|
      ensures all[i].id != all[j].id && all[i].username != all[j].username && all[i].email != all[j].email
    {
      if j == |farmers| {
        assert !Matches(farmers[i], Some(f.username), Some(f.email));
        assert farmers[i].id != f.id;
      }
    }
  }

  /** In a unique collection a stored farmer is found by its own username
      (whatever email accompanies it, as long as that email is not another
      farmer's), by its own email, and by its id. */
  lemma FindOwnRecord(farmers: seq<Farmer>, k: nat)
    requires Unique(farmers)
    requires k < |farmers|
    ensures FindOne(farmers, Some(farmers[k].username), None) == Some(farmers[k])
    ensures FindOne(farmers, None, Some(farmers[k].email)) == Some(farmers[k])
    ensures FindOne(farmers, Some(farmers[k].username), Some(farmers[k].email)) == Some(farmers[k])
    ensures FindById(farmers, farmers[k].id) == Some(farmers[k])
  {
    var f := farmers[k];
    var r1 := FindOne(farmers, Some(f.username), None);
    var r2 := FindOne(farmers, None, Some(f.email));
    var r3 := FindOne(farmers, Some(f.username), Some(f.email));
    assert Matches(farmers[k], Some(f.username), None);
    assert Matches(farmers[k], None, Some(f.email));
    assert Matches(farmers[k], Some(f.username), Some(f.email));
    var k1 :| 0 <= k1 < |farmers| && farmers[k1] == r1.value && Matches(farmers[k1], Some(f.username), None);
    var k2 :| 0 <= k2 < |farmers| && farmers[k2] == r2.value && Matches(farmers[k2], None, Some(f.email));
    var k3 :| 0 <= k3 < |farmers| && farmers[k3] == r3.value && Matches(farmers[k3], Some(f.username), Some(f.email));
    assert k1 == k && k2 == k && k3 == k;
    var r4 := FindById(farmers, f.id);
    assert r4.Some?;
    var k4 :| 0 <= k4 < |farmers| && farmers[k4] == r4.value;
    assert k4 == k;
  }
}
