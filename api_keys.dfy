/** `/api/keys`: each user's provider credentials, kept base64-encoded in a
    table with one row per (user, provider). `GET` lists a user's rows
    without their keys, `POST` validates and upserts one row, `DELETE`
    removes rows. The session is an optional user id and the table a map. */
module ApiKeys {
  import opened Wrappers
  import Utf8
  import Base64

  // ---------------------------------------------------------------------
  // encryptKey / decryptKey

  /** `encryptKey(key)`: the base64 text of the key's UTF-8 bytes. */
  function EncryptKey(key: string): string {
    Base64.Encode(Utf8.Encode(key))
  }

  /** `decryptKey(encryptedKey)`: the base64 text read as bytes, and the
      bytes read as UTF-8. */
  function DecryptKey(encryptedKey: string): string {
    Utf8.Decode(Base64.Decode(encryptedKey))
  }

  /** Every key comes back unchanged from its encrypted form. */
  lemma DecryptEncrypt(key: string)
    ensures DecryptKey(EncryptKey(key)) == key
  {
    Base64.DecodeEncode(Utf8.Encode(key));
    Utf8.DecodeEncode(key);
  }

  /** The stored form is padded base64: its length is a multiple of four,
      it uses only the alphabet and `=`, with `=` only at the end, and it is
      empty only for the empty key. */
  lemma EncryptShape(key: string)
    ensures |EncryptKey(key)| % 4 == 0
    ensures Base64.Padded(EncryptKey(key))
    ensures EncryptKey(key) == "" <==> key == ""
  {
    var bs := Utf8.Encode(key);
    var groups := (|bs| + 2) / 3;
    Base64.EncodeShape(bs);
    assert |EncryptKey(key)| == 4 * groups;
    Groups(groups);
    assert groups == 0 <==> |bs| == 0;
  }

  lemma Groups(g: nat)
    ensures (4 * g) % 4 == 0
    ensures 4 * g == 0 <==> g == 0
  {
  }

  // ---------------------------------------------------------------------
  // The table

  /** One row of the `apiKey` table, apart from its (user, provider) key. */
  datatype StoredKey = StoredKey(id: string, key: string, createdAt: int)

  /** The table, indexed by (userId, provider). */
  type Store = map<(string, string), StoredKey>

  /** What `GET` reveals of a row. */
  datatype KeySummary = KeySummary(id: string, provider: string, createdAt: int)

  /** The JSON responses of the three handlers. */
  datatype Reply =
    | Unauthorized                          // 401 `{ error: "Unauthorized" }`
    | BadRequest(message: string)           // 400 `{ error }`
    | Saved(id: string)                     // `{ success: true, id }`
    | Removed                               // `{ success: true }`
    | Listing(apiKeys: set<KeySummary>)     // `{ apiKeys }`

  function Status(r: Reply): int {
    match r
    case Unauthorized => 401
    case BadRequest(_) => 400
    case _ => 200
  }

  const ValidProviders: seq<string> := ["openai", "google", "groq", "inegi", "banxico"]
  const MissingFields := "Provider and key are required"
  const InvalidProvider := "Invalid provider"

  /** `prisma.apiKey.upsert` on (user, provider): an existing row gets the new
      key and keeps its id and creation time; otherwise a row is created with
      the id and time the database assigns, `newId` and `now`. */
  function Upsert(store: Store, user: string, provider: string, encrypted: string, newId: string, now: int): (r: Store)
    ensures (user, provider) in r && r[(user, provider)].key == encrypted
    ensures (user, provider) in store ==>
              r[(user, provider)].id == store[(user, provider)].id
              && r[(user, provider)].createdAt == store[(user, provider)].createdAt
    ensures (user, provider) !in store ==> r[(user, provider)] == StoredKey(newId, encrypted, now)
    ensures r.Keys == store.Keys + {(user, provider)}
    ensures forall k :: k in store && k != (user, provider) ==> r[k] == store[k]
  {
    var row := if (user, provider) in store then store[(user, provider)].(key := encrypted)
               else StoredKey(newId, encrypted, now);
    store[(user, provider) := row]
  }

  /** `prisma.apiKey.deleteMany({ where: { userId, provider } })`. An absent
      `provider` is no condition at all, so every row of the user goes. */
  function DeleteRows(store: Store, user: string, provider: Option<string>): (r: Store)
    ensures forall k :: k in r <==> k in store && (k.0 != user || (provider.Some? && k.1 != provider.value))
    ensures forall k :: k in r ==> r[k] == store[k]
  {
    map k | k in store && (k.0 != user || (provider.Some? && k.1 != provider.value)) :: store[k]
  }

  /** The rows of `user`, without their keys. */
  function Summaries(store: Store, user: string): set<KeySummary> {
    set k | k in store && k.0 == user :: KeySummary(store[k].id, k.1, store[k].createdAt)
  }

  /** `GET` lists exactly the user's rows, each with its own id, provider and
      creation time. */
  lemma {:induction false} SummariesSpec(store: Store, user: string, s: KeySummary)
    ensures s in Summaries(store, user) <==>
              (user, s.provider) in store
              && s.id == store[(user, s.provider)].id
              && s.createdAt == store[(user, s.provider)].createdAt
  {
    if (user, s.provider) in store && s.id == store[(user, s.provider)].id
       && s.createdAt == store[(user, s.provider)].createdAt {
      var k := (user, s.provider);
      assert s == KeySummary(store[k].id, k.1, store[k].createdAt);
    }
  }

  // ---------------------------------------------------------------------
  // The handlers as functions of the table

  /** `GET()`: the reply for session user `user`. */
  function GetReply(store: Store, user: Option<string>): Reply {
    if !Truthy(user) then Unauthorized else Listing(Summaries(store, user.value))
  }

  /** `POST(request)` with body fields `provider` and `key`: the reply and the
      new table. */
  function PostResult(store: Store, user: Option<string>, provider: Option<string>, key: Option<string>,
                      newId: string, now: int): (Reply, Store)
  {
    if !Truthy(user) then (Unauthorized, store)
    else if !Truthy(provider) || !Truthy(key) then (BadRequest(MissingFields), store)
    else if provider.value !in ValidProviders then (BadRequest(InvalidProvider), store)
    else
      var next := Upsert(store, user.value, provider.value, EncryptKey(key.value), newId, now);
      (Saved(next[(user.value, provider.value)].id), next)
  }

  /** `DELETE(request)` with body field `provider`: the reply and the new table. */
  function DeleteResult(store: Store, user: Option<string>, provider: Option<string>): (Reply, Store) {
    if !Truthy(user) then (Unauthorized, store) else (Removed, DeleteRows(store, user.value, provider))
  }

  /** The checks come before any change, in order: no session gives 401; then
      a missing or empty provider or key gives 400 "Provider and key are
      required"; then a provider outside the five gives 400 "Invalid
      provider". Every rejection leaves the table as it was, and every
      acceptance answers 200 with the row's id. */
  lemma PostChecks(store: Store, user: Option<string>, provider: Option<string>, key: Option<string>,
                   newId: string, now: int)
    ensures var (reply, next) := PostResult(store, user, provider, key, newId, now);
            && (!Truthy(user) <==> reply == Unauthorized)
            && (Truthy(user) ==> (reply == BadRequest(MissingFields) <==> !Truthy(provider) || !Truthy(key)))
            && (reply == BadRequest(InvalidProvider) <==>
                  Truthy(user) && Truthy(provider) && Truthy(key) && provider.value !in ValidProviders)
            && (!reply.Saved? ==> next == store)
            && (reply.Saved? <==> Status(reply) == 200)
  {
  }

  /** A successful `POST` stores the encrypted key under (user, provider), so
      decrypting the row gives the key back; it replaces any earlier key of the
      pair, keeps that row's id, and leaves every other row as it was. */
  lemma PostStoresKey(store: Store, user: Option<string>, provider: Option<string>, key: Option<string>,
                      newId: string, now: int)
    requires PostResult(store, user, provider, key, newId, now).0.Saved?
    ensures var (reply, next) := PostResult(store, user, provider, key, newId, now);
            var k := (user.value, provider.value);
            && provider.value in ValidProviders
            && k in next && next[k].key == EncryptKey(key.value)
            && DecryptKey(next[k].key) == key.value
            && reply.id == next[k].id
            && (k in store ==> next[k].id == store[k].id)
            && next.Keys == store.Keys + {k}
            && (forall j :: j in store && j != k ==> next[j] == store[j])
  {
    DecryptEncrypt(key.value);
  }

  /** `DELETE` with a provider removes exactly that row of the user; every
      other row stays. Without a session nothing changes. */
  lemma DeleteOne(store: Store, user: Option<string>, provider: string)
    ensures var (reply, next) := DeleteResult(store, user, Some(provider));
            && (!Truthy(user) ==> reply == Unauthorized && next == store)
            && (Truthy(user) ==>
                  && reply == Removed
                  && (user.value, provider) !in next
                  && next.Keys == store.Keys - {(user.value, provider)})
            && (forall k :: k in next ==> next[k] == store[k])
  {
  }

  /** `DELETE` without a provider removes every row of the user, and only
      those. */
  lemma DeleteAll(store: Store, user: string)
    ensures var (reply, next) := DeleteResult(store, Some(user), None);
            && (user != "" ==> reply == Removed && forall k :: k in next <==> k in store && k.0 != user)
            && (forall k :: k in next ==> next[k] == store[k])
  {
  }

  /** `getApiKey(userId, provider)` of the chat route: the decrypted key of
      the pair's row, or none. */
  function GetApiKey(store: Store, user: string, provider: string): (r: Option<string>)
    ensures r.Some? <==> (user, provider) in store
  {
    if (user, provider) in store then Some(DecryptKey(store[(user, provider)].key)) else None
  }

  /** What `POST` saved is what the chat route reads back for that pair, and
      a `DELETE` of the pair makes it read nothing. */
  lemma {:induction false} SavedKeyIsUsed(store: Store, user: string, provider: string, key: string,
                                          newId: string, now: int)
    requires user != "" && key != "" && provider in ValidProviders
    ensures var next := PostResult(store, Some(user), Some(provider), Some(key), newId, now).1;
            && GetApiKey(next, user, provider) == Some(key)
            && GetApiKey(DeleteResult(next, Some(user), Some(provider)).1, user, provider).None?
  {
    PostStoresKey(store, Some(user), Some(provider), Some(key), newId, now);
  }

  // ---------------------------------------------------------------------
  // The handlers over the table held in place

  /** The `apiKey` table, changed in place by `POST` and `DELETE`. */
  class KeyTable {
    var rows: Store

    constructor ()
      ensures rows == map[]
    {
      rows := map[];
    }

    /** `GET()`. */
    method Get(user: Option<string>) returns (reply: Reply)
      ensures reply == GetReply(rows, user)
    {
      if !Truthy(user) {
        return Unauthorized;
      }
      reply := Listing(Summaries(rows, user.value));
    }

    /** `POST(request)`; `newId` and `now` are what the database would assign
        to a new row. */
    method Post(user: Option<string>, provider: Option<string>, key: Option<string>, newId: string, now: int)
      returns (reply: Reply)
      modifies this
      ensures (reply, rows) == PostResult(old(rows), user, provider, key, newId, now)
    {
      if !Truthy(user) {
        return Unauthorized;
      }
      if !Truthy(provider) || !Truthy(key) {
        return BadRequest(MissingFields);
      }
      if provider.value !in ValidProviders {
        return BadRequest(InvalidProvider);
      }
      var encrypted := EncryptKey(key.value);
      rows := Upsert(rows, user.value, provider.value, encrypted, newId, now);
      reply := Saved(rows[(user.value, provider.value)].id);
    }

    /** `DELETE(request)`. */
    method Delete(user: Option<string>, provider: Option<string>) returns (reply: Reply)
      modifies this
      ensures (reply, rows) == DeleteResult(old(rows), user, provider)
    {
      if !Truthy(user) {
        return Unauthorized;
      }
      rows := DeleteRows(rows, user.value, provider);
      reply := Removed;
    }
  }
}
