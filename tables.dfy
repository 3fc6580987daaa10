/** The relational state the account controller works on, its rows, and the
    values it hands back to callers. SQL text is not modelled, only the
    effect of each statement. */
module Tables {
  import opened Wrappers

  type Text = string
  type Id = string

  /** An AES-GCM sealed token as stored: cipher text, initialisation vector
      and authentication tag. Opaque to the controller. */
  datatype Sealed = Sealed(cipher: Text, iv: Text, tag: Text)

  /** An external (provider) account as the authentication layer submits it:
      `{id, provider, accessToken: {cipher, iv, tag}, refreshToken: {...}}`. */
  datatype ExternalAccount = ExternalAccount(id: Text, provider: Text, accessToken: Sealed, refreshToken: Sealed)

  /** A row of `external_auth`: access_token/at_iv/at_tag,
      refresh_token/rt_iv/rt_tag, user_id. */
  datatype AuthRow = AuthRow(id: Text, provider: Text, accessToken: Sealed, refreshToken: Sealed, userId: Id)

  /** A row of `streams`; `id` is the serial the database assigns. */
  datatype StreamRow = StreamRow(id: nat, userId: Id, csyncPath: Text, streamName: Text, description: Text)

  /** The three tables, and the next value of the streams id sequence.
      `users` maps an id to its (nullable) device_token. */
  datatype Tables = Tables(
    users: map<Id, Option<Text>>,
    externalAuth: seq<AuthRow>,
    streams: seq<StreamRow>,
    nextStreamId: nat)

  /** The statements the controller issues, named after their effect. A run
      of an operation is given the set of statements the database rejects;
      a rejected statement changes nothing. */
  datatype Statement =
    | UpdateUser        // UPDATE users SET id, device_token WHERE id
    | InsertUser        // INSERT INTO users (id) ... WHERE NOT EXISTS
    | UpdateExternal    // UPDATE external_auth SET id, tokens WHERE user_id AND provider
    | InsertExternal    // INSERT INTO external_auth ... WHERE NOT EXISTS
    | SelectUser        // SELECT id, device_token FROM users WHERE id
    | SelectAccounts    // SELECT id, provider, access_token, at_iv, at_tag FROM external_auth WHERE user_id
    | SelectLink        // SELECT user_id FROM external_auth WHERE id AND provider
    | SelectLinkOwner   // SELECT id, device_token FROM users WHERE id (the link's owner)
    | SelectStreams     // SELECT * FROM streams WHERE user_id
    | InsertStream      // INSERT INTO streams ... RETURNING id
    | RepointExternal   // UPDATE external_auth SET user_id WHERE user_id
    | DeleteUser        // DELETE FROM users WHERE id

  /** `{id, provider, access_token, at_iv, at_tag}`: an external_auth row as
      getUserByID projects it; no refresh token and no user_id. */
  datatype AccountView = AccountView(id: Text, provider: Text, accessToken: Sealed)

  /** What `getExternalAccountAccessToken` reads from an entry: the
      `access_token`, `at_iv` and `at_tag` properties, None when absent. */
  datatype AccessFields = AccessFields(accessToken: Option<Text>, atIv: Option<Text>, atTag: Option<Text>)

  /** An element of a user's `externalAccounts` list: either a projected
      row read from the database, or the submitted account object pushed
      onto the list as is. */
  datatype AccountEntry = Stored(view: AccountView) | Submitted(account: ExternalAccount)
  {
    function Provider(): Text {
      match this
      case Stored(v) => v.provider
      case Submitted(a) => a.provider
    }

    /** A submitted account carries `accessToken.cipher`, not `access_token`,
        so all three properties read as absent on it. */
    function Fields(): AccessFields {
      match this
      case Stored(v) => AccessFields(Some(v.accessToken.cipher), Some(v.accessToken.iv), Some(v.accessToken.tag))
      case Submitted(_) => AccessFields(None, None, None)
    }
  }

  /** `{id, deviceToken, externalAccounts}`: a user as the controller returns it. */
  datatype UserView = UserView(id: Id, deviceToken: Option<Text>, accounts: seq<AccountEntry>)

  /** `{id, deviceToken}`: a user without its external accounts. */
  datatype UserRef = UserRef(id: Id, deviceToken: Option<Text>)

  /** The argument of saveUser / registerUser. */
  datatype NewUser = NewUser(id: Id, deviceToken: Option<Text>)

  /** The stream fields of a request body. */
  datatype StreamBody = StreamBody(streamPath: Text, streamName: Text, streamDescription: Text)

  /** A stream as getOrCreateStream resolves it; `description` is None when
      the object has no such property. */
  datatype StreamObject = StreamObject(id: nat, userId: Id, csyncPath: Text, streamName: Text, description: Option<Text>)

  /** The index of the first element satisfying `p`, if any: the row a
      query's `result.rows[0]` denotes, in table order. */
  function FirstIndex<T>(s: seq<T>, p: T -> bool): (r: Option<nat>)
    ensures r.Some? ==> r.value < |s| && p(s[r.value])
    ensures r.Some? ==> forall j :: 0 <= j < r.value ==> !p(s[j])
    ensures r.None? <==> forall j :: 0 <= j < |s| ==> !p(s[j])
    decreases |s|
  {
    if s == [] then None
    else if p(s[0]) then Some(0)
    else match FirstIndex(s[1..], p)
      case None => None
      case Some(i) => Some(i + 1)
  }

  /** The external_auth rows of user `uid`, in table order. */
  function OwnedBy(rows: seq<AuthRow>, uid: Id): (r: seq<AuthRow>)
    ensures forall row :: multiset(r)[row] == if row.userId == uid then multiset(rows)[row] else 0
    decreases |rows|
  {
    if rows == [] then []
    else
      assert rows == [rows[0]] + rows[1..];
      var rest := OwnedBy(rows[1..], uid);
      if rows[0].userId == uid then [rows[0]] + rest else rest
  }

  /** Membership form of OwnedBy's contract: exactly the rows of `uid`. */
  lemma OwnedByMembers(rows: seq<AuthRow>, uid: Id)
    ensures forall row :: row in OwnedBy(rows, uid) <==> row in rows && row.userId == uid
  {
    forall row ensures row in OwnedBy(rows, uid) <==> row in rows && row.userId == uid {
      assert row in OwnedBy(rows, uid) <==> row in multiset(OwnedBy(rows, uid));
      assert row in rows <==> row in multiset(rows);
    }
  }

  /** The projection of `SELECT id, provider, access_token, at_iv, at_tag`. */
  function Project(rows: seq<AuthRow>): (r: seq<AccountEntry>)
    ensures |r| == |rows|
    ensures forall i :: 0 <= i < |rows| ==>
      && r[i].Stored?
      && r[i].view.id == rows[i].id
      && r[i].Provider() == rows[i].provider
      && r[i].Fields() == AccessFields(Some(rows[i].accessToken.cipher), Some(rows[i].accessToken.iv), Some(rows[i].accessToken.tag))
  {
    seq(|rows|, i requires 0 <= i < |rows| => Stored(AccountView(rows[i].id, rows[i].provider, rows[i].accessToken)))
  }

  /** The (user_id, provider) key saveExternalAccount upserts on. */
  predicate HasKey(row: AuthRow, uid: Id, provider: Text) {
    row.userId == uid && row.provider == provider
  }

  predicate KeyPresent(rows: seq<AuthRow>, uid: Id, provider: Text) {
    exists i :: 0 <= i < |rows| && HasKey(rows[i], uid, provider)
  }

  /** At most one external_auth row per (user_id, provider). */
  predicate AtMostOnePerKey(rows: seq<AuthRow>) {
    forall i, j :: 0 <= i < j < |rows| ==> !HasKey(rows[j], rows[i].userId, rows[i].provider)
  }

  /** Every stream id was drawn from the sequence before its current value. */
  predicate StreamIdsBelow(streams: seq<StreamRow>, next: nat) {
    forall i :: 0 <= i < |streams| ==> streams[i].id < next
  }
}
