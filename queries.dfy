/** The controller's read-only operations: getUserByID,
    getUserAccountByExternalAccount (functions of the table state) and
    getExternalAccountAccessToken (a search over an in-memory user). */
module Queries {
  import opened Wrappers
  import opened Tables

  /** Does this external_auth row record the given external account? */
  predicate Records(row: AuthRow, account: ExternalAccount) {
    row.id == account.id && row.provider == account.provider
  }

  /** getUserByID: null when no users row has the id; otherwise the id, its
      device token and exactly its external_auth rows, projected. Either
      SELECT failing rejects. */
  function GetUserById(t: Tables, id: Id, failing: set<Statement>): (r: Outcome<Option<UserView>>)
    ensures r != NeverSettles
    ensures r == Err <==> SelectUser in failing || (id in t.users && SelectAccounts in failing)
    ensures r == Ok(None) <==> SelectUser !in failing && id !in t.users
    ensures r.Ok? && r.value.Some? ==>
      && id in t.users
      && r.value.value.id == id
      && r.value.value.deviceToken == t.users[id]
      && r.value.value.accounts == Project(OwnedBy(t.externalAuth, id))
  {
    if SelectUser in failing then Err
    else if id !in t.users then Ok(None)
    else if SelectAccounts in failing then Err
    else Ok(Some(UserView(id, t.users[id], Project(OwnedBy(t.externalAuth, id)))))
  }

  /** The listed accounts of a user found by getUserByID are its
      external_auth rows and only those, each as `{id, provider,
      access_token, at_iv, at_tag}`. */
  lemma GetUserByIdAccounts(t: Tables, id: Id, failing: set<Statement>)
    requires GetUserById(t, id, failing).Ok? && GetUserById(t, id, failing).value.Some?
    ensures forall e :: e in GetUserById(t, id, failing).value.value.accounts <==>
      exists row :: row in t.externalAuth && row.userId == id && e == Stored(AccountView(row.id, row.provider, row.accessToken))
  {
    var owned := OwnedBy(t.externalAuth, id);
    OwnedByMembers(t.externalAuth, id);
    var accounts := GetUserById(t, id, failing).value.value.accounts;
    assert accounts == Project(owned);
    assert forall i :: 0 <= i < |owned| ==>
      accounts[i] == Stored(AccountView(owned[i].id, owned[i].provider, owned[i].accessToken));
    forall e ensures e in accounts <==>
      exists row :: row in t.externalAuth && row.userId == id && e == Stored(AccountView(row.id, row.provider, row.accessToken))
    {
      if e in accounts {
        var i :| 0 <= i < |accounts| && accounts[i] == e;
        assert owned[i] in owned;
      }
      if exists row :: row in t.externalAuth && row.userId == id && e == Stored(AccountView(row.id, row.provider, row.accessToken)) {
        var row :| row in t.externalAuth && row.userId == id && e == Stored(AccountView(row.id, row.provider, row.accessToken));
        var i :| 0 <= i < |owned| && owned[i] == row;
        assert accounts[i] == e;
      }
    }
  }

  /** getUserAccountByExternalAccount: the first external_auth row recording
      the account names a user_id; its users row is returned as
      `{id, deviceToken}`, or null when there is no such row or no such user. */
  function GetUserAccountByExternalAccount(t: Tables, account: ExternalAccount, failing: set<Statement>): (r: Outcome<Option<UserRef>>)
    ensures r != NeverSettles
    ensures r == Err <==>
      SelectLink in failing || (SelectLinkOwner in failing && exists i :: 0 <= i < |t.externalAuth| && Records(t.externalAuth[i], account))
    ensures r.Ok? && r.value.Some? ==>
      && r.value.value.id in t.users
      && r.value.value.deviceToken == t.users[r.value.value.id]
      && exists i :: 0 <= i < |t.externalAuth| && Records(t.externalAuth[i], account)
           && t.externalAuth[i].userId == r.value.value.id
           && forall j :: 0 <= j < i ==> !Records(t.externalAuth[j], account)
    ensures r == Ok(None) <==>
      && SelectLink !in failing
      && forall i ::
           (0 <= i < |t.externalAuth| && Records(t.externalAuth[i], account)
            && forall j :: 0 <= j < i ==> !Records(t.externalAuth[j], account))
           ==> SelectLinkOwner !in failing && t.externalAuth[i].userId !in t.users
  {
    if SelectLink in failing then Err
    else match FirstIndex(t.externalAuth, row => Records(row, account))
      case None => Ok(None)
      case Some(i) =>
        var owner := t.externalAuth[i].userId;
        if SelectLinkOwner in failing then Err
        else if owner !in t.users then Ok(None)
        else Ok(Some(UserRef(owner, t.users[owner])))
  }

  /** getExternalAccountAccessToken: the decryption of the access token of
      the first listed account, in list order, of the given provider; null
      when there is none. `decrypt` stands for the security helper with the
      configured key. The user is a value and is left as it was. */
  method GetExternalAccountAccessToken(user: UserView, provider: Text, decrypt: AccessFields -> Text) returns (r: Option<Text>)
    ensures r.None? <==> forall i :: 0 <= i < |user.accounts| ==> user.accounts[i].Provider() != provider
    ensures r.Some? ==>
      exists i :: 0 <= i < |user.accounts|
        && user.accounts[i].Provider() == provider
        && (forall j :: 0 <= j < i ==> user.accounts[j].Provider() != provider)
        && r.value == decrypt(user.accounts[i].Fields())
  {
    var accounts := user.accounts;
    for i := 0 to |accounts|
      invariant forall j :: 0 <= j < i ==> accounts[j].Provider() != provider
    {
      if accounts[i].Provider() == provider {
        return Some(decrypt(accounts[i].Fields()));
      }
    }
    return None;
  }
}
