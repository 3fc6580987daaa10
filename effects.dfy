/** The effect of each state-changing operation of the account controller,
    as a function from the tables before to the tables after and the way the
    operation's promise ends; and the properties of those effects. */
module Effects {
  import opened Wrappers
  import opened Tables
  import opened Queries

  /** The tables after an operation, and how its promise ended. */
  datatype Run<+T> = Run(after: Tables, outcome: Outcome<T>)

  // ---------------------------------------------------------------- users

  /** saveUser (and registerUser): UPDATE the device token of an existing
      row, then INSERT a bare id row when none exists; resolves with the
      argument unless the INSERT is rejected. */
  function SaveUser(t: Tables, u: NewUser, failing: set<Statement>): (r: Run<NewUser>)
    ensures r.after.externalAuth == t.externalAuth && r.after.streams == t.streams
    ensures r.after.nextStreamId == t.nextStreamId
    ensures r.outcome == if InsertUser in failing then Err else Ok(u)
    ensures forall k :: k != u.id ==> (k in r.after.users <==> k in t.users)
    ensures forall k :: k != u.id && k in t.users ==> r.after.users[k] == t.users[k]
    ensures u.id in r.after.users <==> u.id in t.users || InsertUser !in failing
    ensures u.id in t.users ==>
      r.after.users[u.id] == if UpdateUser in failing then t.users[u.id] else u.deviceToken
    ensures u.id !in t.users && InsertUser !in failing ==> r.after.users[u.id] == None
  {
    var updated := if UpdateUser !in failing && u.id in t.users then t.users[u.id := u.deviceToken] else t.users;
    if InsertUser in failing then Run(t.(users := updated), Err)
    else Run(t.(users := if u.id in updated then updated else updated[u.id := None]), Ok(u))
  }

  // ------------------------------------------------------- external_auth

  /** A row after `UPDATE external_auth SET id, access_token, ..., rt_tag`. */
  function Relinked(row: AuthRow, a: ExternalAccount): AuthRow {
    row.(id := a.id, accessToken := a.accessToken, refreshToken := a.refreshToken)
  }

  /** The UPDATE of saveExternalAccount over the whole table. */
  function UpdateByKey(rows: seq<AuthRow>, uid: Id, a: ExternalAccount): (r: seq<AuthRow>)
    ensures |r| == |rows|
    ensures forall i :: 0 <= i < |rows| ==> r[i].userId == rows[i].userId && r[i].provider == rows[i].provider
    ensures forall i :: 0 <= i < |rows| && HasKey(rows[i], uid, a.provider) ==>
      r[i].id == a.id && r[i].accessToken == a.accessToken && r[i].refreshToken == a.refreshToken
    ensures forall i :: 0 <= i < |rows| && !HasKey(rows[i], uid, a.provider) ==> r[i] == rows[i]
  {
    seq(|rows|, i requires 0 <= i < |rows| =>
      if HasKey(rows[i], uid, a.provider) then Relinked(rows[i], a) else rows[i])
  }

  /** The row saveExternalAccount inserts. */
  function NewRow(uid: Id, a: ExternalAccount): AuthRow {
    AuthRow(a.id, a.provider, a.accessToken, a.refreshToken, uid)
  }

  /** saveExternalAccount: an upsert keyed by (user_id, provider). Every row
      with the key takes the new id and tokens; when there is none, one row
      is appended. Resolves (with nothing) unless the INSERT is rejected. */
  function SaveExternalAccount(t: Tables, uid: Id, a: ExternalAccount, failing: set<Statement>): (r: Run<()>)
    ensures r.after.users == t.users && r.after.streams == t.streams
    ensures r.after.nextStreamId == t.nextStreamId
    ensures r.outcome == if InsertExternal in failing then Err else Ok(())
    ensures KeyPresent(t.externalAuth, uid, a.provider) ==>
      && |r.after.externalAuth| == |t.externalAuth|
      && forall i :: 0 <= i < |t.externalAuth| ==>
           r.after.externalAuth[i] ==
             if UpdateExternal !in failing && HasKey(t.externalAuth[i], uid, a.provider)
             then Relinked(t.externalAuth[i], a) else t.externalAuth[i]
    ensures !KeyPresent(t.externalAuth, uid, a.provider) ==>
      r.after.externalAuth == t.externalAuth + (if InsertExternal in failing then [] else [NewRow(uid, a)])
  {
    var rows := t.externalAuth;
    var updated := if UpdateExternal in failing then rows else UpdateByKey(rows, uid, a);
    assert KeyPresent(updated, uid, a.provider) <==> KeyPresent(rows, uid, a.provider) by {
      assert forall i :: 0 <= i < |rows| ==> HasKey(updated[i], uid, a.provider) == HasKey(rows[i], uid, a.provider);
    }
    var inserted := if InsertExternal !in failing && !KeyPresent(updated, uid, a.provider)
                    then updated + [NewRow(uid, a)] else updated;
    Run(t.(externalAuth := inserted), if InsertExternal in failing then Err else Ok(()))
  }

  /** After a successful saveExternalAccount the user has a row for the
      provider, and every such row carries the submitted id and tokens. */
  lemma SaveExternalAccountLinks(t: Tables, uid: Id, a: ExternalAccount, failing: set<Statement>)
    requires InsertExternal !in failing
    ensures var rows := SaveExternalAccount(t, uid, a, failing).after.externalAuth;
      && KeyPresent(rows, uid, a.provider)
      && (UpdateExternal !in failing ==>
           forall i :: 0 <= i < |rows| && HasKey(rows[i], uid, a.provider) ==>
             rows[i].id == a.id && rows[i].accessToken == a.accessToken && rows[i].refreshToken == a.refreshToken)
  {
    var rows := SaveExternalAccount(t, uid, a, failing).after.externalAuth;
    if !KeyPresent(t.externalAuth, uid, a.provider) {
      assert HasKey(rows[|rows| - 1], uid, a.provider);
    }
  }

  /** saveExternalAccount keeps "at most one row per (user_id, provider)". */
  lemma SaveExternalAccountKeepsKeysUnique(t: Tables, uid: Id, a: ExternalAccount, failing: set<Statement>)
    requires AtMostOnePerKey(t.externalAuth)
    ensures AtMostOnePerKey(SaveExternalAccount(t, uid, a, failing).after.externalAuth)
  {
    var rows := t.externalAuth;
    var after := SaveExternalAccount(t, uid, a, failing).after.externalAuth;
    if KeyPresent(rows, uid, a.provider) {
      assert forall i :: 0 <= i < |rows| ==> after[i].userId == rows[i].userId && after[i].provider == rows[i].provider;
    } else {
      forall i, j | 0 <= i < j < |after|
        ensures !HasKey(after[j], after[i].userId, after[i].provider)
      {
        if j == |rows| {
          assert !HasKey(rows[i], uid, a.provider);
        }
      }
    }
  }

  // ------------------------------------------------------------ mergeIds

  /** `UPDATE external_auth SET user_id=to WHERE user_id=from`. */
  function Repoint(rows: seq<AuthRow>, from: Id, to: Id): (r: seq<AuthRow>)
    ensures |r| == |rows|
    ensures from != to ==> forall i :: 0 <= i < |r| ==> r[i].userId != from
    ensures forall i :: 0 <= i < |rows| && rows[i].userId == from ==> r[i].userId == to
    ensures forall i :: 0 <= i < |rows| ==> r[i].(userId := rows[i].userId) == rows[i]
    ensures forall i :: 0 <= i < |rows| && rows[i].userId != from ==> r[i] == rows[i]
  {
    seq(|rows|, i requires 0 <= i < |rows| => if rows[i].userId == from then rows[i].(userId := to) else rows[i])
  }

  /** mergeIds(id1, id2): id2's external accounts move to id1, the users row
      id2 is deleted, and the promise resolves with getUserByID(id1) on the
      new state; a rejected DELETE rejects. */
  function MergeIds(t: Tables, id1: Id, id2: Id, failing: set<Statement>): (r: Run<Option<UserView>>)
    ensures r.after.streams == t.streams && r.after.nextStreamId == t.nextStreamId
    ensures |r.after.externalAuth| == |t.externalAuth|
    ensures forall i :: 0 <= i < |t.externalAuth| ==>
      r.after.externalAuth[i] ==
        if RepointExternal !in failing && t.externalAuth[i].userId == id2
        then t.externalAuth[i].(userId := id1) else t.externalAuth[i]
    ensures r.after.users == if DeleteUser in failing then t.users else t.users - {id2}
    ensures r.outcome == if DeleteUser in failing then Err else GetUserById(r.after, id1, failing)
  {
    var rows := if RepointExternal in failing then t.externalAuth else Repoint(t.externalAuth, id2, id1);
    var users := if DeleteUser in failing then t.users else t.users - {id2};
    var after := t.(externalAuth := rows, users := users);
    Run(after, if DeleteUser in failing then Err else GetUserById(after, id1, failing))
  }

  /** After a merge of two distinct ids nothing refers to id2 any more and
      id1 owns every external account either of them owned. */
  lemma MergeIdsLeavesNothingOfId2(t: Tables, id1: Id, id2: Id, failing: set<Statement>)
    requires id1 != id2 && RepointExternal !in failing && DeleteUser !in failing
    ensures var after := MergeIds(t, id1, id2, failing).after;
      && id2 !in after.users
      && OwnedBy(after.externalAuth, id2) == []
      && forall row :: row in t.externalAuth && (row.userId == id1 || row.userId == id2) ==>
           row.(userId := id1) in OwnedBy(after.externalAuth, id1)
  {
    var after := MergeIds(t, id1, id2, failing).after;
    OwnedByMembers(after.externalAuth, id2);
    OwnedByMembers(after.externalAuth, id1);
    forall row | row in t.externalAuth && (row.userId == id1 || row.userId == id2)
      ensures row.(userId := id1) in OwnedBy(after.externalAuth, id1)
    {
      var i :| 0 <= i < |t.externalAuth| && t.externalAuth[i] == row;
      assert after.externalAuth[i] == row.(userId := id1);
    }
  }

  /** Unlike saveExternalAccount, a merge can leave a user with two rows
      for one provider: both users had a Facebook account linked. */
  lemma MergeIdsCanDuplicateKey()
    ensures exists t: Tables, id1: Id, id2: Id ::
      && AtMostOnePerKey(t.externalAuth)
      && !AtMostOnePerKey(MergeIds(t, id1, id2, {}).after.externalAuth)
  {
    var token := Sealed("c", "i", "g");
    var t := Tables(map["a" := None, "b" := None],
                    [AuthRow("x", "facebook", token, token, "a"), AuthRow("y", "facebook", token, token, "b")],
                    [], 0);
    var rows := t.externalAuth;
    assert |rows| == 2 && rows[0].userId == "a" && rows[1].userId == "b";
    assert AtMostOnePerKey(rows) by {
      assert "a" != "b" by { assert "a"[0] != "b"[0]; }
    }
    var after := MergeIds(t, "a", "b", {}).after.externalAuth;
    assert after[0] == rows[0] && after[1] == rows[1].(userId := "a");
    assert HasKey(after[1], after[0].userId, after[0].provider);
  }

  // ---------------------------------------------------------- streams

  /** A stream row as `SELECT *` returns it, description included. */
  function Selected(s: StreamRow): StreamObject {
    StreamObject(s.id, s.userId, s.csyncPath, s.streamName, Some(s.description))
  }

  predicate HasStream(streams: seq<StreamRow>, uid: Id) {
    exists i :: 0 <= i < |streams| && streams[i].userId == uid
  }

  /** getOrCreateStream: the user's first stream when there is one, the
      tables unchanged; otherwise one inserted row, resolved as `{id,
      user_id, csync_path, stream_name}` without the description. */
  function GetOrCreateStream(t: Tables, uid: Id, body: StreamBody, failing: set<Statement>): (r: Run<StreamObject>)
    ensures r.after.users == t.users && r.after.externalAuth == t.externalAuth
    ensures SelectStreams in failing ==> r == Run(t, Err)
    ensures SelectStreams !in failing && HasStream(t.streams, uid) ==>
      && r.after == t
      && exists i :: 0 <= i < |t.streams| && t.streams[i].userId == uid
           && (forall j :: 0 <= j < i ==> t.streams[j].userId != uid)
           && r.outcome == Ok(Selected(t.streams[i]))
    ensures SelectStreams !in failing && !HasStream(t.streams, uid) ==>
      r == if InsertStream in failing then Run(t, Err)
           else Run(t.(streams := t.streams + [StreamRow(t.nextStreamId, uid, body.streamPath, body.streamName, body.streamDescription)],
                       nextStreamId := t.nextStreamId + 1),
                    Ok(StreamObject(t.nextStreamId, uid, body.streamPath, body.streamName, None)))
    ensures StreamIdsBelow(t.streams, t.nextStreamId) ==> StreamIdsBelow(r.after.streams, r.after.nextStreamId)
    ensures StreamIdsBelow(t.streams, t.nextStreamId) && |r.after.streams| > |t.streams| ==>
      forall i :: 0 <= i < |t.streams| ==> t.streams[i].id != r.after.streams[|t.streams|].id
  {
    if SelectStreams in failing then Run(t, Err)
    else match FirstIndex(t.streams, (s: StreamRow) => s.userId == uid)
      case Some(i) => Run(t, Ok(Selected(t.streams[i])))
      case None =>
        if InsertStream in failing then Run(t, Err)
        else
          var id := t.nextStreamId;
          Run(t.(streams := t.streams + [StreamRow(id, uid, body.streamPath, body.streamName, body.streamDescription)],
                 nextStreamId := id + 1),
              Ok(StreamObject(id, uid, body.streamPath, body.streamName, None)))
  }

  /** Get-or-create is idempotent: once it resolved, a second call (whatever
      its body) inserts nothing and resolves with the same stream, now read
      back with its description. */
  lemma GetOrCreateStreamIdempotent(t: Tables, uid: Id, body: StreamBody, body2: StreamBody,
                                    failing: set<Statement>, failing2: set<Statement>)
    requires GetOrCreateStream(t, uid, body, failing).outcome.Ok?
    requires SelectStreams !in failing2
    ensures var first := GetOrCreateStream(t, uid, body, failing);
      var second := GetOrCreateStream(first.after, uid, body2, failing2);
      && second.after == first.after
      && second.outcome.Ok?
      && second.outcome.value.(description := None) == first.outcome.value.(description := None)
  {
    var first := GetOrCreateStream(t, uid, body, failing);
    if !HasStream(t.streams, uid) {
      var streams := first.after.streams;
      assert streams[|t.streams|].userId == uid;
      var second := GetOrCreateStream(first.after, uid, body2, failing2);
      var i :| 0 <= i < |streams| && streams[i].userId == uid
           && (forall j :: 0 <= j < i ==> streams[j].userId != uid)
           && second.outcome == Ok(Selected(streams[i]));
      assert i == |t.streams|;
    }
  }

  // ----------------------------------------------------------- generateId

  /** The alphabet of generated ids: 62 letters and digits. */
  const Possible: string := "ABCDEFGHIJKLMNOPQRSTUVWXYZabcdefghijklmnopqrstuvwxyz0123456789"

  /** A value Math.random() can return. */
  type Draw = d: real | 0.0 <= d < 1.0

  /** The draws of one attempt: ten calls of Math.random(). */
  type Attempt = draws: seq<Draw> | |draws| == 10
    witness [0.0, 0.0, 0.0, 0.0, 0.0, 0.0, 0.0, 0.0, 0.0, 0.0]

  /** `possible.charAt(Math.floor(d * possible.length))`. */
  function CharFor(d: Draw): (c: char)
    ensures c in Possible
  {
    Possible[(d * |Possible| as real).Floor]
  }

  /** The id an attempt builds, one character per draw. */
  function IdFrom(draws: seq<Draw>): (id: Id)
    ensures |id| == |draws|
    ensures forall k :: 0 <= k < |id| ==> id[k] in Possible
  {
    seq(|draws|, i requires 0 <= i < |draws| => CharFor(draws[i]))
  }

  /** generateId: attempt after attempt until getUserByID finds no user with
      the drawn id. `attempts` are the draws of the successive attempts;
      when all of them hit existing ids the retry is still running, which
      the model reports as NeverSettles. */
  function GenerateId(t: Tables, attempts: seq<Attempt>, failing: set<Statement>): (r: Outcome<Id>)
    ensures r.Ok? ==> r.value !in t.users && |r.value| == 10
    ensures r.Ok? ==> forall k :: 0 <= k < |r.value| ==> r.value[k] in Possible
    ensures r.Ok? ==>
      exists k :: 0 <= k < |attempts| && r.value == IdFrom(attempts[k])
        && forall j :: 0 <= j < k ==> IdFrom(attempts[j]) in t.users
    ensures r == Err ==> SelectUser in failing || SelectAccounts in failing
    ensures SelectUser !in failing && SelectAccounts !in failing ==>
      (r == NeverSettles <==> forall k :: 0 <= k < |attempts| ==> IdFrom(attempts[k]) in t.users)
    decreases |attempts|
  {
    if attempts == [] then NeverSettles
    else
      var id := IdFrom(attempts[0]);
      var found := GetUserById(t, id, failing);
      if found == Err then Err
      else if found == Ok(None) then Ok(id)
      else
        var rest := GenerateId(t, attempts[1..], failing);
        assert forall k :: 1 <= k < |attempts| ==> attempts[k] == attempts[1..][k - 1];
        assert id in t.users;
        assert rest.Ok? ==>
          (exists k :: 1 <= k < |attempts| && rest.value == IdFrom(attempts[k])
            && forall j :: 0 <= j < k ==> IdFrom(attempts[j]) in t.users) by {
          if rest.Ok? {
            var k' :| 0 <= k' < |attempts[1..]| && rest.value == IdFrom(attempts[1..][k'])
              && forall j :: 0 <= j < k' ==> IdFrom(attempts[1..][j]) in t.users;
            assert forall j :: 0 <= j < k' + 1 ==> IdFrom(attempts[j]) in t.users by {
              forall j | 0 <= j < k' + 1 ensures IdFrom(attempts[j]) in t.users {
                if j > 0 { assert attempts[j] == attempts[1..][j - 1]; }
              }
            }
          }
        }
        rest
  }

  // --------------------------------------------- processExternalAuthentication

  /** The tables after processExternalAuthentication, the logged-in user of
      the request afterwards, and how the promise ended. */
  datatype AuthRun = AuthRun(after: Tables, sessionUser: Option<UserView>, outcome: Outcome<UserView>)

  /** processExternalAuthentication: decide on whether the external account
      is already linked (to an existing user) and whether a user is logged in.
      Only a rejected lookup rejects; a failure further on leaves the promise
      unsettled, since those inner promises have no rejection handler. */
  function ProcessExternalAuthentication(t: Tables, sessionUser: Option<UserView>, a: ExternalAccount,
                                         attempts: seq<Attempt>, failing: set<Statement>): (r: AuthRun)
    ensures r.after.streams == t.streams && r.after.nextStreamId == t.nextStreamId
    ensures r.sessionUser.Some? <==> sessionUser.Some?
    ensures r.sessionUser.Some? ==> r.sessionUser.value.id == sessionUser.value.id
    ensures r.outcome == Err ==> r.after == t && r.sessionUser == sessionUser
  {
    match GetUserAccountByExternalAccount(t, a, failing)
    case Ok(Some(owner)) =>
      if sessionUser.Some? then
        if sessionUser.value.id == owner.id then AuthRun(t, sessionUser, Ok(sessionUser.value))
        else AuthRun(MergeIds(t, owner.id, sessionUser.value.id, failing).after, sessionUser, NeverSettles)
      else
        var found := GetUserById(t, owner.id, failing);
        if found.Ok? && found.value.Some? then AuthRun(t, None, Ok(found.value.value))
        else AuthRun(t, None, NeverSettles)
    case Ok(None) =>
      if sessionUser.Some? then
        var saved := SaveExternalAccount(t, sessionUser.value.id, a, failing);
        if saved.outcome.Ok? then
          var user := sessionUser.value.(accounts := sessionUser.value.accounts + [Submitted(a)]);
          AuthRun(saved.after, Some(user), Ok(user))
        else AuthRun(saved.after, sessionUser, NeverSettles)
      else
        var generated := GenerateId(t, attempts, failing);
        if !generated.Ok? then AuthRun(t, None, NeverSettles)
        else
          var id := generated.value;
          var registered := SaveUser(t, NewUser(id, None), failing);
          if registered.outcome.Err? then AuthRun(registered.after, None, NeverSettles)
          else
            var saved := SaveExternalAccount(registered.after, id, a, failing);
            if saved.outcome.Err? then AuthRun(saved.after, None, NeverSettles)
            else AuthRun(saved.after, None, Ok(UserView(id, None, [Submitted(a)])))
    case _ => AuthRun(t, sessionUser, Err)
  }

  /** The promise rejects exactly when looking up the link fails, and then
      nothing has changed. */
  lemma ProcessRejectsOnlyOnLookupError(t: Tables, sessionUser: Option<UserView>, a: ExternalAccount,
                                        attempts: seq<Attempt>, failing: set<Statement>)
    ensures var run := ProcessExternalAuthentication(t, sessionUser, a, attempts, failing);
      && (run.outcome == Err <==>
            SelectLink in failing
            || (SelectLinkOwner in failing && exists i :: 0 <= i < |t.externalAuth| && Records(t.externalAuth[i], a)))
      && (run.outcome == Err ==> run.after == t && run.sessionUser == sessionUser)
  {
  }

  /** Linked to the logged-in user: resolves with the session's user and
      changes nothing. */
  lemma ProcessLinkedToSessionUser(t: Tables, user: UserView, owner: UserRef, a: ExternalAccount,
                                   attempts: seq<Attempt>, failing: set<Statement>)
    requires GetUserAccountByExternalAccount(t, a, failing) == Ok(Some(owner))
    requires owner.id == user.id
    ensures ProcessExternalAuthentication(t, Some(user), a, attempts, failing) == AuthRun(t, Some(user), Ok(user))
  {
  }

  /** Linked to another user than the logged-in one: the session user's
      accounts are merged into the owner's, the session user's row is
      deleted, and the promise never settles. */
  lemma ProcessLinkedToOtherUser(t: Tables, user: UserView, owner: UserRef, a: ExternalAccount,
                                 attempts: seq<Attempt>, failing: set<Statement>)
    requires GetUserAccountByExternalAccount(t, a, failing) == Ok(Some(owner))
    requires owner.id != user.id
    ensures var run := ProcessExternalAuthentication(t, Some(user), a, attempts, failing);
      && run.outcome == NeverSettles
      && run.sessionUser == Some(user)
      && run.after == MergeIds(t, owner.id, user.id, failing).after
      && run.after.users == (if DeleteUser in failing then t.users else t.users - {user.id})
      && run.after.streams == t.streams
  {
  }

  /** Linked and nobody logged in: resolves with the owner as getUserByID
      reads it, or never settles when that read fails; nothing changes. */
  lemma ProcessLinkedLoggedOut(t: Tables, owner: UserRef, a: ExternalAccount,
                               attempts: seq<Attempt>, failing: set<Statement>)
    requires GetUserAccountByExternalAccount(t, a, failing) == Ok(Some(owner))
    ensures var run := ProcessExternalAuthentication(t, None, a, attempts, failing);
      && run.after == t && run.sessionUser == None
      && (SelectUser !in failing && SelectAccounts !in failing ==>
            run.outcome == Ok(UserView(owner.id, owner.deviceToken, Project(OwnedBy(t.externalAuth, owner.id)))))
      && (SelectUser in failing || SelectAccounts in failing ==> run.outcome == NeverSettles)
  {
  }

  /** Not linked, logged in: the account is saved under the session user,
      and on success the submitted account is appended to the session
      user's list, which is what the promise resolves with. */
  lemma ProcessNewForSessionUser(t: Tables, user: UserView, a: ExternalAccount,
                                 attempts: seq<Attempt>, failing: set<Statement>)
    requires GetUserAccountByExternalAccount(t, a, failing) == Ok(None)
    ensures var run := ProcessExternalAuthentication(t, Some(user), a, attempts, failing);
      && run.after == SaveExternalAccount(t, user.id, a, failing).after
      && run.after.users == t.users
      && (InsertExternal !in failing ==>
            && KeyPresent(run.after.externalAuth, user.id, a.provider)
            && run.sessionUser == Some(user.(accounts := user.accounts + [Submitted(a)]))
            && run.outcome == Ok(user.(accounts := user.accounts + [Submitted(a)])))
      && (InsertExternal in failing ==> run.sessionUser == Some(user) && run.outcome == NeverSettles)
  {
    if InsertExternal !in failing {
      SaveExternalAccountLinks(t, user.id, a, failing);
    }
  }

  /** Not linked, nobody logged in: a new user is created under a fresh
      ten-character alphanumeric id, the account is linked to it, and the
      promise resolves with that user listing only the submitted account.
      It never rejects on this path. */
  lemma ProcessNewAccount(t: Tables, a: ExternalAccount, attempts: seq<Attempt>, failing: set<Statement>)
    requires GetUserAccountByExternalAccount(t, a, failing) == Ok(None)
    ensures var run := ProcessExternalAuthentication(t, None, a, attempts, failing);
      && run.sessionUser == None
      && run.outcome != Err
      && run.after.streams == t.streams
      && (run.outcome.Ok? ==>
            var id := run.outcome.value.id;
            && id !in t.users
            && |id| == 10
            && (forall k :: 0 <= k < |id| ==> id[k] in Possible)
            && run.outcome.value == UserView(id, None, [Submitted(a)])
            && run.after.users == t.users[id := None]
            && run.after == SaveExternalAccount(t.(users := t.users[id := None]), id, a, failing).after
            && KeyPresent(run.after.externalAuth, id, a.provider)
            && (UpdateExternal !in failing ==>
                 forall i :: 0 <= i < |run.after.externalAuth| && HasKey(run.after.externalAuth[i], id, a.provider) ==>
                   && run.after.externalAuth[i].id == a.id
                   && run.after.externalAuth[i].accessToken == a.accessToken
                   && run.after.externalAuth[i].refreshToken == a.refreshToken)
            && |run.after.externalAuth| >= |t.externalAuth|
            && (forall i :: 0 <= i < |t.externalAuth| && !HasKey(t.externalAuth[i], id, a.provider) ==>
                 run.after.externalAuth[i] == t.externalAuth[i]))
  {
    var generated := GenerateId(t, attempts, failing);
    if generated.Ok? {
      var id := generated.value;
      var registered := SaveUser(t, NewUser(id, None), failing);
      if registered.outcome.Ok? {
        assert registered.after.users == t.users[id := None];
        if InsertExternal !in failing {
          SaveExternalAccountLinks(registered.after, id, a, failing);
        }
      }
    }
  }
}
