/** The controller as the source runs it: statements issued one after the
    other against tables that change in place. Each method is proved to have
    exactly the effect its counterpart in Effects describes. */
module Store {
  import opened Wrappers
  import opened Tables
  import opened Queries
  import Effects

  /** The parts of an incoming request the controller uses: the logged-in
      user (`req.user`, absent when nobody is logged in) and the body. */
  class Request {
    var user: Option<UserView>
    const body: StreamBody

    constructor (user: Option<UserView>, body: StreamBody)
      ensures this.user == user && this.body == body
    {
      this.user := user;
      this.body := body;
    }
  }

  /** `possible.charAt(Math.floor(Math.random() * possible.length))`,
      appended ten times: the id one attempt of generateId builds. */
  method BuildId(draws: Effects.Attempt) returns (id: Id)
    ensures id == Effects.IdFrom(draws)
    ensures |id| == 10 && forall k :: 0 <= k < |id| ==> id[k] in Effects.Possible
  {
    id := "";
    for i := 0 to 10
      invariant id == Effects.IdFrom(draws[..i])
    {
      assert draws[..i + 1] == draws[..i] + [draws[i]];
      id := id + [Effects.CharFor(draws[i])];
    }
    assert draws[..10] == draws;
  }

  /** The database: the users, external_auth and streams tables, and the
      sequence that numbers streams. */
  class Database {
    var users: map<Id, Option<Text>>
    var externalAuth: seq<AuthRow>
    var streams: seq<StreamRow>
    var nextStreamId: nat

    function State(): Tables
      reads this
    {
      Tables(users, externalAuth, streams, nextStreamId)
    }

    /** Stream ids are drawn from the sequence, so each is below its
        current value. */
    ghost predicate Valid()
      reads this
    {
      StreamIdsBelow(streams, nextStreamId)
    }

    constructor (initial: Tables)
      requires StreamIdsBelow(initial.streams, initial.nextStreamId)
      ensures Valid() && State() == initial
    {
      users := initial.users;
      externalAuth := initial.externalAuth;
      streams := initial.streams;
      nextStreamId := initial.nextStreamId;
    }

    /** saveUser: update the device token, then insert a bare row if absent. */
    method SaveUser(u: NewUser, failing: set<Statement>) returns (r: Outcome<NewUser>)
      requires Valid()
      modifies this
      ensures Valid()
      ensures State() == Effects.SaveUser(old(State()), u, failing).after
      ensures r == Effects.SaveUser(old(State()), u, failing).outcome
    {
      if UpdateUser !in failing && u.id in users {
        users := users[u.id := u.deviceToken];
      }
      if InsertUser in failing {
        return Err;
      }
      if u.id !in users {
        users := users[u.id := None];
      }
      return Ok(u);
    }

    /** registerUser: saveUser under another name. */
    method RegisterUser(u: NewUser, failing: set<Statement>) returns (r: Outcome<NewUser>)
      requires Valid()
      modifies this
      ensures Valid()
      ensures State() == Effects.SaveUser(old(State()), u, failing).after
      ensures r == Effects.SaveUser(old(State()), u, failing).outcome
    {
      r := SaveUser(u, failing);
    }

    /** saveExternalAccount: update every row with the (user_id, provider)
        key, then insert one if there was none. */
    method SaveExternalAccount(uid: Id, a: ExternalAccount, failing: set<Statement>) returns (r: Outcome<()>)
      requires Valid()
      modifies this
      ensures Valid()
      ensures State() == Effects.SaveExternalAccount(old(State()), uid, a, failing).after
      ensures r == Effects.SaveExternalAccount(old(State()), uid, a, failing).outcome
    {
      if UpdateExternal !in failing {
        externalAuth := Effects.UpdateByKey(externalAuth, uid, a);
      }
      if InsertExternal in failing {
        return Err;
      }
      if !KeyPresent(externalAuth, uid, a.provider) {
        externalAuth := externalAuth + [Effects.NewRow(uid, a)];
      }
      return Ok(());
    }

    /** mergeIds: repoint id2's external accounts to id1, delete user id2,
        then read id1 back. */
    method MergeIds(id1: Id, id2: Id, failing: set<Statement>) returns (r: Outcome<Option<UserView>>)
      requires Valid()
      modifies this
      ensures Valid()
      ensures State() == Effects.MergeIds(old(State()), id1, id2, failing).after
      ensures r == Effects.MergeIds(old(State()), id1, id2, failing).outcome
    {
      if RepointExternal !in failing {
        externalAuth := Effects.Repoint(externalAuth, id2, id1);
      }
      if DeleteUser in failing {
        return Err;
      }
      users := users - {id2};
      r := GetUserById(State(), id1, failing);
    }

    /** getOrCreateStream for the logged-in user of `req`. */
    method GetOrCreateStream(req: Request, failing: set<Statement>) returns (r: Outcome<StreamObject>)
      requires Valid() && req.user.Some?
      modifies this
      ensures Valid()
      ensures State() == Effects.GetOrCreateStream(old(State()), req.user.value.id, req.body, failing).after
      ensures r == Effects.GetOrCreateStream(old(State()), req.user.value.id, req.body, failing).outcome
    {
      var user := req.user.value;
      if SelectStreams in failing {
        return Err;
      }
      var first := FirstIndex(streams, (s: StreamRow) => s.userId == user.id);
      if first.Some? {
        return Ok(Effects.Selected(streams[first.value]));
      }
      if InsertStream in failing {
        return Err;
      }
      var id := nextStreamId;
      streams := streams + [StreamRow(id, user.id, req.body.streamPath, req.body.streamName, req.body.streamDescription)];
      nextStreamId := id + 1;
      return Ok(StreamObject(id, user.id, req.body.streamPath, req.body.streamName, None));
    }

    /** generateId: draw an id, look it up, and try again while it is taken. */
    method GenerateId(attempts: seq<Effects.Attempt>, failing: set<Statement>) returns (r: Outcome<Id>)
      ensures r == Effects.GenerateId(State(), attempts, failing)
      ensures r.Ok? ==> r.value !in users
    {
      var k := 0;
      while k < |attempts|
        invariant 0 <= k <= |attempts|
        invariant Effects.GenerateId(State(), attempts, failing) == Effects.GenerateId(State(), attempts[k..], failing)
      {
        assert attempts[k..][0] == attempts[k] && attempts[k..][1..] == attempts[k + 1..];
        var id := BuildId(attempts[k]);
        var found := GetUserById(State(), id, failing);
        if found == Err {
          return Err;
        }
        if found == Ok(None) {
          return Ok(id);
        }
        k := k + 1;
      }
      return NeverSettles;
    }

    /** processExternalAuthentication: look the external account up, then
        act on whether it is linked and whether someone is logged in. */
    method ProcessExternalAuthentication(req: Request, a: ExternalAccount, attempts: seq<Effects.Attempt>,
                                         failing: set<Statement>) returns (r: Outcome<UserView>)
      requires Valid()
      modifies this, req
      ensures Valid()
      ensures var run := Effects.ProcessExternalAuthentication(old(State()), old(req.user), a, attempts, failing);
        State() == run.after && req.user == run.sessionUser && r == run.outcome
    {
      var link := GetUserAccountByExternalAccount(State(), a, failing);
      if link == Err {
        return Err;
      }
      if link.value.Some? {
        var owner := link.value.value;
        if req.user.Some? {
          if req.user.value.id == owner.id {
            return Ok(req.user.value);
          }
          // the merge's own promise is dropped: this one never settles
          var _ := MergeIds(owner.id, req.user.value.id, failing);
          return NeverSettles;
        }
        var found := GetUserById(State(), owner.id, failing);
        if found.Ok? && found.value.Some? {
          return Ok(found.value.value);
        }
        return NeverSettles;
      }
      if req.user.Some? {
        var user := req.user.value;
        var saved := SaveExternalAccount(user.id, a, failing);
        if saved.Err? {
          return NeverSettles;
        }
        req.user := Some(user.(accounts := user.accounts + [Submitted(a)]));
        return Ok(req.user.value);
      }
      var generated := GenerateId(attempts, failing);
      if !generated.Ok? {
        return NeverSettles;
      }
      var id := generated.value;
      var registered := RegisterUser(NewUser(id, None), failing);
      if registered.Err? {
        return NeverSettles;
      }
      var saved := SaveExternalAccount(id, a, failing);
      if saved.Err? {
        return NeverSettles;
      }
      return Ok(UserView(id, None, [Submitted(a)]));
    }
  }
}
