/** The user-management prototype: users kept in one in-memory map from id
    to user, created, listed, read, replaced and deleted over HTTP. */
module UserApi {
  import opened Common
  import opened Decimal

  datatype User = User(id: string, name: string, email: string, age: int, createdAt: int)

  /** What a handler puts in the `data` field of its response. */
  datatype Data =
    | NoData
    | OneUser(user: User)
    | UserList(users: seq<User>)
    | ApiInfo(version: string, totalUsers: int)

  /** The JSON envelope every handler answers with, and its status code. */
  datatype Reply = Reply(status: int, success: bool, message: string, data: Data, error: string)

  function Failure(status: int, error: string): Reply {
    Reply(status, false, "", NoData, error)
  }

  /** `fmt.Sprintf("user_%d", nanos)`: the id minted from the clock. */
  function UserId(nanos: int): (id: string)
    ensures |id| > 5 && id[..5] == "user_"
  {
    "user_" + Itoa(nanos)
  }

  /** Different clock readings mint different ids. */
  lemma UserIdInjective(a: int, b: int)
    requires UserId(a) == UserId(b)
    ensures a == b
  {
    assert UserId(a)[5..] == Itoa(a) && UserId(b)[5..] == Itoa(b);
    ItoaInjective(a, b);
  }

  /** `s` lists the map's users, each once. */
  predicate ListsUsers(s: seq<User>, users: map<string, User>) {
    && (forall i :: 0 <= i < |s| ==> s[i].id in users && users[s[i].id] == s[i])
    && (forall id :: id in users ==> users[id] in s)
    && (forall i, j :: 0 <= i < j < |s| ==> s[i].id != s[j].id)
  }

  class UserStore {
    var users: map<string, User>

    /** Every user is stored under its own id. */
    ghost predicate Valid()
      reads this
    {
      forall id :: id in users ==> users[id].id == id
    }

    constructor ()
      ensures Valid() && users == map[]
    {
      users := map[];
    }

    /** `POST /api/users`. `body` is the decoded request, None when it does
        not decode; `nanos` and `now` are the clock readings. An id already
        in the map is overwritten. */
    method CreateUser(body: Option<User>, nanos: int, now: int) returns (reply: Reply)
      requires Valid()
      modifies this`users
      ensures Valid()
      ensures body.None? ==> reply == Failure(400, "Invalid request body") && users == old(users)
      ensures body.Some? && (body.value.name == "" || body.value.email == "")
        ==> reply == Failure(400, "Name and Email are required") && users == old(users)
      ensures reply.status == 201 <==> body.Some? && body.value.name != "" && body.value.email != ""
      ensures reply.status == 201 ==>
        var user := body.value.(id := UserId(nanos), createdAt := now);
        && users == old(users)[user.id := user]
        && reply == Reply(201, true, "User created successfully", OneUser(user), "")
    {
      if body.None? {
        return Failure(400, "Invalid request body");
      }
      var user := body.value;
      if user.name == "" || user.email == "" {
        return Failure(400, "Name and Email are required");
      }
      user := user.(id := UserId(nanos), createdAt := now);
      users := users[user.id := user];
      reply := Reply(201, true, "User created successfully", OneUser(user), "");
    }

    /** `GET /api/users`: every stored user once, in no promised order. */
    method GetAllUsers() returns (reply: Reply)
      requires Valid()
      ensures reply.status == 200 && reply.data.UserList?
      ensures ListsUsers(reply.data.users, users)
      ensures |reply.data.users| == |users|
      ensures reply.message == "Found " + Itoa(|users|) + " users"
    {
      var list: seq<User> := [];
      var remaining := users.Keys;
      while remaining != {}
        invariant remaining <= users.Keys
        invariant forall i :: 0 <= i < |list| ==> list[i].id in users && users[list[i].id] == list[i] && list[i].id !in remaining
        invariant forall id :: id in users && id !in remaining ==> users[id] in list
        invariant forall i, j :: 0 <= i < j < |list| ==> list[i].id != list[j].id
        invariant |list| + |remaining| == |users|
        decreases |remaining|
      {
        var id :| id in remaining;
        list := list + [users[id]];
        remaining := remaining - {id};
      }
      reply := Reply(200, true, "Found " + Itoa(|list|) + " users", UserList(list), "");
    }

    /** `GET /api/users/{id}`. */
    method GetUser(id: string) returns (reply: Reply)
      ensures id !in users ==> reply == Failure(404, "User not found")
      ensures id in users ==> reply == Reply(200, true, "User retrieved successfully", OneUser(users[id]), "")
    {
      if id !in users {
        return Failure(404, "User not found");
      }
      reply := Reply(200, true, "User retrieved successfully", OneUser(users[id]), "");
    }

    /** `PUT /api/users/{id}`: the user must exist before the body is even
        read; every field but the id and the creation time is replaced, with
        no check on name or email. */
    method UpdateUser(id: string, body: Option<User>) returns (reply: Reply)
      requires Valid()
      modifies this`users
      ensures Valid()
      ensures id !in old(users) ==> reply == Failure(404, "User not found") && users == old(users)
      ensures id in old(users) && body.None? ==> reply == Failure(400, "Invalid request body") && users == old(users)
      ensures id in old(users) && body.Some? ==>
        var updated := body.value.(id := id, createdAt := old(users)[id].createdAt);
        && users == old(users)[id := updated]
        && reply == Reply(200, true, "User updated successfully", OneUser(updated), "")
    {
      if id !in users {
        return Failure(404, "User not found");
      }
      var existing := users[id];
      if body.None? {
        return Failure(400, "Invalid request body");
      }
      var updated := body.value.(id := existing.id, createdAt := existing.createdAt);
      users := users[id := updated];
      reply := Reply(200, true, "User updated successfully", OneUser(updated), "");
    }

    /** `DELETE /api/users/{id}`. */
    method DeleteUser(id: string) returns (reply: Reply)
      requires Valid()
      modifies this`users
      ensures Valid()
      ensures id !in old(users) ==> reply == Failure(404, "User not found") && users == old(users)
      ensures id in old(users) ==> users == old(users) - {id} && reply == Reply(200, true, "User deleted successfully", NoData, "")
    {
      if id !in users {
        return Failure(404, "User not found");
      }
      users := users - {id};
      reply := Reply(200, true, "User deleted successfully", NoData, "");
    }

    /** `GET /`: the API version and the number of stored users. */
    method HomeHandler() returns (reply: Reply)
      ensures reply == Reply(200, true, "Welcome to User Management API", ApiInfo("1.0.0", |users|), "")
    {
      reply := Reply(200, true, "Welcome to User Management API", ApiInfo("1.0.0", |users|), "");
    }
  }

  /** A user just created is found under the id the reply carries, and the
      listing then holds one more user, unless the clock minted an id that
      was already taken. */
  method CreateThenRead(store: UserStore, body: User, nanos: int, now: int)
    returns (created: Reply, fetched: Reply, listed: Reply)
    requires store.Valid() && body.name != "" && body.email != ""
    modifies store`users
    ensures created.status == 201 && created.data.OneUser?
    ensures fetched == Reply(200, true, "User retrieved successfully", created.data, "")
    ensures listed.data.UserList?
    ensures UserId(nanos) !in old(store.users) ==> |listed.data.users| == |old(store.users)| + 1
  {
    created := store.CreateUser(Some(body), nanos, now);
    fetched := store.GetUser(created.data.user.id);
    listed := store.GetAllUsers();
  }
}
