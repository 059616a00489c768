/** The in-memory user store of the FastAPI service
    (`fast_api_learn/fast_app.py`). */
module UserApi {

  /** The `User` request model. */
  datatype User = User(id: int, name: string, email: string)

  /** The module-level `users` list. */
  class UserStore {
    var users: seq<User>

    constructor()
      ensures users == []
    {
      users := [];
    }

    /** `GET /users/`: the whole list, in insertion order, unchanged. */
    method GetUsers() returns (r: seq<User>)
      ensures r == users
    {
      r := users;
    }

    /** `POST /users/`: appends the user, whatever its id, and echoes it. */
    method AddUser(user: User) returns (r: User)
      modifies this
      ensures r == user
      ensures users == old(users) + [user]
    {
      users := users + [user];
      r := user;
    }
  }

  /** The list after a sequence of `add_user` calls: the submitted users, in
      order, duplicates included. */
  function AfterAdds(start: seq<User>, added: seq<User>): (r: seq<User>)
    ensures |r| == |start| + |added|
    ensures r[..|start|] == start
    decreases |added|
  {
    if added == [] then start else AfterAdds(start + [added[0]], added[1..])
  }

  /** Adding users one by one keeps every user and the order they came in. */
  lemma {:induction false} AfterAddsIsConcatenation(start: seq<User>, added: seq<User>)
    ensures AfterAdds(start, added) == start + added
    decreases |added|
  {
    if added != [] {
      AfterAddsIsConcatenation(start + [added[0]], added[1..]);
      assert start + [added[0]] + added[1..] == start + added;
    }
  }

  /** A store that adds `added` in turn ends with `AfterAdds`. */
  method AddAll(store: UserStore, added: seq<User>)
    modifies store
    ensures store.users == AfterAdds(old(store.users), added)
  {
    ghost var start := store.users;
    var i := 0;
    while i < |added|
      invariant 0 <= i <= |added|
      invariant AfterAdds(store.users, added[i..]) == AfterAdds(start, added)
    {
      assert added[i..][0] == added[i] && added[i..][1..] == added[i + 1..];
      var _ := store.AddUser(added[i]);
      i := i + 1;
    }
  }
}
