/** The User record and the username-uniqueness invariant of the `users` collection. */
module Users {
  import opened Wrappers
  import opened Documents

  /** What a client sends to log in: a username and a plaintext password, nothing else. */
  datatype UserInput = UserInput(username: string, password: string)

  /** A stored user; `password` holds the bcrypt hash. */
  datatype User = User(id: ObjectId, username: string, password: string, createdAt: Time, updatedAt: Time)

  /** A user document as `new User({username, password})` builds it at time `now`. */
  function NewUser(id: ObjectId, username: string, password: string, now: Time): (u: User)
    ensures u.id == id && u.username == username && u.password == password
    ensures u.createdAt == u.updatedAt == now
  {
    User(id, username, password, now, now)
  }

  /** The schema's `required` checks, which reject a missing or empty string. */
  predicate RequiredFieldsPresent(u: User) {
    u.username != "" && u.password != ""
  }

  /** The unique index on `username`: no two stored users share one. */
  predicate UniqueUsernames(users: seq<User>) {
    forall i, j :: 0 <= i < j < |users| ==> users[i].username != users[j].username
  }

  /** `findOne({username})`: the first stored user with that username, if any. */
  function FindByUsername(users: seq<User>, username: string): (r: Option<User>)
    ensures r.Some? ==> r.value in users && r.value.username == username
    ensures r.None? <==> forall u <- users :: u.username != username
  {
    if users == [] then None
    else if users[0].username == username then Some(users[0])
    else FindByUsername(users[1..], username)
  }

  /** Inserting keeps usernames unique exactly when the username is not yet taken. */
  lemma {:induction false} InsertKeepsUnique(users: seq<User>, u: User)
    requires UniqueUsernames(users)
    ensures UniqueUsernames(users + [u]) <==> FindByUsername(users, u.username).None?
  {
    var all := users + [u];
    if FindByUsername(users, u.username).None? {
      forall i, j | 0 <= i < j < |all| ensures all[i].username != all[j].username {
        if j == |users| {
          assert all[i] in users;
        }
      }
    } else {
      var v := FindByUsername(users, u.username).value;
      var k :| 0 <= k < |users| && users[k] == v;
      assert all[k].username == all[|users|].username;
    }
  }

  /** Under the unique index, looking up a stored user's username finds that user. */
  lemma {:induction false} FindByUsernameFindsStored(users: seq<User>, u: User)
    requires UniqueUsernames(users) && u in users
    ensures FindByUsername(users, u.username) == Some(u)
  {
  }
}
