/**
 * The backend's database (`database.DB`): the four tables the services
 * read and write, and the exact-match queries they run.
 *
 * The `users` table is a sequence of rows in insertion order; its
 * auto-increment primary key gives row `i` the id `i + 1`.  The other tables
 * are maps from their unique column to the row.  Soft deletion and
 * database failures other than the unique-index violations are not modelled.
 */
module Store {
  import opened Wrappers
  import opened Models

  class Database {
    var users: seq<User>
    var clients: map<string, OAuthClient>
    var codes: map<string, AuthorizationCode>
    var tokens: map<string, AccessToken>

    /** The primary key and the unique indexes of the four tables. */
    ghost predicate Valid()
      reads this
    {
      UsersWellKeyed(users)
      && (forall k :: k in clients ==> clients[k].clientId == k)
      && (forall k :: k in codes ==> codes[k].code == k)
      && (forall k :: k in tokens ==> tokens[k].token == k)
    }

    /** A database holding the seeded clients and nothing else. */
    constructor (clients: map<string, OAuthClient>)
      requires forall k :: k in clients ==> clients[k].clientId == k
      ensures Valid()
      ensures this.users == [] && this.clients == clients && this.codes == map[] && this.tokens == map[]
    {
      this.users := [];
      this.clients := clients;
      this.codes := map[];
      this.tokens := map[];
    }
  }

  /** Row `i` has id `i + 1`, and no two rows share an email (the unique index on `email`). */
  ghost predicate UsersWellKeyed(users: seq<User>) {
    (forall i :: 0 <= i < |users| ==> users[i].id == i + 1)
    && (forall i, j :: 0 <= i < j < |users| ==> users[i].email != users[j].email)
  }

  /** `WHERE email = ? ... First`: the row with that email that has the smallest id. */
  function UserByEmail(users: seq<User>, email: string): (r: Option<User>)
    ensures r.Some? ==> r.value in users && r.value.email == email
    ensures r.None? <==> forall i :: 0 <= i < |users| ==> users[i].email != email
    ensures r.Some? && |users| > 0 && users[0].email == email ==> r.value == users[0]
  {
    if users == [] then None
    else if users[0].email == email then Some(users[0])
    else UserByEmail(users[1..], email)
  }

  /** `First(&user, id)`: the row with that primary key. */
  function UserById(users: seq<User>, id: nat): (r: Option<User>)
    ensures r.Some? ==> r.value in users && r.value.id == id
    ensures r.None? <==> forall i :: 0 <= i < |users| ==> users[i].id != id
  {
    if users == [] then None
    else if users[0].id == id then Some(users[0])
    else UserById(users[1..], id)
  }

  /** In a well-keyed table the lookup by id is positional. */
  lemma {:induction false} UserByIdPositional(users: seq<User>, id: nat)
    requires UsersWellKeyed(users)
    ensures UserById(users, id) == if 1 <= id <= |users| then Some(users[id - 1]) else None
  {
    if 1 <= id <= |users| {
      var r := UserById(users, id);
      assert users[id - 1].id == id;
      assert r.Some?;
      var k :| 0 <= k < |users| && users[k] == r.value;
      assert k == id - 1;
    }
  }

  /** In a well-keyed table the lookup by id finds every row by its own id. */
  lemma UserByIdOfRow(users: seq<User>, u: User)
    requires UsersWellKeyed(users) && u in users
    ensures UserById(users, u.id) == Some(u)
  {
    var k :| 0 <= k < |users| && users[k] == u;
    UserByIdPositional(users, u.id);
  }

  /** Appending a row with the next id and an unused email keeps the table well keyed. */
  lemma AppendUserKeepsKeys(users: seq<User>, u: User)
    requires UsersWellKeyed(users)
    requires u.id == |users| + 1
    requires UserByEmail(users, u.email).None?
    ensures UsersWellKeyed(users + [u])
  {
  }
}
