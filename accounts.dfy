/**
  The user and admin collections as registration and login query them.
 */
module Accounts {
  import opened Domain
  import Collection

  /** No two users share a username or an email (the schema's unique indexes). */
  predicate UniqueAccounts(users: seq<User>) {
    forall i, j :: 0 <= i < j < |users| ==>
      users[i].username != users[j].username && users[i].email != users[j].email
  }

  /** The invariant of the user and admin collections. */
  predicate Consistent(users: seq<User>, admins: seq<Admin>, nextId: Id) {
    && (forall i :: 0 <= i < |users| ==> users[i].id < nextId)
    && (forall i, j :: 0 <= i < j < |users| ==> users[i].id != users[j].id)
    && UniqueAccounts(users)
    && (forall i :: 0 <= i < |admins| ==> admins[i].id < nextId)
  }

  lemma ConsistentLater(users: seq<User>, admins: seq<Admin>, nextId: Id, nextId': Id)
    requires Consistent(users, admins, nextId) && nextId <= nextId'
    ensures Consistent(users, admins, nextId')
  {
  }

  /** `User.findOne({ $or: [{ email }, { username }] })`. */
  function FindClash(users: seq<User>, username: string, email: string): (r: Option<nat>)
    ensures r.Some? ==> r.value < |users|
    ensures r.Some? ==> users[r.value].email == email || users[r.value].username == username
    ensures r.None? <==> forall j :: 0 <= j < |users| ==> users[j].email != email && users[j].username != username
  {
    Collection.FindOne(users, (u: User) => u.email == email || u.username == username)
  }

  /** Appending a user that clashes with nobody keeps usernames and emails unique. */
  lemma AppendKeepsUnique(users: seq<User>, user: User)
    requires UniqueAccounts(users)
    requires FindClash(users, user.username, user.email).None?
    ensures UniqueAccounts(users + [user])
  {
  }

  /** `User.findOne({ username })`. */
  function FindUser(users: seq<User>, username: string): (r: Option<nat>)
    ensures r.Some? ==> r.value < |users| && users[r.value].username == username
    ensures r.None? <==> forall j :: 0 <= j < |users| ==> users[j].username != username
  {
    Collection.FindOne(users, (u: User) => u.username == username)
  }

  /** `Admin.findOne({ username })`. */
  function FindAdmin(admins: seq<Admin>, username: string): (r: Option<nat>)
    ensures r.Some? ==> r.value < |admins| && admins[r.value].username == username
    ensures r.None? <==> forall j :: 0 <= j < |admins| ==> admins[j].username != username
  {
    Collection.FindOne(admins, (a: Admin) => a.username == username)
  }

  /** The admin account `POST /api/seed` creates; `password` is the hash of "admin123". */
  function DefaultAdmin(id: Id, password: string): (admin: Admin)
    ensures admin.role == AdminRole
    ensures FindAdmin([admin], "admin") == Some(0)
  {
    Admin(id, "admin", "admin@example.com", password, AdminRole)
  }
}
