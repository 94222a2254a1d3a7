/**
 * The administrator's role change, `PATCH /api/admin/users/:id/role`: the
 * role must be one of the three known ones, an administrator may not change
 * their own role, and the update writes the role column of one user and
 * answers with that user's public fields.
 *
 * The users table is a class holding its rows. The path parameter is what
 * `parseInt` gives (None for NaN) and the body's `role` is None when it is
 * not a string.
 */
module AdminController {
  import opened Wrappers
  import opened Text

  datatype UserRecord = UserRecord(id: int, name: string, email: string, password: string, role: string)

  /** The columns the update selects: everything but the password. */
  datatype UserView = UserView(id: int, name: string, email: string, role: string)

  datatype RoleReply =
    | Changed(user: UserView)       // 200
    | BadRequest(message: string)   // 400
    | ServerError(message: string)  // 500

  const ValidRoles: seq<string> := ["admin", "manager", "executor"]
  const InvalidRoleMessage: string := "Невалидная роль. Допустимые: " + JoinWith(ValidRoles, ", ")
  const SelfChangeMessage: string := "Нельзя менять свою роль"
  const ServerErrorMessage: string := "Ошибка сервера"

  /** The message lists the roles in order, separated by commas. */
  lemma InvalidRoleMessageText()
    ensures InvalidRoleMessage == "Невалидная роль. Допустимые: admin, manager, executor"
  {
    JoinThree("admin", "manager", "executor", ", ");
  }

  function View(u: UserRecord): UserView {
    UserView(u.id, u.name, u.email, u.role)
  }

  /** The two 400 checks, the role first: `None` lets the update proceed. */
  function CheckRoleChange(requesterId: int, id: Option<int>, role: Option<string>): (r: Option<RoleReply>)
    ensures r == Some(BadRequest(InvalidRoleMessage)) <==> role.None? || role.value !in ValidRoles
    ensures r == Some(BadRequest(SelfChangeMessage)) <==>
              role.Some? && role.value in ValidRoles && id == Some(requesterId)
    ensures r.None? <==> role.Some? && role.value in ValidRoles && id != Some(requesterId)
  {
    if role.None? || role.value !in ValidRoles then Some(BadRequest(InvalidRoleMessage))
    else if id == Some(requesterId) then Some(BadRequest(SelfChangeMessage))
    else None
  }

  /** The index of the user with that id. */
  function FindUser(users: seq<UserRecord>, id: int): (r: Option<nat>)
    ensures r.Some? ==> r.value < |users| && users[r.value].id == id
    ensures r.None? ==> forall i :: 0 <= i < |users| ==> users[i].id != id
  {
    if users == [] then None
    else if users[|users| - 1].id == id then Some(|users| - 1)
    else FindUser(users[..|users| - 1], id)
  }

  /** `changeRole` on the table: the checks; then, for an id that names a
      user, that user's role replaced; an id that is NaN or names nobody
      makes the update throw, answered as a server error. */
  function ChangeRole(users: seq<UserRecord>, requesterId: int, id: Option<int>, role: Option<string>)
    : (r: (RoleReply, seq<UserRecord>))
    ensures |r.1| == |users|
  {
    match CheckRoleChange(requesterId, id, role)
    case Some(reply) => (reply, users)
    case None =>
      if id.None? then (ServerError(ServerErrorMessage), users)
      else match FindUser(users, id.value)
      case None => (ServerError(ServerErrorMessage), users)
      case Some(k) =>
        var updated := users[k].(role := role.value);
        (Changed(View(updated)), users[k := updated])
  }

  /** A rejected request changes nothing, and only a valid role for another
      user who exists is written. */
  lemma ChangeRoleRejects(users: seq<UserRecord>, requesterId: int, id: Option<int>, role: Option<string>)
    ensures ChangeRole(users, requesterId, id, role).0.Changed? <==>
              && role.Some? && role.value in ValidRoles && id.Some? && id.value != requesterId
              && exists i :: 0 <= i < |users| && users[i].id == id.value
    ensures !ChangeRole(users, requesterId, id, role).0.Changed? ==> ChangeRole(users, requesterId, id, role).1 == users
  {
    if CheckRoleChange(requesterId, id, role).None? && id.Some? {
      var k := FindUser(users, id.value);
      if k.Some? {
        assert users[k.value].id == id.value;
      }
    }
  }

  /** A successful change writes the role column of exactly one user, keeps
      every other column and every other user, and answers with that user's
      public fields. */
  lemma ChangeRoleWritesOnlyTheRole(users: seq<UserRecord>, requesterId: int, id: Option<int>, role: Option<string>)
    requires ChangeRole(users, requesterId, id, role).0.Changed?
    ensures id.Some? && role.Some?
    ensures var (reply, after) := ChangeRole(users, requesterId, id, role);
      exists k :: 0 <= k < |users| && users[k].id == id.value
        && after[k] == users[k].(role := role.value)
        && reply.user == UserView(users[k].id, users[k].name, users[k].email, role.value)
        && (forall j :: 0 <= j < |users| && j != k ==> after[j] == users[j])
  {
    ChangeRoleRejects(users, requesterId, id, role);
    var k := FindUser(users, id.value).value;
    assert ChangeRole(users, requesterId, id, role).1[k] == users[k].(role := role.value);
  }

  /** The primary key: no two users share an id. */
  predicate UniqueIds(users: seq<UserRecord>) {
    forall i, j :: 0 <= i < j < |users| ==> users[i].id != users[j].id
  }

  /** A role change keeps every user's id in place, so the key stays
      unique and the changed user is the only one with that id. */
  lemma ChangeRoleKeepsUniqueIds(users: seq<UserRecord>, requesterId: int, id: Option<int>, role: Option<string>)
    requires UniqueIds(users)
    ensures var after := ChangeRole(users, requesterId, id, role).1;
      && UniqueIds(after)
      && forall i :: 0 <= i < |users| ==> after[i].id == users[i].id
  {
  }

  class UserTable {
    var users: seq<UserRecord>

    ghost predicate Valid()
      reads this
    {
      UniqueIds(users)
    }

    constructor (users: seq<UserRecord>)
      requires UniqueIds(users)
      ensures Valid() && this.users == users
    {
      this.users := users;
    }

    /** `changeRole(req, res)` against this table. */
    method ChangeRoleOf(requesterId: int, id: Option<int>, role: Option<string>) returns (reply: RoleReply)
      requires Valid()
      modifies this
      ensures Valid()
      ensures (reply, users) == ChangeRole(old(users), requesterId, id, role)
    {
      ChangeRoleKeepsUniqueIds(users, requesterId, id, role);
      var rejected := CheckRoleChange(requesterId, id, role);
      if rejected.Some? {
        reply := rejected.value;
        return;
      }
      if id.None? {
        reply := ServerError(ServerErrorMessage);
        return;
      }
      var k := FindUser(users, id.value);
      if k.None? {
        reply := ServerError(ServerErrorMessage);
        return;
      }
      var updated := users[k.value].(role := role.value);
      users := users[k.value := updated];
      reply := Changed(View(updated));
    }
  }
}
