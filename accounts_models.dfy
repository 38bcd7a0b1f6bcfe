/** The custom user model of the accounts application: the role column, the role
    predicates, a new user's defaults, and the user table that forms and views update. */
module AccountModels {
  import opened Wrappers

  /** Primary key of a user row. The database hands out keys from 1; 0 stands for
      "no primary key yet" (an instance that was never saved). */
  type UserId = nat

  const NoId: UserId := 0

  /** The declared choices of `CustomUser.Role`, as stored in the `role` text column. */
  const ADMIN: string := "admin"
  const OWNER: string := "owner"
  const VERIFIER: string := "verifier"

  /** The role column is a plain text column: the choices are checked by forms, not by
      the database, so a row may hold any string. */
  predicate IsDeclaredRole(role: string) {
    role == ADMIN || role == OWNER || role == VERIFIER
  }

  /** One row of the user table. `owner` is the verifier's owning account (a nullable
      foreign key to the same table); `password` is the value handed to `set_password`. */
  datatype User = User(
    id: UserId,
    username: string,
    email: string,
    role: string,
    isSuperuser: bool,
    owner: Option<UserId>,
    password: string)

  /** `is_admin`: administrator role, or the superuser flag. */
  predicate IsAdmin(u: User) {
    u.role == ADMIN || u.isSuperuser
  }

  /** `is_owner`: the owner role, whatever the superuser flag. */
  predicate IsOwner(u: User) {
    u.role == OWNER
  }

  /** `is_verifier`: the verifier role, whatever the superuser flag. */
  predicate IsVerifier(u: User) {
    u.role == VERIFIER
  }

  /** An instance built from form data before any field is forced: the model's
      defaults apply, so its role is OWNER, it is no superuser, it has no owner. */
  function NewUser(username: string, email: string): (u: User)
    ensures u.role == OWNER && IsOwner(u) && !IsVerifier(u) && !IsAdmin(u)
    ensures u.username == username && u.email == email
    ensures u.id == NoId && u.owner == None && !u.isSuperuser
  {
    User(NoId, username, email, OWNER, false, None, "")
  }

  /** The owner and verifier predicates exclude each other; the admin predicate is
      independent of both through the superuser flag. */
  lemma RolePredicates(u: User)
    ensures !(IsOwner(u) && IsVerifier(u))
    ensures IsOwner(u) && u.isSuperuser ==> IsAdmin(u)
    ensures IsVerifier(u) && u.isSuperuser ==> IsAdmin(u)
    ensures IsAdmin(u) && !u.isSuperuser ==> !IsOwner(u) && !IsVerifier(u)
    ensures IsDeclaredRole(u.role) ==> IsAdmin(u) || IsOwner(u) || IsVerifier(u)
  {
  }

  /** `request.user`: the anonymous user, or an authenticated account. */
  datatype Principal = Anonymous | Authenticated(user: User)

  /** The pages the accounts code redirects to: `qrgenerator:verify_code`,
      `qrgenerator:dashboard`, `home`, and the admin site's literal path. */
  datatype Route = VerifyCodePage | DashboardPage | HomePage | AdminSite

  const AdminSitePath: string := "/J7GuncjzSMsqWhSveaYRwg/"

  /** The user table: rows keyed by primary key, and the next key the database will hand out. */
  class UserTable {
    var rows: map<UserId, User>
    var nextId: UserId

    /** Every row is stored under its own key, and every key is below `nextId`. */
    ghost predicate Valid()
      reads this
    {
      && nextId > NoId
      && forall id | id in rows :: rows[id].id == id && NoId < id < nextId
    }

    constructor ()
      ensures Valid() && rows == map[] && nextId == 1
    {
      rows := map[];
      nextId := 1;
    }

    /** `save()` of an instance that has no primary key yet: an INSERT under a fresh key. */
    method Insert(u: User) returns (saved: User)
      requires Valid()
      modifies this
      ensures Valid()
      ensures saved == u.(id := old(nextId)) && saved.id !in old(rows)
      ensures rows == old(rows)[saved.id := saved] && nextId == old(nextId) + 1
    {
      saved := u.(id := nextId);
      rows := rows[saved.id := saved];
      nextId := nextId + 1;
    }

    /** `save()` of an instance that has a primary key: it replaces the row under that key. */
    method Update(u: User)
      requires Valid() && u.id in rows
      modifies this
      ensures Valid() && rows == old(rows)[u.id := u] && nextId == old(nextId)
    {
      rows := rows[u.id := u];
    }
  }
}
