/**
 * The roles repository: a table repository over "roles" and the access
 * decision its after-operation engine applies to every entry it touches.
 * Superusers may do anything; anybody else may only read their own entries;
 * anonymous callers may do nothing.
 */
module RolesRepo {
  import opened Wrappers
  import opened Text
  import Statement
  import Repo

  const Table: string := "roles"

  /** A row of the roles table: an entry id, the user it grants to, and the role. */
  datatype RoleEntry<R> = RoleEntry(id: string, userId: Int32, role: R)

  /** Who is calling: nobody, or a user with the role entries the caller holds. */
  datatype RepoLogin<R> =
    | Anonymous
    | User(callerId: Int32, callerRoles: seq<RoleEntry<R>>)

  /** The repository action being checked; only `Select` is told apart. */
  datatype Action = Select | Other(name: string)

  /** The engine's answer: the decision, and the entry and action it was asked about. */
  datatype Decision<R> = Decision(allowed: bool, entry: RoleEntry<R>, action: Action)

  /** Some role entry among `roles` is a superuser role (`is_su`), searched in order as the loop does. */
  function AnySuperuser<R>(roles: seq<RoleEntry<R>>, isSu: R -> bool): (r: bool)
    ensures r <==> exists i :: 0 <= i < |roles| && isSu(roles[i].role)
  {
    if roles == [] then false
    else if isSu(roles[0].role) then true
    else
      var r := AnySuperuser(roles[1..], isSu);
      assert r ==> exists i :: 0 <= i < |roles| && isSu(roles[i].role) by {
        if r {
          var i :| 0 <= i < |roles[1..]| && isSu(roles[1..][i].role);
          assert roles[i + 1] == roles[1..][i];
        }
      }
      assert (exists i :: 0 <= i < |roles| && isSu(roles[i].role)) ==> r by {
        if exists i :: 0 <= i < |roles| && isSu(roles[i].role) {
          var i :| 0 <= i < |roles| && isSu(roles[i].role);
          assert i != 0;
          assert roles[1..][i - 1] == roles[i];
        }
      }
      r
  }

  /** `check_acl`: the verdict is never an error and hands back the entry and the action unchanged. */
  function CheckAcl<R>(login: RepoLogin<R>, entry: RoleEntry<R>, action: Action, isSu: R -> bool): (v: Result<Decision<R>, string>)
    ensures v.Ok?
    ensures v.value.entry == entry && v.value.action == action
    ensures login.Anonymous? ==> !v.value.allowed
    ensures login.User? ==>
      (v.value.allowed <==>
        (exists i :: 0 <= i < |login.callerRoles| && isSu(login.callerRoles[i].role))
        || (action == Select && login.callerId == entry.userId))
  {
    var allowed := match login
      case Anonymous => false
      case User(callerId, callerRoles) =>
        if AnySuperuser(callerRoles, isSu) then true
        else if action == Select && callerId == entry.userId then true
        else false;
    Ok(Decision(allowed, entry, action))
  }

  /** A caller holding a superuser role is allowed every action on every entry. */
  lemma SuperuserAllowed<R>(id: Int32, roles: seq<RoleEntry<R>>, i: nat, entry: RoleEntry<R>, action: Action, isSu: R -> bool)
    requires i < |roles| && isSu(roles[i].role)
    ensures CheckAcl(User(id, roles), entry, action, isSu).value.allowed
  {
  }

  /** Without a superuser role, only reading one's own entries is allowed. */
  lemma OrdinaryUserAllowedIff<R>(id: Int32, roles: seq<RoleEntry<R>>, entry: RoleEntry<R>, action: Action, isSu: R -> bool)
    requires forall i :: 0 <= i < |roles| ==> !isSu(roles[i].role)
    ensures CheckAcl(User(id, roles), entry, action, isSu).value.allowed <==> action == Select && id == entry.userId
  {
  }

  /** Holding more roles never turns an allowed action into a denied one. */
  lemma MoreRolesMonotone<R>(id: Int32, roles: seq<RoleEntry<R>>, more: seq<RoleEntry<R>>, entry: RoleEntry<R>, action: Action, isSu: R -> bool)
    requires CheckAcl(User(id, roles), entry, action, isSu).value.allowed
    ensures CheckAcl(User(id, roles + more), entry, action, isSu).value.allowed
  {
    if !(action == Select && id == entry.userId) {
      var i :| 0 <= i < |roles| && isSu(roles[i].role);
      assert (roles + more)[i] == roles[i];
    }
  }

  /** `make_su_repo`: the plain repository over the roles table. */
  function MakeSuRepo(): (r: Repo.DbRepo)
    ensures r.table == "roles"
  {
    Repo.New(Table)
  }

  /** A repository with an after-operation access engine bound to one login. */
  datatype GuardedRepo<R> = GuardedRepo(repo: Repo.DbRepo, login: RepoLogin<R>)

  /** The verdict the engine of `g` gives for one entry and action. */
  function EngineVerdict<R>(g: GuardedRepo<R>, entry: RoleEntry<R>, action: Action, isSu: R -> bool): Result<Decision<R>, string>
  {
    CheckAcl(g.login, entry, action, isSu)
  }

  /** `make_repo`: the superuser repository, guarded by `check_acl` for `login`. */
  function MakeRepo<R>(login: RepoLogin<R>): (g: GuardedRepo<R>)
    ensures g.repo == MakeSuRepo() && g.login == login
  {
    GuardedRepo(MakeSuRepo(), login)
  }

  /** The repository made for an anonymous caller lets nothing through. */
  lemma AnonymousRepoDenies<R>(entry: RoleEntry<R>, action: Action, isSu: R -> bool)
    ensures !EngineVerdict(MakeRepo(Anonymous), entry, action, isSu).value.allowed
  {
  }
}
