/** Binding OIDC identities to local users: `resolve_oidc_user`, and any sequence of logins. */
module Oidc {
  import opened Prelude
  import opened Lookups

  type UserId = nat

  datatype User = User(email: string, sub: Option<string>, passwordHash: string, verified: bool, active: bool,
                       superuser: bool)

  type Users = map<UserId, User>

  datatype Refusal =
    | MissingSub | MissingEmail | UnverifiedEmail | NoMatchingAccount | EmailSubMismatch
    | MultipleResults | CommitFailed

  /** One login: the identity claims, the sign-up switch, and what the call draws or meets: a fresh
      id, the hash of a random password, and the fate of its commit. */
  datatype Login = Login(sub: string, email: string, emailVerified: bool, allowSignup: bool,
                         freshId: UserId, randomHash: string, commit: Fault)

  /** Case folding, the same in SQL and in Python. */
  type Fold = string -> string

  function BySub(users: Users, sub: string): set<UserId> {
    set u | u in users && users[u].sub == Some(sub)
  }

  function ByEmail(users: Users, fold: Fold, email: string): set<UserId> {
    set u | u in users && fold(users[u].email) == fold(email)
  }

  function Bound(u: User, l: Login): User {
    u.(sub := Some(l.sub), verified := true, passwordHash := l.randomHash)
  }

  function Provisioned(l: Login): User {
    User(l.email, Some(l.sub), l.randomHash, true, true, false)
  }

  /** The table and the answer after the commit of `users'`; if that fails the session is thrown away. */
  function Saved(users: Users, users': Users, l: Login, u: UserId): (Users, Result<UserId, Refusal>) {
    match l.commit
    case NoFault => (users', Ok(u))
    case FaultBefore => (users, Err(CommitFailed))
    case FaultAfter => (users', Err(CommitFailed))
  }

  /** The table after a login, and its answer. */
  ghost function Resolve(users: Users, fold: Fold, l: Login): (Users, Result<UserId, Refusal>) {
    if l.sub == "" then (users, Err(MissingSub))
    else if l.email == "" then (users, Err(MissingEmail))
    else
      match ScalarOneOrNone(BySub(users, l.sub))
      case Many => (users, Err(MultipleResults))
      case One(u) => (users, Ok(u))
      case NoRow =>
        match ScalarOneOrNone(ByEmail(users, fold, l.email))
        case Many => (users, Err(MultipleResults))
        case One(u) =>
          assert u in ByEmail(users, fold, l.email);
          if users[u].sub == None then
            if !l.emailVerified then (users, Err(UnverifiedEmail))
            else Saved(users, users[u := Bound(users[u], l)], l, u)
          else if users[u].sub != Some(l.sub) then (users, Err(EmailSubMismatch))
          else (users, Ok(u))
        case NoRow =>
          if !l.allowSignup then (users, Err(NoMatchingAccount))
          else if !l.emailVerified then (users, Err(UnverifiedEmail))
          else Saved(users, users[l.freshId := Provisioned(l)], l, l.freshId)
  }

  /** The session's view of the table, and the table as committed. */
  class UserTable {
    var users: Users
    var stored: Users

    constructor ()
      ensures users == stored == map[]
    {
      users, stored := map[], map[];
    }

    method ResolveOidcUser(fold: Fold, l: Login) returns (r: Result<UserId, Refusal>)
      requires users == stored && l.freshId !in users
      modifies this
      ensures users == stored && (stored, r) == Resolve(old(stored), fold, l)
    {
      if l.sub == "" {
        return Err(MissingSub);
      }
      if l.email == "" {
        return Err(MissingEmail);
      }
      var existing := FetchOne(BySub(users, l.sub));
      if existing == Many {
        return Err(MultipleResults);
      }
      if existing.One? {
        return Ok(existing.id);
      }
      ghost var ids := ByEmail(users, fold, l.email);
      var byEmail := FetchOne(ByEmail(users, fold, l.email));
      if byEmail == Many {
        return Err(MultipleResults);
      }
      if byEmail.One? {
        var u := byEmail.id;
        assert u in ids;
        if users[u].sub == None {
          if !l.emailVerified {
            return Err(UnverifiedEmail);
          }
          users := users[u := users[u].(sub := Some(l.sub))];
          users := users[u := users[u].(verified := true)];
          users := users[u := users[u].(passwordHash := l.randomHash)];
          assert users == old(users)[u := Bound(old(users)[u], l)];
          r := CommitUser(l, u);
          return;
        }
        assert u !in BySub(users, l.sub);
        if users[u].sub != Some(l.sub) {
          return Err(EmailSubMismatch);
        }
        // The defensive return: unreachable, as the subject search above would have found this user.
        assert false;
      }
      if !l.allowSignup {
        return Err(NoMatchingAccount);
      }
      if !l.emailVerified {
        return Err(UnverifiedEmail);
      }
      users := users[l.freshId := Provisioned(l)];
      r := CommitUser(l, l.freshId);
    }

    /** The commit of the pending view, and the end of the session if it fails. */
    method CommitUser(l: Login, u: UserId) returns (r: Result<UserId, Refusal>)
      modifies this
      ensures users == stored && (stored, r) == Saved(old(stored), old(users), l, u)
    {
      if l.commit == FaultBefore {
        users := stored;
      } else {
        stored := users;
      }
      r := if l.commit == NoFault then Ok(u) else Err(CommitFailed);
    }
  }

  // ---------- Over any sequence of logins ----------

  ghost predicate SubsUnique(users: Users) {
    forall u, v | u in users && v in users :: users[u].sub.Some? && users[u].sub == users[v].sub ==> u == v
  }

  ghost predicate EmailsUnique(users: Users, fold: Fold) {
    forall u, v | u in users && v in users :: fold(users[u].email) == fold(users[v].email) ==> u == v
  }

  ghost predicate Inv(users: Users, fold: Fold) {
    SubsUnique(users) && EmailsUnique(users, fold)
  }

  /** Every login draws an id nobody has. */
  ghost predicate FreshDraws(users: Users, fold: Fold, ls: seq<Login>)
    decreases |ls|
  {
    ls == [] || (ls[0].freshId !in users && FreshDraws(Resolve(users, fold, ls[0]).0, fold, ls[1..]))
  }

  ghost function Logins(users: Users, fold: Fold, ls: seq<Login>): Users
    decreases |ls|
  {
    if ls == [] then users else Logins(Resolve(users, fold, ls[0]).0, fold, ls[1..])
  }

  /** What no login may do: lose a user, or change or move a subject that is set. */
  ghost predicate BindingsKept(users: Users, users': Users) {
    forall u :: u in users ==> u in users' && users'[u].email == users[u].email
                               && (users[u].sub.Some? ==> users'[u] == users[u])
  }

  lemma SubSearch(users: Users, sub: string)
    requires SubsUnique(users)
    ensures match ScalarOneOrNone(BySub(users, sub))
            case One(u) => u in users && users[u].sub == Some(sub)
            case NoRow => forall u :: u in users ==> users[u].sub != Some(sub)
            case Many => false
  {
    var ids := BySub(users, sub);
    if ids == {} {
      assert forall u :: u in users && users[u].sub == Some(sub) ==> u in ids;
    } else {
      var u :| u in ids;
      assert ids == {u};
    }
  }

  lemma EmailSearch(users: Users, fold: Fold, email: string)
    requires EmailsUnique(users, fold)
    ensures match ScalarOneOrNone(ByEmail(users, fold, email))
            case One(u) => u in users && fold(users[u].email) == fold(email)
            case NoRow => forall u :: u in users ==> fold(users[u].email) != fold(email)
            case Many => false
  {
    var ids := ByEmail(users, fold, email);
    if ids == {} {
      assert forall u :: u in users && fold(users[u].email) == fold(email) ==> u in ids;
    } else {
      var u :| u in ids;
      assert ids == {u};
    }
  }

  predicate HasSub(users: Users, u: UserId, sub: string) {
    u in users && users[u].sub == Some(sub)
  }

  predicate HasEmail(users: Users, fold: Fold, u: UserId, email: string) {
    u in users && fold(users[u].email) == fold(email)
  }

  /** An account of the login's email, with no account of its subject: bound to another subject it conflicts;
      else a verified email binds it, marks it verified and gives it the random password. */
  ghost predicate LinkDecided(users: Users, l: Login, u: UserId, users': Users, r: Result<UserId, Refusal>)
    requires u in users
  {
    var user := users[u];
    if user.sub.Some? then r == Err(EmailSubMismatch) && users' == users
    else if !l.emailVerified then r == Err(UnverifiedEmail) && users' == users
    else
      && r == Ok(u)
      && users' == users[u := User(user.email, Some(l.sub), l.randomHash, true, user.active, user.superuser)]
  }

  /** No account of subject or email: with sign-up allowed a verified email gets a new one, active, verified,
      no superuser, with a random password. */
  predicate SignUpDecided(users: Users, l: Login, users': Users, r: Result<UserId, Refusal>) {
    if !l.allowSignup then r == Err(NoMatchingAccount) && users' == users
    else if !l.emailVerified then r == Err(UnverifiedEmail) && users' == users
    else
      r == Ok(l.freshId) && users' == users[l.freshId := User(l.email, Some(l.sub), l.randomHash, true, true, false)]
  }

  /** The whole decision, first case first: no subject, no email, a bound subject, an account of this email,
      and none. */
  lemma ResolveDecides(users: Users, fold: Fold, l: Login)
    requires Inv(users, fold) && l.freshId !in users && l.commit == NoFault
    ensures var (users', r) := Resolve(users, fold, l);
            if l.sub == "" then r == Err(MissingSub) && users' == users
            else if l.email == "" then r == Err(MissingEmail) && users' == users
            else if exists u :: HasSub(users, u, l.sub) then
              r.Ok? && HasSub(users, r.value, l.sub) && users' == users
            else if exists u :: HasEmail(users, fold, u, l.email) then
              exists u :: HasEmail(users, fold, u, l.email) && LinkDecided(users, l, u, users', r)
            else SignUpDecided(users, l, users', r)
  {
    SubSearch(users, l.sub);
    EmailSearch(users, fold, l.email);
    hide BySub;
    hide ByEmail;
    var bySub, byEmail := ScalarOneOrNone(BySub(users, l.sub)), ScalarOneOrNone(ByEmail(users, fold, l.email));
    assert bySub.One? ==> HasSub(users, bySub.id, l.sub);
    assert byEmail.One? ==> HasEmail(users, fold, byEmail.id, l.email);
  }

  lemma BoundKeeps(users: Users, fold: Fold, l: Login, u: UserId)
    requires Inv(users, fold) && u in users && users[u].sub == None
    requires forall v :: v in users ==> users[v].sub != Some(l.sub)
    ensures Inv(users[u := Bound(users[u], l)], fold) && BindingsKept(users, users[u := Bound(users[u], l)])
  {
  }

  lemma ProvisionedKeeps(users: Users, fold: Fold, l: Login)
    requires Inv(users, fold) && l.freshId !in users
    requires forall v :: v in users ==> users[v].sub != Some(l.sub) && fold(users[v].email) != fold(l.email)
    ensures Inv(users[l.freshId := Provisioned(l)], fold)
    ensures BindingsKept(users, users[l.freshId := Provisioned(l)])
  {
  }

  lemma ResolveKeeps(users: Users, fold: Fold, l: Login)
    requires Inv(users, fold) && l.freshId !in users
    ensures var (users', r) := Resolve(users, fold, l);
            && Inv(users', fold) && BindingsKept(users, users')
            && (r.Err? && r.error != CommitFailed ==> users' == users)
            && (r.Ok? ==> r.value in users' && users'[r.value].sub == Some(l.sub))
            && r != Err(MultipleResults)
  {
    SubSearch(users, l.sub);
    EmailSearch(users, fold, l.email);
    assert BindingsKept(users, users);
    hide BySub;
    hide ByEmail;
    hide Inv;
    hide BindingsKept;
    if ScalarOneOrNone(BySub(users, l.sub)) == NoRow {
      match ScalarOneOrNone(ByEmail(users, fold, l.email)) {
        case One(u) =>
          if users[u].sub == None {
            BoundKeeps(users, fold, l, u);
          }
        case NoRow => ProvisionedKeeps(users, fold, l);
        case Many =>
      }
    }
  }

  /** A failed commit leaves the table as it was, or as the commit would have left it. */
  lemma LostCommit(users: Users, fold: Fold, l: Login)
    requires Resolve(users, fold, l).1 == Err(CommitFailed)
    ensures var clean := Resolve(users, fold, l.(commit := NoFault));
            && clean.1.Ok? && l.commit != NoFault
            && Resolve(users, fold, l).0 == if l.commit == FaultBefore then users else clean.0
  {
    hide BySub;
    hide ByEmail;
  }

  /** Identity binding over any run: subjects and folded emails stay unique, no user is lost, and a
      set subject is never changed or moved to another user. */
  lemma {:induction false} LoginsKeep(users: Users, fold: Fold, ls: seq<Login>)
    requires Inv(users, fold) && FreshDraws(users, fold, ls)
    ensures Inv(Logins(users, fold, ls), fold) && BindingsKept(users, Logins(users, fold, ls))
    decreases |ls|
  {
    if ls != [] {
      ResolveKeeps(users, fold, ls[0]);
      LoginsKeep(Resolve(users, fold, ls[0]).0, fold, ls[1..]);
    }
  }

  /** Once a login has bound a subject, every later login with it, whatever email or switches it
      carries and whatever logins came between, gives the same user and changes nothing. */
  lemma SubjectSticks(users: Users, fold: Fold, l: Login, between: seq<Login>, again: Login)
    requires Inv(users, fold) && FreshDraws(users, fold, [l] + between)
    requires Resolve(users, fold, l).1.Ok? && again.sub == l.sub && again.email != ""
    ensures var later := Logins(users, fold, [l] + between);
            Resolve(later, fold, again) == (later, Resolve(users, fold, l).1)
  {
    var (users1, r) := Resolve(users, fold, l);
    ResolveKeeps(users, fold, l);
    assert ([l] + between)[1..] == between;
    LoginsKeep(users1, fold, between);
    var later := Logins(users1, fold, between);
    assert later == Logins(users, fold, [l] + between);
    assert r.value in BySub(later, l.sub);
    assert BySub(later, l.sub) == {r.value};
  }

  /** So it is after a login that raised although its commit took effect: a retry, with whatever it draws
      and whatever came between, gives the user the first try would have given and changes nothing. */
  lemma RetrySettles(users: Users, fold: Fold, l: Login, between: seq<Login>, again: Login)
    requires Inv(users, fold) && FreshDraws(users, fold, [l] + between)
    requires Resolve(users, fold, l).1 == Err(CommitFailed) && l.commit == FaultAfter
    requires again.sub == l.sub && again.email != ""
    ensures var later := Logins(users, fold, [l] + between);
            Resolve(later, fold, again) == (later, Resolve(users, fold, l.(commit := NoFault)).1)
  {
    hide Resolve;
    var clean := l.(commit := NoFault);
    LostCommit(users, fold, l);
    assert ([l] + between)[1..] == between && ([clean] + between)[1..] == between;
    SubjectSticks(users, fold, clean, between, again);
  }

  /** An unverified email never gains a binding: no user is added and no subject set. */
  lemma UnverifiedGainsNothing(users: Users, fold: Fold, l: Login)
    requires !l.emailVerified
    ensures Resolve(users, fold, l).0 == users
    ensures Resolve(users, fold, l).1.Ok? ==> Resolve(users, fold, l).1.value in BySub(users, l.sub)
  {
    if ScalarOneOrNone(BySub(users, l.sub)).One? {
      assert ScalarOneOrNone(BySub(users, l.sub)).id in BySub(users, l.sub);
    }
    if ScalarOneOrNone(ByEmail(users, fold, l.email)).One? {
      assert ScalarOneOrNone(ByEmail(users, fold, l.email)).id in ByEmail(users, fold, l.email);
    }
  }

  /** A user who gains a subject was found by folded email with the email verified, and from then on
      has a random password and counts as verified. */
  lemma LinkInvalidatesPassword(users: Users, fold: Fold, l: Login, u: UserId)
    requires u in users && u != l.freshId && Resolve(users, fold, l).0[u] != users[u]
    ensures users[u].sub == None && fold(users[u].email) == fold(l.email) && l.emailVerified
    ensures Resolve(users, fold, l).0[u] ==
            users[u].(sub := Some(l.sub), verified := true, passwordHash := l.randomHash)
  {
    assert ScalarOneOrNone(ByEmail(users, fold, l.email)) == One(u);
    assert u in ByEmail(users, fold, l.email);
  }
}
