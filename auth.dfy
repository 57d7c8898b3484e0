/**
 * The authentication context: the signed-in user, the authenticated and
 * redirect flags, and the browser's key/value store holding the user record
 * under one fixed key.
 */
module Auth {
  import opened Wrappers

  datatype PlanTier = Free | Developer | Team | Enterprise | Custom

  datatype User = User(id: string, email: string, name: string, avatar: Option<string>, plan: PlanTier)

  /** A partial user: each present field overrides the user's. */
  datatype UserPatch = UserPatch(
    id: Option<string>,
    email: Option<string>,
    name: Option<string>,
    avatar: Option<string>,
    plan: Option<PlanTier>)

  /** A stored text as JSON.parse sees it: a serialised user, the literal `null`, or text
      that does not parse (the empty text among them). */
  datatype Stored = UserJson(user: User) | NullJson | Unparseable(text: string)

  const StorageKey := "defensis_user"

  /** `email.split('@')[0]`: the text before the first '@', or all of it. */
  function EmailPrefix(email: string): (name: string)
    ensures |name| <= |email| && name == email[..|name|]
    ensures '@' !in name
    ensures |name| < |email| ==> email[|name|] == '@'
  {
    if email == [] || email[0] == '@' then ""
    else
      assert email[..1 + |EmailPrefix(email[1..])|] == [email[0]] + email[1..][..|EmailPrefix(email[1..])|];
      [email[0]] + EmailPrefix(email[1..])
  }

  /** The name of `local@domain` is `local`. */
  lemma {:induction false} EmailPrefixOfAddress(local: string, domain: string)
    requires '@' !in local
    ensures EmailPrefix(local + "@" + domain) == local
  {
    if local != [] {
      assert (local + "@" + domain)[1..] == local[1..] + "@" + domain;
      EmailPrefixOfAddress(local[1..], domain);
    }
  }

  /** `{ ...user, ...patch }`. */
  function Merge(u: User, p: UserPatch): (r: User)
    ensures r.id == p.id.GetOr(u.id) && r.email == p.email.GetOr(u.email)
    ensures r.name == p.name.GetOr(u.name) && r.plan == p.plan.GetOr(u.plan)
    ensures r.avatar == if p.avatar.Some? then p.avatar else u.avatar
  {
    User(p.id.GetOr(u.id), p.email.GetOr(u.email), p.name.GetOr(u.name),
         if p.avatar.Some? then p.avatar else u.avatar, p.plan.GetOr(u.plan))
  }

  const NoChange := UserPatch(None, None, None, None, None)

  /** The later patch's field where it has one, otherwise the earlier patch's. */
  function Override<T>(later: Option<T>, earlier: Option<T>): Option<T> {
    if later.Some? then later else earlier
  }

  /** Two patches as one: the fields of `q` win over those of `p`. */
  function Combine(p: UserPatch, q: UserPatch): UserPatch {
    UserPatch(Override(q.id, p.id), Override(q.email, p.email), Override(q.name, p.name),
              Override(q.avatar, p.avatar), Override(q.plan, p.plan))
  }

  /** Two successive updates equal one update with the combined patch, the later fields winning. */
  lemma MergeCompose(u: User, p: UserPatch, q: UserPatch)
    ensures Merge(Merge(u, p), q) == Merge(u, Combine(p, q))
  {
  }

  /** An empty patch keeps the user, and applying a patch twice is applying it once. */
  lemma MergeLaws(u: User, p: UserPatch)
    ensures Merge(u, NoChange) == u
    ensures Merge(Merge(u, p), p) == Merge(u, p)
  {
  }

  /** The state a mount-time restore leaves, from the initial signed-out state. */
  datatype Restored = Restored(user: Option<User>, authenticated: bool, discard: bool)

  /** The restore as the source writes it: any stored text that parses is adopted,
      including `null`, which sets no user yet authenticates. */
  function RestoreAsWritten(entry: Option<Stored>): (r: Restored)
    ensures r.authenticated <==> entry.Some? && (entry.value.UserJson? || entry.value.NullJson?)
    ensures r.user.Some? <==> entry.Some? && entry.value.UserJson?
  {
    match entry
    case None => Restored(None, false, false)
    case Some(UserJson(u)) => Restored(Some(u), true, false)
    case Some(NullJson) => Restored(None, true, false)
    case Some(Unparseable(text)) => Restored(None, false, text != "")
  }

  /** The restore as written authenticates without a user when the record is `null`. */
  lemma RestoreAsWrittenAuthenticatesNobody()
    ensures RestoreAsWritten(Some(NullJson)).authenticated
    ensures RestoreAsWritten(Some(NullJson)).user.None?
  {
  }

  /** The restore as intended: adopt a stored user; drop any other non-empty record. */
  function Restore(entry: Option<Stored>): (r: Restored)
    ensures r.authenticated <==> r.user.Some?
    ensures r.user.Some? <==> entry.Some? && entry.value.UserJson?
    ensures r.user.Some? ==> r.user.value == entry.value.user
    ensures r.discard <==> entry.Some? && (entry.value.NullJson? || (entry.value.Unparseable? && entry.value.text != ""))
  {
    match entry
    case None => Restored(None, false, false)
    case Some(UserJson(u)) => Restored(Some(u), true, false)
    case Some(NullJson) => Restored(None, false, true)
    case Some(Unparseable(text)) => Restored(None, false, text != "")
  }

  /** The two restores differ only on a `null` record. */
  lemma RestoreAgreesExceptNull(entry: Option<Stored>)
    requires entry != Some(NullJson)
    ensures Restore(entry) == RestoreAsWritten(entry)
  {
  }

  function Lookup(store: map<string, Stored>): Option<Stored> {
    if StorageKey in store then Some(store[StorageKey]) else None
  }

  class AuthProvider {
    var user: Option<User>
    var isAuthenticated: bool
    var redirectToDashboard: bool
    /** The browser's local storage. */
    var store: map<string, Stored>

    /** Authenticated exactly when there is a user, and that user is what is stored. */
    ghost predicate Valid()
      reads this
    {
      && (isAuthenticated <==> user.Some?)
      && (user.Some? ==> Lookup(store) == Some(UserJson(user.value)))
    }

    /** Mount: the initial signed-out state, then the restore from storage. */
    constructor (storage: map<string, Stored>)
      ensures Valid()
      ensures user == Restore(Lookup(storage)).user
      ensures isAuthenticated == Restore(Lookup(storage)).authenticated
      ensures !redirectToDashboard
      ensures store == if Restore(Lookup(storage)).discard then storage - {StorageKey} else storage
    {
      user := None;
      isAuthenticated := false;
      redirectToDashboard := false;
      store := storage;
      var restored := Restore(Lookup(storage));
      if restored.user.Some? {
        user := restored.user;
        isAuthenticated := true;
      } else if restored.discard {
        store := store - {StorageKey};
      }
    }

    /** Sign in with any non-empty email and password. */
    method Login(email: string, password: string) returns (ok: bool)
      requires Valid()
      modifies this
      ensures Valid()
      ensures ok <==> email != "" && password != ""
      ensures ok ==>
                && user == Some(User("1", email, EmailPrefix(email), None, Free))
                && isAuthenticated && redirectToDashboard
                && store == old(store)[StorageKey := UserJson(user.value)]
      ensures !ok ==> unchanged(this)
    {
      // await 1000
      if email != "" && password != "" {
        var userData := User("1", email, EmailPrefix(email), None, Free);
        user := Some(userData);
        isAuthenticated := true;
        redirectToDashboard := true;
        store := store[StorageKey := UserJson(userData)];
        return true;
      }
      return false;
    }

    /** Register with any non-empty email, password and name. */
    method Signup(email: string, password: string, name: string) returns (ok: bool)
      requires Valid()
      modifies this
      ensures Valid()
      ensures ok <==> email != "" && password != "" && name != ""
      ensures ok ==>
                && user == Some(User("1", email, name, None, Free))
                && isAuthenticated && redirectToDashboard
                && store == old(store)[StorageKey := UserJson(user.value)]
      ensures !ok ==> unchanged(this)
    {
      // await 1000
      if email != "" && password != "" && name != "" {
        var userData := User("1", email, name, None, Free);
        user := Some(userData);
        isAuthenticated := true;
        redirectToDashboard := true;
        store := store[StorageKey := UserJson(userData)];
        return true;
      }
      return false;
    }

    method Logout()
      modifies this
      ensures Valid()
      ensures user.None? && !isAuthenticated && !redirectToDashboard
      ensures store == old(store) - {StorageKey}
    {
      user := None;
      isAuthenticated := false;
      redirectToDashboard := false;
      store := store - {StorageKey};
    }

    /** Override the given fields of the signed-in user, if any. */
    method UpdateUser(patch: UserPatch)
      requires Valid()
      modifies this
      ensures Valid()
      ensures old(user).None? ==> unchanged(this)
      ensures old(user).Some? ==>
                && user == Some(Merge(old(user).value, patch))
                && store == old(store)[StorageKey := UserJson(user.value)]
                && isAuthenticated == old(isAuthenticated)
                && redirectToDashboard == old(redirectToDashboard)
    {
      if user.Some? {
        var updated := Merge(user.value, patch);
        user := Some(updated);
        store := store[StorageKey := UserJson(updated)];
      }
    }

    method SetRedirectToDashboard(redirect: bool)
      modifies this`redirectToDashboard
      ensures redirectToDashboard == redirect
    {
      redirectToDashboard := redirect;
    }
  }
}
