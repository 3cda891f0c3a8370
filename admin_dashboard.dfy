/**
 * The administrator's dashboard: the account list with its search filter, and the
 * edit dialog whose draft record is saved back through the admin service.
 */
module AdminDashboard {
  import opened Wrappers
  import opened Text
  import opened Types
  import opened Storage
  import AuthContext
  import AdminService

  // ---------------------------------------------------------------------------
  // Search

  /** The email or the name contains the term, ignoring the case of ASCII letters. */
  predicate Matches(u: User, term: string) {
    Contains(ToLower(u.email), ToLower(term)) || Contains(ToLower(u.name), ToLower(term))
  }

  /** `filteredUsers`: the accounts that match the search term, in list order. */
  function FilteredUsers(users: seq<User>, term: string): (r: seq<User>)
    ensures |r| <= |users|
    ensures forall u :: u in r ==> u in users && Matches(u, term)
    ensures forall u :: u in users && Matches(u, term) ==> u in r
  {
    if users == [] then []
    else (if Matches(users[0], term) then [users[0]] else []) + FilteredUsers(users[1..], term)
  }

  /** Filtering goes account by account, so it keeps the list's order. */
  lemma {:induction false} FilteredUsersAppend(a: seq<User>, b: seq<User>, term: string)
    ensures FilteredUsers(a + b, term) == FilteredUsers(a, term) + FilteredUsers(b, term)
  {
    if a != [] {
      assert (a + b)[0] == a[0];
      assert (a + b)[1..] == a[1..] + b;
      FilteredUsersAppend(a[1..], b, term);
    } else {
      assert a + b == b;
    }
  }

  lemma EmptyAlwaysContained(hay: string)
    ensures Contains(hay, "")
  {
  }

  /** An empty search keeps every account. */
  lemma {:induction false} EmptyTermKeepsAll(users: seq<User>)
    ensures FilteredUsers(users, "") == users
  {
    if users != [] {
      EmptyAlwaysContained(ToLower(users[0].email));
      EmptyTermKeepsAll(users[1..]);
    }
  }

  lemma {:induction false} ToLowerIdempotent(s: string)
    ensures ToLower(ToLower(s)) == ToLower(s)
  {
    var l := ToLower(s);
    assert forall i :: 0 <= i < |s| ==> ToLower(l)[i] == l[i];
  }

  /** The search does not depend on the case of the term's letters. */
  lemma {:induction false} SearchIgnoresCase(users: seq<User>, term: string)
    ensures FilteredUsers(users, ToLower(term)) == FilteredUsers(users, term)
  {
    ToLowerIdempotent(term);
    if users != [] {
      SearchIgnoresCase(users[1..], term);
    }
  }

  // ---------------------------------------------------------------------------
  // Draft edits and the usage badge

  /** The red usage badge: the account has used up its tier's daily limit. */
  predicate IsOverLimit(u: User) {
    u.dailyUsage >= TierLimit(u.tier)
  }

  /** The badge is red exactly when the account cannot generate. */
  lemma OverLimitMeansCannotGenerate(u: User)
    ensures IsOverLimit(u) <==> !AuthContext.CanGenerate(Some(u))
    ensures IsOverLimit(u) <==> AuthContext.RemainingGenerations(Some(u)) == 0
  {
  }

  /** "Reset to 0": the draft's usage becomes 0 and nothing else changes; it is not over its limit. */
  function ResetDraftUsage(u: User): (r: User)
    ensures r.dailyUsage == 0 && r.(dailyUsage := u.dailyUsage) == u
    ensures !IsOverLimit(r)
    ensures AuthContext.RemainingGenerations(Some(r)) == TierLimit(u.tier)
  {
    u.(dailyUsage := 0)
  }

  /** "-5 Credits": `max(0, usage - 5)`, so 0 for a usage of at most 5 and five less otherwise. */
  function DeductFiveCredits(u: User): (r: User)
    ensures r.dailyUsage == 0 <==> u.dailyUsage <= 5
    ensures u.dailyUsage > 5 ==> r.dailyUsage + 5 == u.dailyUsage
    ensures r.(dailyUsage := u.dailyUsage) == u
  {
    u.(dailyUsage := AuthContext.Max0(u.dailyUsage - 5))
  }

  /** Deducting credits never takes generations away, and never turns the badge red. */
  lemma DeductNeverHurts(u: User)
    ensures AuthContext.RemainingGenerations(Some(DeductFiveCredits(u)))
            >= AuthContext.RemainingGenerations(Some(u))
    ensures IsOverLimit(DeductFiveCredits(u)) ==> IsOverLimit(u)
  {
  }

  // ---------------------------------------------------------------------------
  // The dashboard

  /** The dashboard's state: the listed accounts, the open draft and the search term. */
  class Dashboard {
    var users: seq<User>
    var editingUser: Option<User>
    var searchTerm: string
    const store: Store
    const currentUserEmail: string

    constructor (store: Store, currentUserEmail: string)
      ensures this.store == store && this.currentUserEmail == currentUserEmail
      ensures users == [] && editingUser == None && searchTerm == ""
    {
      this.store := store;
      this.currentUserEmail := currentUserEmail;
      users := [];
      editingUser := None;
      searchTerm := "";
    }

    /** `loadUsers`: replaces the list with what the admin service reads from the store. */
    method LoadUsers(keys: seq<string>, now: string)
      modifies this
      ensures users == AdminService.ListedUsers(store.entries, keys, now)
      ensures editingUser == old(editingUser) && searchTerm == old(searchTerm)
    {
      users := AdminService.GetAllUsers(store, keys, now);
    }

    method ChangeSearchTerm(term: string)
      modifies this
      ensures searchTerm == term
      ensures users == old(users) && editingUser == old(editingUser)
    {
      searchTerm := term;
    }

    /** The edit button: the account becomes the draft. */
    method EditUser(u: User)
      modifies this
      ensures editingUser == Some(u)
      ensures users == old(users) && searchTerm == old(searchTerm)
    {
      editingUser := Some(u);
    }

    /** The close button: the draft is dropped unsaved. */
    method CancelEdit()
      modifies this
      ensures editingUser == None
      ensures users == old(users) && searchTerm == old(searchTerm)
    {
      editingUser := None;
    }

    method ResetUsage()
      requires editingUser.Some?
      modifies this
      ensures editingUser == Some(ResetDraftUsage(old(editingUser.value)))
      ensures users == old(users) && searchTerm == old(searchTerm)
    {
      editingUser := Some(ResetDraftUsage(editingUser.value));
    }

    method DeductCredits()
      requires editingUser.Some?
      modifies this
      ensures editingUser == Some(DeductFiveCredits(old(editingUser.value)))
      ensures users == old(users) && searchTerm == old(searchTerm)
    {
      editingUser := Some(DeductFiveCredits(editingUser.value));
    }

    /** A tier radio: the draft's tier changes and nothing else. */
    method ChooseTier(tier: SubscriptionTier)
      requires editingUser.Some?
      modifies this
      ensures editingUser.Some? && editingUser.value.tier == tier
      ensures editingUser.value.(tier := old(editingUser.value.tier)) == old(editingUser.value)
      ensures users == old(users) && searchTerm == old(searchTerm)
    {
      editingUser := Some(AuthContext.WithTier(editingUser.value, tier));
    }

    /**
     * `handleSaveUser`: writes the draft through the admin service, then reloads the
     * list (in the store's enumeration order `keys`) and closes the draft. The store
     * changes exactly as `AdminService.UpdateUser` says. `saved` is false exactly when
     * the service stopped part-way on an unparsable session record, which ends the
     * handler before the reload. `reloadPage` says the page reloads because the
     * administrator edited their own account.
     */
    method HandleSaveUser(keys: seq<string>, now: string) returns (saved: bool, reloadPage: bool)
      modifies this, store
      ensures old(editingUser).None? ==>
        && !saved && !reloadPage
        && store.entries == old(store.entries)
        && users == old(users) && editingUser == old(editingUser)
      ensures old(editingUser).Some? ==>
        var d := old(editingUser.value);
        var written := old(store.entries)[AdminService.StoragePrefix + d.email := Record(d)];
        && saved == (old(store.GetItem(AuthContext.SessionKey)) != Some(Malformed))
        && store.entries == (match old(store.GetItem(AuthContext.SessionKey))
                             case Some(Record(s)) =>
                               if s.email == d.email then written[AuthContext.SessionKey := Record(d)] else written
                             case _ => written)
        && (saved ==>
              && users == AdminService.ListedUsers(store.entries, keys, now)
              && editingUser == None
              && reloadPage == (d.email == currentUserEmail)
              && (d.email != "" && AdminService.StoragePrefix + d.email in keys ==>
                    AuthContext.BackfillTimestamps(d, now) in users))
        && (!saved ==> !reloadPage && users == old(users) && editingUser == old(editingUser))
      ensures searchTerm == old(searchTerm)
    {
      saved, reloadPage := false, false;
      if editingUser.Some? {
        var d := editingUser.value;
        AdminService.PrefixMatchesSessionKeys(d.email);
        AuthContext.UserKeyDistinct(d.email, d.email);
        var completed := AdminService.UpdateUser(store, d);
        assert store.entries[AdminService.StoragePrefix + d.email] == Record(d);
        if completed {
          LoadUsers(keys, now);
          editingUser := None;
          saved := true;
          reloadPage := d.email == currentUserEmail;
          if d.email != "" && AdminService.StoragePrefix + d.email in keys {
            AdminService.ListedUsersComplete(store.entries, keys, now, AdminService.StoragePrefix + d.email);
          }
        }
      }
    }
  }
}
