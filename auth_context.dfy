/**
 * The account session: the signed-in user, the quota values derived from it, and the
 * operations that sign in and out and record usage. Local storage holds two copies
 * of an account: one under the session key and one under a key built from its email.
 * Sign-in, registration, usage and upgrades write both; the mount-time load writes
 * only the session copy, and sign-out removes only the session copy.
 */
module AuthContext {
  import opened Wrappers
  import opened Text
  import opened Types
  import opened Storage

  /** `LOCAL_STORAGE_KEY`: the key of the signed-in session's record. */
  const SessionKey: string := "albanian_ai_user_data"

  /** The key of an account's persistent record: the session key, `_`, then the email. */
  function UserKey(email: string): string {
    SessionKey + "_" + email
  }

  /** No persistent key is the session key, and different emails have different keys. */
  lemma UserKeyDistinct(a: string, b: string)
    ensures UserKey(a) != SessionKey
    ensures UserKey(a) == UserKey(b) <==> a == b
  {
    if UserKey(a) == UserKey(b) {
      assert a == UserKey(a)[|SessionKey| + 1..];
      assert b == UserKey(b)[|SessionKey| + 1..];
    }
  }

  /** The calendar day of an ISO timestamp: `now.split('T')[0]`. */
  function DateOf(now: string): string {
    SplitFirst(now, 'T')
  }

  // ---------------------------------------------------------------------------
  // Quota

  /** `Math.max(0, x)`. */
  function Max0(x: int): nat {
    if x > 0 then x else 0
  }

  /**
   * `remainingGenerations`: what is left of the tier's daily limit, never negative,
   * and 0 when nobody is signed in.
   */
  function RemainingGenerations(user: Option<User>): (r: nat)
    ensures user.None? ==> r == 0
    ensures user.Some? ==> r <= TierLimit(user.value.tier)
    ensures user.Some? ==> (r == 0 <==> user.value.dailyUsage >= TierLimit(user.value.tier))
    ensures user.Some? && r > 0 ==> r + user.value.dailyUsage == TierLimit(user.value.tier)
  {
    match user
    case None => 0
    case Some(u) => Max0(TierLimit(u.tier) - u.dailyUsage)
  }

  /** `canGenerate`: a user is signed in and has not used up the tier's limit today. */
  function CanGenerate(user: Option<User>): (r: bool)
    ensures r <==> user.Some? && user.value.dailyUsage < TierLimit(user.value.tier)
  {
    RemainingGenerations(user) > 0
  }

  /** A fresh account (usage 0) can always generate, whatever its tier. */
  lemma UnusedAccountCanGenerate(u: User)
    requires u.dailyUsage == 0
    ensures CanGenerate(Some(u)) && RemainingGenerations(Some(u)) == TierLimit(u.tier)
  {
  }

  /**
   * The day-boundary reset: a record whose usage date is not `today` starts the day
   * with no usage; a record of today is left as it is.
   */
  function ResetForDay(u: User, today: string): (r: User)
    ensures r.lastUsageDate == today
    ensures u.lastUsageDate == today ==> r == u
    ensures u.lastUsageDate != today ==> r.dailyUsage == 0
    ensures r.(dailyUsage := u.dailyUsage, lastUsageDate := u.lastUsageDate) == u
  {
    if u.lastUsageDate != today then u.(dailyUsage := 0, lastUsageDate := today) else u
  }

  lemma ResetIsIdempotent(u: User, today: string)
    ensures ResetForDay(ResetForDay(u, today), today) == ResetForDay(u, today)
  {
  }

  /** A record from an earlier day regains its tier's whole allowance. */
  lemma ResetRestoresAllowance(u: User, today: string)
    requires u.lastUsageDate != today
    ensures CanGenerate(Some(ResetForDay(u, today)))
    ensures RemainingGenerations(Some(ResetForDay(u, today))) == TierLimit(u.tier)
  {
  }

  /** Legacy records get `now` for a missing creation or last-login time. */
  function BackfillTimestamps(u: User, now: string): (r: User)
    ensures u.createdAt != "" ==> r.createdAt == u.createdAt
    ensures u.createdAt == "" ==> r.createdAt == now
    ensures u.lastLoginAt != "" ==> r.lastLoginAt == u.lastLoginAt
    ensures u.lastLoginAt == "" ==> r.lastLoginAt == now
    ensures r.(createdAt := u.createdAt, lastLoginAt := u.lastLoginAt) == u
  {
    var c := if u.createdAt == "" then u.(createdAt := now) else u;
    if c.lastLoginAt == "" then c.(lastLoginAt := now) else c
  }

  /** The record `incrementUsage` writes: one more generation used, nothing else changed. */
  function WithOneMoreUse(u: User): (r: User)
    ensures r.dailyUsage == u.dailyUsage + 1
    ensures r.(dailyUsage := u.dailyUsage) == u
  {
    u.(dailyUsage := u.dailyUsage + 1)
  }

  /** The record `upgradeTier` writes: the new tier, nothing else changed. */
  function WithTier(u: User, tier: SubscriptionTier): (r: User)
    ensures r.tier == tier
    ensures r.(tier := u.tier) == u
  {
    u.(tier := tier)
  }

  /**
   * An upgrade keeps the day's usage, so it adds the difference of the limits at once:
   * a Free account that used its one generation has four left on Standard.
   */
  lemma UpgradeKeepsUsage(u: User, tier: SubscriptionTier)
    requires u.dailyUsage <= TierLimit(tier)
    ensures RemainingGenerations(Some(WithTier(u, tier))) == TierLimit(tier) - u.dailyUsage
    ensures u.tier == Free && u.dailyUsage == 1 && tier == Standard ==>
      RemainingGenerations(Some(u)) == 0 && RemainingGenerations(Some(WithTier(u, tier))) == 4
  {
  }

  // ---------------------------------------------------------------------------
  // The records that sign-in and registration build

  /**
   * The record `login` builds for an email with no persistent record: dated today, so
   * the day reset leaves it alone, with the whole Free allowance available.
   */
  function MockUser(email: string, now: string): (r: User)
    ensures r.email == email && r.tier == Free
    ensures ResetForDay(r, DateOf(now)) == r
    ensures CanGenerate(Some(r)) && RemainingGenerations(Some(r)) == TierLimit(Free)
  {
    var handle := SplitFirst(email, '@');
    User(handle + "-id", email, handle, Free, 0, DateOf(now), now, now)
  }

  /**
   * The record `register` builds: a Free account dated today with the whole
   * allowance available.
   */
  function NewAccount(id: string, email: string, name: string, now: string): (r: User)
    ensures r.id == id && r.email == email && r.name == name && r.tier == Free
    ensures ResetForDay(r, DateOf(now)) == r
    ensures CanGenerate(Some(r)) && RemainingGenerations(Some(r)) == TierLimit(Free)
  {
    User(id, email, name, Free, 0, DateOf(now), now, now)
  }

  /** A non-blank stored value that parses to no object: updating its fields throws. */
  predicate NotAnObject(e: Option<Entry>) {
    e == Some(Scalar) || e == Some(Malformed)
  }

  function StoredUser(e: Option<Entry>): Option<User> {
    match e
    case Some(Record(u)) => Some(u)
    case _ => None
  }

  /**
   * The record `login` signs in with: the persistent record when there is one (so its
   * tier survives), otherwise a new Free account named after the email's local part;
   * then reset for today, stamped with `now` as last login, and given `now` as
   * creation time when it has none.
   */
  function SignedInUser(stored: Option<User>, email: string, now: string): (r: User)
    ensures r.lastLoginAt == now
    ensures r.lastUsageDate == DateOf(now)
    ensures stored.None? ==>
      && r.tier == Free && r.dailyUsage == 0 && r.email == email && r.createdAt == now
      && r.name == SplitFirst(email, '@') && r.id == SplitFirst(email, '@') + "-id"
    ensures stored.Some? ==>
      && r.tier == stored.value.tier && r.id == stored.value.id
      && r.email == stored.value.email && r.name == stored.value.name
      && r.dailyUsage == ResetForDay(stored.value, DateOf(now)).dailyUsage
      && r.createdAt == (if stored.value.createdAt == "" then now else stored.value.createdAt)
  {
    var base := if stored.Some? then stored.value else MockUser(email, now);
    var stamped := ResetForDay(base, DateOf(now)).(lastLoginAt := now);
    if stamped.createdAt == "" then stamped.(createdAt := now) else stamped
  }

  /** The store after `u` is written under the session key and under its own per-account key. */
  function WrittenUnderBothKeys(entries: map<string, Entry>, u: User): (r: map<string, Entry>)
    ensures r.Keys == entries.Keys + {SessionKey, UserKey(u.email)}
    ensures r[SessionKey] == Record(u) && r[UserKey(u.email)] == Record(u)
    ensures forall k :: k in entries && k != SessionKey && k != UserKey(u.email) ==> r[k] == entries[k]
  {
    entries[SessionKey := Record(u)][UserKey(u.email) := Record(u)]
  }

  /**
   * The effect of `incrementUsage`, from signed-in record `u0` and store `s0` to `u1`
   * and `s1`: signed out, nothing changes; signed in, the record with one more use is
   * signed in and written under both keys.
   */
  predicate UsageCharged(u0: Option<User>, s0: map<string, Entry>, u1: Option<User>, s1: map<string, Entry>) {
    match u0
    case None => u1 == None && s1 == s0
    case Some(u) => u1 == Some(WithOneMoreUse(u)) && s1 == WrittenUnderBothKeys(s0, WithOneMoreUse(u))
  }

  /** The effect of `upgradeTier(tier)`, in the same terms as `UsageCharged`. */
  predicate TierChanged(u0: Option<User>, s0: map<string, Entry>, tier: SubscriptionTier,
                        u1: Option<User>, s1: map<string, Entry>) {
    match u0
    case None => u1 == None && s1 == s0
    case Some(u) => u1 == Some(WithTier(u, tier)) && s1 == WrittenUnderBothKeys(s0, WithTier(u, tier))
  }

  // ---------------------------------------------------------------------------
  // The provider's state

  class AuthProvider {
    var user: Option<User>
    const store: Store

    /** The session key holds exactly the signed-in record. */
    ghost predicate SessionSynced()
      reads this, store
    {
      user.Some? ==> store.GetItem(SessionKey) == Some(Record(user.value))
    }

    /** The provider starts with nobody signed in. */
    constructor (store: Store)
      ensures this.store == store && user == None
    {
      this.store := store;
      user := None;
    }

    function IsAuthenticated(): bool
      reads this
    {
      user.Some?
    }

    /**
     * The mount-time load: a session record is reset for today, backfilled, written
     * back to the session key only, and signed in. A missing or blank value changes
     * nothing, and so does one that is not an object (the parse, the field read or the
     * field write throws before any change).
     */
    method Mount(now: string)
      modifies this, store
      ensures match old(store.GetItem(SessionKey))
        case Some(Record(s)) =>
          var u := BackfillTimestamps(ResetForDay(s, DateOf(now)), now);
          user == Some(u) && store.entries == old(store.entries)[SessionKey := Record(u)]
        case _ =>
          user == old(user) && store.entries == old(store.entries)
      ensures old(SessionSynced()) ==> SessionSynced()
    {
      var stored := store.GetItem(SessionKey);
      if stored.Some? && stored.value.Record? {
        var parsedUser := stored.value.user;
        var today := DateOf(now);
        if parsedUser.lastUsageDate != today {
          parsedUser := parsedUser.(dailyUsage := 0);
          parsedUser := parsedUser.(lastUsageDate := today);
        }
        if parsedUser.createdAt == "" {
          parsedUser := parsedUser.(createdAt := now);
        }
        if parsedUser.lastLoginAt == "" {
          parsedUser := parsedUser.(lastLoginAt := now);
        }
        store.SetItem(SessionKey, Record(parsedUser));
        user := Some(parsedUser);
      }
    }

    /**
     * `login`: signs in with `SignedInUser` and writes that record under both keys; a
     * missing or blank persistent value gives the new Free account. A persistent value
     * that is not an object makes the parse or the first field write throw before any
     * change.
     */
    method Login(email: string, now: string)
      modifies this, store
      ensures NotAnObject(old(store.GetItem(UserKey(email)))) ==>
        user == old(user) && store.entries == old(store.entries)
      ensures !NotAnObject(old(store.GetItem(UserKey(email)))) ==>
        var u := SignedInUser(StoredUser(old(store.GetItem(UserKey(email)))), email, now);
        && user == Some(u)
        && store.entries == old(store.entries)[SessionKey := Record(u)][UserKey(email) := Record(u)]
      ensures !NotAnObject(old(store.GetItem(UserKey(email)))) ==>
        SessionSynced() && store.GetItem(UserKey(email)) == Some(Record(user.value))
    {
      var stored := store.GetItem(UserKey(email));
      if stored == Some(Malformed) || stored == Some(Scalar) {
        return;
      }
      var finalUser := if stored.Some? && stored.value.Record? then stored.value.user else MockUser(email, now);
      var today := DateOf(now);
      if finalUser.lastUsageDate != today {
        finalUser := finalUser.(dailyUsage := 0);
        finalUser := finalUser.(lastUsageDate := today);
      }
      finalUser := finalUser.(lastLoginAt := now);
      if finalUser.createdAt == "" {
        finalUser := finalUser.(createdAt := now);
      }
      user := Some(finalUser);
      store.SetItem(SessionKey, Record(finalUser));
      store.SetItem(UserKey(email), Record(finalUser));
      UserKeyDistinct(email, email);
    }

    /** `register`: signs in a new Free account and writes it under both keys. */
    method Register(email: string, name: string, id: string, now: string)
      modifies this, store
      ensures user == Some(NewAccount(id, email, name, now))
      ensures store.entries == old(store.entries)
        [SessionKey := Record(user.value)][UserKey(email) := Record(user.value)]
      ensures SessionSynced() && store.GetItem(UserKey(email)) == Some(Record(user.value))
    {
      var newUser := NewAccount(id, email, name, now);
      user := Some(newUser);
      store.SetItem(SessionKey, Record(newUser));
      store.SetItem(UserKey(email), Record(newUser));
      UserKeyDistinct(email, email);
    }

    /** `logout`: nobody is signed in and only the session key is removed. */
    method Logout()
      modifies this, store
      ensures user == None
      ensures store.entries == old(store.entries) - {SessionKey}
    {
      user := None;
      store.RemoveItem(SessionKey);
    }

    /**
     * `incrementUsage`: one more generation on the signed-in record, written under
     * both keys; nothing at all when signed out. The day reset is not re-applied.
     */
    method IncrementUsage()
      modifies this, store
      ensures UsageCharged(old(user), old(store.entries), user, store.entries)
      ensures old(user).Some? ==>
        SessionSynced() && store.GetItem(UserKey(user.value.email)) == Some(Record(user.value))
    {
      if user.None? {
        return;
      }
      var updatedUser := user.value.(dailyUsage := user.value.dailyUsage + 1);
      user := Some(updatedUser);
      store.SetItem(SessionKey, Record(updatedUser));
      store.SetItem(UserKey(updatedUser.email), Record(updatedUser));
      UserKeyDistinct(updatedUser.email, updatedUser.email);
    }

    /** `upgradeTier`: the new tier on the signed-in record, written under both keys. */
    method UpgradeTier(tier: SubscriptionTier)
      modifies this, store
      ensures TierChanged(old(user), old(store.entries), tier, user, store.entries)
      ensures old(user).Some? ==>
        SessionSynced() && store.GetItem(UserKey(user.value.email)) == Some(Record(user.value))
    {
      if user.None? {
        return;
      }
      var updatedUser := user.value.(tier := tier);
      user := Some(updatedUser);
      store.SetItem(SessionKey, Record(updatedUser));
      store.SetItem(UserKey(updatedUser.email), Record(updatedUser));
      UserKeyDistinct(updatedUser.email, updatedUser.email);
    }
  }

  /**
   * Signing out keeps the persistent record, so signing in again with the same email
   * brings back the account's tier.
   */
  method LogoutThenLoginKeepsTier(auth: AuthProvider, now: string)
    requires auth.user.Some?
    requires var e := auth.store.GetItem(UserKey(auth.user.value.email));
      e.Some? && e.value.Record? && e.value.user.tier == auth.user.value.tier
      && e.value.user.email == auth.user.value.email
    modifies auth, auth.store
    ensures auth.user.Some? && auth.user.value.tier == old(auth.user.value.tier)
    ensures auth.user.value.email == old(auth.user.value.email)
  {
    var email := auth.user.value.email;
    auth.Logout();
    UserKeyDistinct(email, email);
    auth.Login(email, now);
  }
}
