/** The administrative view of the account store: listing every account and rewriting one. */
module AdminService {
  import opened Wrappers
  import opened Text
  import opened Types
  import opened Storage
  import AuthContext

  /** `STORAGE_PREFIX`: the prefix of every persistent account key. */
  const StoragePrefix: string := "albanian_ai_user_data_"

  /** The admin prefix and the session context build the same key for an email. */
  lemma PrefixMatchesSessionKeys(email: string)
    ensures StoragePrefix + email == AuthContext.UserKey(email)
    ensures !StartsWith(AuthContext.SessionKey, StoragePrefix)
  {
  }

  /** The session key itself is never listed. */
  lemma SessionKeyNeverListed(store: map<string, Entry>, now: string)
    ensures ListedUser(store, AuthContext.SessionKey, now).None?
  {
  }

  /**
   * What the scan makes of one key: the backfilled record when the key has the
   * prefix, is not the session key, and holds a parsable record with an email.
   */
  function ListedUser(store: map<string, Entry>, key: string, now: string): (r: Option<User>)
    ensures r.Some? <==>
      && StartsWith(key, StoragePrefix) && key in store
      && store[key].Record? && store[key].user.email != ""
    ensures r.Some? ==> r.value == AuthContext.BackfillTimestamps(store[key].user, now)
  {
    if StartsWith(key, StoragePrefix) && key != AuthContext.SessionKey && key in store then
      match store[key]
      case Record(u) =>
        if u.email != "" then Some(AuthContext.BackfillTimestamps(u, now)) else None
      case Blank | Scalar | Malformed => None  // falsy, no email, or the parse throws
    else
      None
  }

  /** The accounts listed for the keys in `keys`, in that order. */
  function ListedUsers(store: map<string, Entry>, keys: seq<string>, now: string): seq<User>
  {
    if keys == [] then []
    else
      var last := ListedUser(store, keys[|keys| - 1], now);
      ListedUsers(store, keys[..|keys| - 1], now) + (if last.Some? then [last.value] else [])
  }

  /** The scan goes key by key: a key's verdict does not depend on the keys around it. */
  lemma {:induction false} ListedUsersAppend(store: map<string, Entry>, a: seq<string>, b: seq<string>, now: string)
    ensures ListedUsers(store, a + b, now) == ListedUsers(store, a, now) + ListedUsers(store, b, now)
    decreases |b|
  {
    if b == [] {
      assert a + b == a;
    } else {
      var ab := a + b;
      assert ab[..|ab| - 1] == a + b[..|b| - 1];
      assert ab[|ab| - 1] == b[|b| - 1];
      ListedUsersAppend(store, a, b[..|b| - 1], now);
    }
  }

  /** Every listed account is the backfilled record of a prefixed key among `keys`. */
  lemma {:induction false} ListedUsersSound(store: map<string, Entry>, keys: seq<string>, now: string, u: User)
    requires u in ListedUsers(store, keys, now)
    ensures exists k :: k in keys && ListedUser(store, k, now) == Some(u)
  {
    var init := keys[..|keys| - 1];
    var last := ListedUser(store, keys[|keys| - 1], now);
    if u in ListedUsers(store, init, now) {
      ListedUsersSound(store, init, now, u);
      var k :| k in init && ListedUser(store, k, now) == Some(u);
      assert k in keys;
    } else {
      assert last == Some(u);
    }
  }

  /** Every prefixed key among `keys` that holds a parsable record with an email is listed. */
  lemma {:induction false} ListedUsersComplete(store: map<string, Entry>, keys: seq<string>, now: string, k: string)
    requires k in keys && ListedUser(store, k, now).Some?
    ensures ListedUser(store, k, now).value in ListedUsers(store, keys, now)
  {
    var init := keys[..|keys| - 1];
    if k != keys[|keys| - 1] {
      assert k in init;
      ListedUsersComplete(store, init, now, k);
    }
  }

  /**
   * When the enumeration reaches every stored key, the scan lists exactly the stored
   * accounts under a prefixed key with a parsable record and an email: each of them
   * (backfilled) is listed, and each listed account is one of them.
   */
  lemma ScanListsEveryStoredAccount(store: map<string, Entry>, keys: seq<string>, now: string)
    requires forall k :: k in store ==> k in keys
    ensures forall k :: k in store && StartsWith(k, StoragePrefix) && store[k].Record? && store[k].user.email != "" ==>
      AuthContext.BackfillTimestamps(store[k].user, now) in ListedUsers(store, keys, now)
    ensures forall u :: u in ListedUsers(store, keys, now) ==>
      exists k :: k in store && StartsWith(k, StoragePrefix) && store[k].Record? && store[k].user.email != ""
               && u == AuthContext.BackfillTimestamps(store[k].user, now)
  {
    forall k | k in store && StartsWith(k, StoragePrefix) && store[k].Record? && store[k].user.email != ""
      ensures AuthContext.BackfillTimestamps(store[k].user, now) in ListedUsers(store, keys, now)
    {
      ListedUsersComplete(store, keys, now, k);
    }
    forall u | u in ListedUsers(store, keys, now)
      ensures exists k :: k in store && StartsWith(k, StoragePrefix) && store[k].Record? && store[k].user.email != ""
                        && u == AuthContext.BackfillTimestamps(store[k].user, now)
    {
      ListedUsersSound(store, keys, now, u);
    }
  }

  /**
   * `getAllUsers`: scans the keys in the store's enumeration order `keys`, skipping
   * keys that are absent, unprefixed, unparsable or without an email.
   */
  method GetAllUsers(store: Store, keys: seq<string>, now: string) returns (users: seq<User>)
    ensures users == ListedUsers(store.entries, keys, now)
    ensures forall u :: u in users ==> u.email != ""
  {
    users := [];
    var i := 0;
    while i < |keys|
      invariant 0 <= i <= |keys|
      invariant users == ListedUsers(store.entries, keys[..i], now)
    {
      var key := keys[i];
      assert keys[..i + 1][..i] == keys[..i];
      if StartsWith(key, StoragePrefix) && key != AuthContext.SessionKey {
        var rawData := store.GetItem(key);
        if rawData.Some? {
          match rawData.value
          case Blank =>
            // an empty value is falsy: the key is skipped
          case Scalar =>
            // the value has no email: the key is skipped
          case Malformed =>
            // the parse throws: the key is skipped and the scan goes on
          case Record(userData) =>
            if userData.email != "" {
              users := users + [AuthContext.BackfillTimestamps(userData, now)];
            }
        }
      }
      i := i + 1;
    }
    assert keys[..|keys|] == keys;
    forall u | u in users ensures u.email != "" {
      ListedUsersSound(store.entries, keys, now, u);
    }
  }

  /**
   * `updateUser`: writes the record under its persistent key, then overwrites the
   * session record when it belongs to the same email. A missing or blank session value
   * is skipped, and a scalar one has no email, so neither is overwritten; a session
   * value on which the parse or the field read throws stops it after the first write
   * (`completed` is false).
   */
  method UpdateUser(store: Store, updated: User) returns (completed: bool)
    modifies store
    ensures var written := old(store.entries)[StoragePrefix + updated.email := Record(updated)];
      match old(store.GetItem(AuthContext.SessionKey))
      case Some(Record(s)) =>
        && completed
        && store.entries == (if s.email == updated.email
                             then written[AuthContext.SessionKey := Record(updated)]
                             else written)
      case Some(Malformed) => !completed && store.entries == written
      case _ => completed && store.entries == written
  {
    store.SetItem(StoragePrefix + updated.email, Record(updated));
    PrefixMatchesSessionKeys(updated.email);
    AuthContext.UserKeyDistinct(updated.email, updated.email);
    var currentSession := store.GetItem(AuthContext.SessionKey);
    completed := true;
    if currentSession.Some? && currentSession.value != Blank {
      match currentSession.value
      case Scalar =>
        // `undefined` never equals the edited email
      case Malformed =>
        completed := false;
      case Record(parsedSession) =>
        if parsedSession.email == updated.email {
          store.SetItem(AuthContext.SessionKey, Record(updated));
        }
    }
  }
}
