/** frontend/src/shared/hooks/auth-hook.js: the client's session. The token,
    user id and expiration the hook keeps, the `"userData"` slot of
    `localStorage`, and the auto-logout timer. Times are integer milliseconds
    since the epoch; the current time is passed in. The two effects are
    methods the client calls after the state they depend on has changed. */
module AuthHook {
  import opened Wrappers

  /** The `localStorage` key the session is kept under. */
  const STORAGE_KEY := "userData"

  /** `1000 * 60 * 60`: a fresh login lasts one hour. */
  const TOKEN_VALIDITY_MS := 3600000

  /** The record `login` stores, once parsed back. The expiration is written
      with `toISOString` and read with `new Date`, which give back the same
      millisecond. */
  datatype StoredSession = StoredSession(userId: string, token: string, expiration: int)

  /** `expirationDate || new Date(now + 1 hour)`: a supplied date always wins. */
  function Expiration(expirationDate: Option<int>, now: int): (exp: int)
    ensures expirationDate.Some? ==> exp == expirationDate.value
    ensures expirationDate.None? ==> exp == now + TOKEN_VALIDITY_MS
  {
    match expirationDate
    case Some(date) => date
    case None => now + TOKEN_VALIDITY_MS
  }

  /** A JavaScript string is truthy when it is not empty; `null` is not. */
  predicate Truthy(s: Option<string>) {
    s.Some? && s.value != ""
  }

  /** The restore effect's test on the stored record: present, with a
      truthy token and an expiration strictly later than now. */
  predicate Restorable(storage: map<string, StoredSession>, now: int) {
    STORAGE_KEY in storage
    && storage[STORAGE_KEY].token != ""
    && storage[STORAGE_KEY].expiration > now
  }

  class Session {
    var token: Option<string>
    var userId: Option<string>
    var expiration: Option<int>
    /** `localStorage`, as parsed records. */
    var storage: map<string, StoredSession>
    /** Pending `setTimeout`s: handle to the time the logout is due. */
    var timers: map<nat, int>
    /** The module-level `logoutTimer`. */
    var logoutTimer: Option<nat>
    /** Timer handles are handed out in order; this is the next one. */
    var nextTimer: nat

    ghost predicate Valid()
      reads this
    {
      && (forall h :: h in timers ==> h < nextTimer)
      && (logoutTimer.Some? ==> logoutTimer.value < nextTimer)
    }

    /** The hook's first render, over whatever the browser had stored. */
    constructor (storage: map<string, StoredSession>)
      ensures Valid()
      ensures token == None && userId == None && expiration == None
      ensures this.storage == storage && timers == map[] && logoutTimer == None
    {
      token, userId, expiration := None, None, None;
      this.storage := storage;
      timers, logoutTimer, nextTimer := map[], None, 0;
    }

    /** `login(uid, token, expirationDate)`. */
    method Login(uid: string, tok: string, expirationDate: Option<int>, now: int)
      requires Valid()
      modifies this
      ensures Valid()
      ensures token == Some(tok) && userId == Some(uid)
      ensures expiration == Some(Expiration(expirationDate, now))
      ensures storage == old(storage)[STORAGE_KEY := StoredSession(uid, tok, expiration.value)]
      ensures timers == old(timers) && logoutTimer == old(logoutTimer)
    {
      token := Some(tok);
      userId := Some(uid);
      var exp := Expiration(expirationDate, now);
      expiration := Some(exp);
      storage := storage[STORAGE_KEY := StoredSession(uid, tok, exp)];
    }

    /** `logout()`. */
    method Logout()
      requires Valid()
      modifies this
      ensures Valid()
      ensures token == None && userId == None && expiration == None
      ensures STORAGE_KEY !in storage
      ensures forall k :: k != STORAGE_KEY ==> (k in storage <==> k in old(storage))
      ensures forall k :: k in storage ==> storage[k] == old(storage)[k]
      ensures timers == old(timers) && logoutTimer == old(logoutTimer)
    {
      token, userId, expiration := None, None, None;
      storage := storage - {STORAGE_KEY};
    }

    /** The auto-logout effect. With a token and an expiration, a logout is
        scheduled `expiration - now` ms ahead and becomes `logoutTimer`;
        otherwise the timer `logoutTimer` names is cleared. An earlier
        pending logout is not cleared when a new one is scheduled. */
    method SyncTimer(now: int) returns (delay: Option<int>)
      requires Valid()
      modifies this
      ensures Valid()
      ensures delay.Some? <==> Truthy(old(token)) && old(expiration).Some?
      ensures delay.Some? ==>
        && now + delay.value == old(expiration).value
        && logoutTimer.Some? && logoutTimer.value !in old(timers)
        && timers == old(timers)[logoutTimer.value := old(expiration).value]
      ensures delay.None? ==>
        && logoutTimer == old(logoutTimer)
        && (logoutTimer.Some? ==> timers == old(timers) - {logoutTimer.value})
        && (logoutTimer.None? ==> timers == old(timers))
      ensures token == old(token) && userId == old(userId)
      ensures expiration == old(expiration) && storage == old(storage)
    {
      if Truthy(token) && expiration.Some? {
        delay := Some(expiration.value - now);
        var h := nextTimer;
        nextTimer := nextTimer + 1;
        timers := timers[h := expiration.value];
        logoutTimer := Some(h);
      } else {
        delay := None;
        if logoutTimer.Some? {
          timers := timers - {logoutTimer.value};
        }
      }
    }

    /** A pending timer runs out and calls `logout`. */
    method Fire(h: nat)
      requires Valid() && h in timers
      modifies this
      ensures Valid()
      ensures token == None && userId == None && expiration == None
      ensures STORAGE_KEY !in storage
      ensures forall k :: k != STORAGE_KEY ==> (k in storage <==> k in old(storage))
      ensures forall k :: k in storage ==> storage[k] == old(storage)[k]
      ensures timers == old(timers) - {h} && logoutTimer == old(logoutTimer)
    {
      timers := timers - {h};
      Logout();
    }

    /** The restore effect of the first render: log in again from the stored
        record when it is still good, reusing its expiration. */
    method Restore(now: int) returns (restored: bool)
      requires Valid()
      modifies this
      ensures Valid()
      ensures restored <==> Restorable(old(storage), now)
      ensures restored ==>
        && token == Some(old(storage)[STORAGE_KEY].token)
        && userId == Some(old(storage)[STORAGE_KEY].userId)
        && expiration == Some(old(storage)[STORAGE_KEY].expiration)
      ensures !restored ==>
        token == old(token) && userId == old(userId) && expiration == old(expiration)
      ensures storage == old(storage) && timers == old(timers) && logoutTimer == old(logoutTimer)
    {
      restored := Restorable(storage, now);
      if restored {
        var stored := storage[STORAGE_KEY];
        Login(stored.userId, stored.token, Some(stored.expiration), now);
      }
    }
  }

  /** A login followed by a page reload before it expires: the new session
      comes back with the same user, token and expiration. */
  method ReloadAfterLogin(storage: map<string, StoredSession>, uid: string, tok: string,
                          expirationDate: Option<int>, now: int, later: int)
    returns (before: Session, after: Session)
    requires tok != "" && later < Expiration(expirationDate, now)
    ensures after.userId == before.userId == Some(uid)
    ensures after.token == before.token == Some(tok)
    ensures after.expiration == before.expiration == Some(Expiration(expirationDate, now))
  {
    before := new Session(storage);
    before.Login(uid, tok, expirationDate, now);
    after := new Session(before.storage);
    var restored := after.Restore(later);
    assert restored;
  }

  /** A logout followed by a page reload: nothing is restored. */
  method ReloadAfterLogout(storage: map<string, StoredSession>, uid: string, tok: string,
                           expirationDate: Option<int>, now: int, later: int)
    returns (after: Session)
    ensures after.token == None && after.userId == None && after.expiration == None
  {
    var before := new Session(storage);
    before.Login(uid, tok, expirationDate, now);
    before.Logout();
    after := new Session(before.storage);
    var restored := after.Restore(later);
    assert !restored;
  }
}
