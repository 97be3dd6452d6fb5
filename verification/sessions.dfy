/**
 * The session registry: ephemeral users identified by an opaque token,
 * kept in one token-to-user map with lazy deletion on lookup and a full
 * sweep of expired users on every 32nd creation.
 *
 * Time is an integer `now` passed to every operation; a lifetime or an
 * extension is an integer amount added to it.
 */
module Sessions {
  import opened Wrappers

  /** Every this-many creations the registry sweeps out expired users. */
  const GcThreshold: int := 32

  /**
   * A user session. The token never changes; the expiration date and the
   * backend credential are updated in place, and every holder of a
   * reference (the registry, the lock table) sees the update.
   */
  class User {
    const token: string
    var expiration: int
    /** The content tracker's credential (an OAuth token); `None` until authentication. */
    var credential: Option<string>

    /** A new user expires `lifetime` after `now` and is not authenticated. */
    constructor (token: string, lifetime: int, now: int)
      ensures this.token == token
      ensures expiration == now + lifetime
      ensures !IsAuthenticated()
      ensures lifetime > 0 ==> IsActive(now)
    {
      this.token := token;
      this.expiration := now + lifetime;
      this.credential := None;
    }

    /** The expiration date has not come to pass yet. */
    predicate IsActive(now: int)
      reads this
    {
      expiration > now
    }

    /** A backend credential has been attached. */
    predicate IsAuthenticated()
      reads this
    {
      credential.Some?
    }

    /** Postpones the expiration date by `extension`. */
    method ExtendLifetime(extension: int)
      modifies this
      ensures expiration == old(expiration) + extension
      ensures credential == old(credential)
      ensures extension >= 0 ==> forall t :: old(IsActive(t)) ==> IsActive(t)
    {
      expiration := expiration + extension;
    }

    /** Attaches the backend credential, which makes the user authenticated. */
    method SetCredential(c: string)
      modifies this
      ensures credential == Some(c) && IsAuthenticated()
      ensures expiration == old(expiration)
    {
      credential := Some(c);
    }
  }

  /** The users of `m` that are still active at `now`, under their own keys. */
  function ActiveOnly(m: map<string, User>, now: int): (r: map<string, User>)
    reads m.Values
    ensures forall t :: t in r <==> t in m && m[t].IsActive(now)
    ensures forall t :: t in r ==> r[t] == m[t]
  {
    map t | t in m && m[t].IsActive(now) :: m[t]
  }

  /** The garbage-collection counter after one more creation. */
  function NextGcCounter(c: int): (r: int)
    requires 0 <= c < GcThreshold
    ensures 0 <= r < GcThreshold
    ensures r == 0 <==> c == GcThreshold - 1
    ensures r != 0 ==> r == c + 1
  {
    if c + 1 == GcThreshold then 0 else c + 1
  }

  /** The garbage-collection counter after `k` creations since start-up. */
  function CounterAfter(k: nat): (c: int)
    ensures 0 <= c < GcThreshold
  {
    if k == 0 then 0 else NextGcCounter(CounterAfter(k - 1))
  }

  /**
   * The counter after `k` creations is `k` modulo the threshold, so the
   * `k`-th creation runs a sweep exactly when `k` is a multiple of 32.
   */
  lemma {:induction false} SweepOnEvery32ndCreation(k: nat)
    ensures CounterAfter(k) == k % GcThreshold
    ensures k > 0 ==> (CounterAfter(k) == 0 <==> k % GcThreshold == 0)
  {
    if k > 0 {
      SweepOnEvery32ndCreation(k - 1);
    }
  }

  /** The process-wide token-to-user map and its garbage-collection counter. */
  class Registry {
    var users: map<string, User>
    var gcCounter: int
    /** Every token ever handed out by `Create`. */
    ghost var issued: set<string>

    ghost predicate Valid()
      reads this
    {
      && 0 <= gcCounter < GcThreshold
      && users.Keys <= issued
      && forall t :: t in users ==> users[t].token == t
    }

    constructor ()
      ensures Valid()
      ensures users == map[] && gcCounter == 0 && issued == {}
    {
      users := map[];
      gcCounter := 0;
      issued := {};
    }

    /** Removes every user whose expiration date has passed, and no other. */
    method DeleteExpiredUsers(now: int)
      requires Valid()
      modifies this
      ensures Valid()
      ensures users == ActiveOnly(old(users), now)
      ensures gcCounter == old(gcCounter) && issued == old(issued)
    {
      var inactive := set u | u in users.Values && !u.IsActive(now);
      var pending := inactive;
      while pending != {}
        invariant Valid() && gcCounter == old(gcCounter) && issued == old(issued)
        invariant pending <= inactive
        invariant forall t :: t in users ==> t in old(users) && users[t] == old(users)[t]
        invariant forall t :: t in old(users) && old(users)[t].IsActive(now) ==> t in users
        invariant forall t :: t in old(users) && !old(users)[t].IsActive(now) ==>
                    (t in users <==> old(users)[t] in pending)
        decreases pending
      {
        var u :| u in pending;
        users := users - {u.token};
        pending := pending - {u};
      }
    }

    /**
     * Registers a new user under the (fresh) `token`, sweeping expired users
     * first when this is a 32nd creation.
     */
    method Create(lifetime: int, now: int, token: string) returns (user: User)
      requires Valid()
      modifies this
      ensures Valid() && fresh(user)
      ensures user.token == token && user.expiration == now + lifetime
      ensures !user.IsAuthenticated()
      ensures token in users && users[token] == user
      ensures gcCounter == NextGcCounter(old(gcCounter))
      ensures gcCounter == 0 ==> users == ActiveOnly(old(users), now)[token := user]
      ensures gcCounter != 0 ==> users == old(users)[token := user]
      ensures forall t :: t in old(users) && t != token && old(users)[t].IsActive(now) ==>
                t in users && users[t] == old(users)[t]
      ensures issued == old(issued) + {token}
    {
      gcCounter := gcCounter + 1;
      if gcCounter == GcThreshold {
        gcCounter := 0;
        DeleteExpiredUsers(now);
      }
      user := new User(token, lifetime, now);
      users := users[token := user];
      issued := issued + {token};
    }

    /**
     * Looks up a user by token. An expired user is deleted as a side effect
     * and reported as not found; `user` is `None` whenever `found` is false.
     */
    method TryGetByToken(token: string, now: int) returns (found: bool, user: Option<User>)
      requires Valid()
      modifies this
      ensures Valid() && gcCounter == old(gcCounter) && issued == old(issued)
      ensures found <==> token in old(users) && old(users)[token].IsActive(now)
      ensures found ==> user == Some(old(users)[token]) && user.value.token == token
      ensures found ==> users == old(users)
      ensures !found ==> user == None && token !in users
      ensures !found ==> users == old(users) - {token}
      ensures found ==> token in issued
    {
      if token in users {
        var candidate := users[token];
        if candidate.IsActive(now) {
          found, user := true, Some(candidate);
        } else {
          found, user := false, None;
          users := users - {token};
        }
      } else {
        found, user := false, None;
      }
    }
  }
}
