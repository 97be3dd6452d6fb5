/**
 * The advisory lock table: a process-wide map from the key
 * `owner/repo/path` to the user holding the lock on that file.
 *
 * A stored value is an `Option<User>`: `None` is the null reference the
 * table holds once a stale holder has been cleared. Every read re-checks
 * the holder's liveness. Each handler below is one atomic step (the source
 * runs it inside a single table-wide critical section); the pure functions
 * give each step's result and new table, and the `LockTable` methods are
 * proved to perform exactly that step. The table and the plain handler
 * functions use the corrected holder read, where a null entry means "no
 * holder"; the `...AsWritten` functions keep the read that throws on it.
 */
module Locks {
  import opened Wrappers
  import opened Http
  import opened Sessions
  import opened ContentStore

  type Table = map<string, Option<User>>

  /** The key of the lock on `path` in `owner`'s repository `repo`. */
  function LockName(owner: string, repo: string, path: string): string
  {
    owner + "/" + repo + "/" + path
  }

  /**
   * Locks and stored files share one key space: the lock on a file has the
   * very key under which the content tracker stores that file.
   */
  lemma LockNameIsFileKey(owner: string, repo: string, path: string)
    ensures LockName(owner, repo, path) == FileKey(owner, repo, path)
  {
  }

  /** Plain concatenation lets distinct files share one lock. */
  lemma LockNameCollision()
    ensures ("a", "b/c", "d") != ("a/b", "c", "d")
    ensures LockName("a", "b/c", "d") == LockName("a/b", "c", "d")
  {
    FileKeyCollision();
    LockNameIsFileKey("a", "b/c", "d");
    LockNameIsFileKey("a/b", "c", "d");
  }

  /** Lock names are unambiguous when owner and repository hold no slash. */
  lemma LockNameInjective(owner1: string, repo1: string, path1: string,
                          owner2: string, repo2: string, path2: string)
    requires '/' !in owner1 && '/' !in repo1 && '/' !in owner2 && '/' !in repo2
    ensures LockName(owner1, repo1, path1) == LockName(owner2, repo2, path2) <==>
              owner1 == owner2 && repo1 == repo2 && path1 == path2
  {
    LockNameIsFileKey(owner1, repo1, path1);
    LockNameIsFileKey(owner2, repo2, path2);
    FileKeyInjective(owner1, repo1, path1, owner2, repo2, path2);
  }

  /** The holder object (if any) whose liveness a read of `key` consults. */
  function HolderAt(entries: Table, key: string): set<User>
  {
    if key in entries && entries[key].Some? then {entries[key].value} else {}
  }

  /** `key` is held by a user whose session is still active. */
  predicate HeldByActive(entries: Table, key: string, now: int)
    reads HolderAt(entries, key)
  {
    key in entries && entries[key].Some? && entries[key].value.IsActive(now)
  }

  /** A handler's answer together with the table it leaves behind. */
  datatype Step<+R> = Step(result: R, table: Table)

  /**
   * Reads the holder of `key`. Only an active holder is returned; a stale
   * holder is overwritten with null, not removed. A null entry counts as
   * "no holder" (see `LookUpOwnerAsWritten` for the code as written).
   */
  function LookUpOwner(entries: Table, key: string, now: int): (r: Step<Option<User>>)
    reads HolderAt(entries, key)
    ensures r.result.Some? <==> HeldByActive(entries, key, now)
    ensures r.result.Some? ==> entries[key] == r.result && r.result.value.IsActive(now)
    ensures r.table.Keys == entries.Keys
    ensures key in entries ==> r.table[key] == r.result
    ensures forall k :: k in entries && k != key ==> r.table[k] == entries[k]
  {
    if key in entries && entries[key].Some? then
      if entries[key].value.IsActive(now) then Step(entries[key], entries)
      else Step(None, entries[key := None])
    else
      Step(None, entries)
  }

  /** The exception a read of the holder can raise. */
  datatype Fault = NullReference

  /**
   * As written, the read dereferences the stored holder without a null
   * check, so a key whose stale holder was cleared to null throws.
   */
  function LookUpOwnerAsWritten(entries: Table, key: string, now: int)
    : (r: Result<Step<Option<User>>, Fault>)
    reads HolderAt(entries, key)
    ensures r.Failure? <==> key in entries && entries[key].None?
    ensures r.Success? ==> r.value == LookUpOwner(entries, key, now)
  {
    if key in entries then
      if entries[key].None? then Failure(NullReference)
      else if entries[key].value.IsActive(now) then Success(Step(entries[key], entries))
      else Success(Step(None, entries[key := None]))
    else
      Success(Step(None, entries))
  }

  /*
   * Each handler reads the holder first and then acts on what it read. The
   * `...After` functions are that second half, given the read's outcome;
   * each handler is its holder read followed by it, with the corrected read
   * (`Request`, ...) or the read as written (`RequestAsWritten`, ...).
   */

  /** Request-lock after its read: take a free lock, keep one's own. */
  function RequestAfter(lookup: Step<Option<User>>, key: string, caller: User): Step<bool>
  {
    if lookup.result.None? then Step(true, lookup.table[key := Some(caller)])
    else if lookup.result.value.token == caller.token then Step(true, lookup.table)
    else Step(false, lookup.table)
  }

  /** Relinquish-lock after its read: remove the key unless another holds it. */
  function RelinquishAfter(lookup: Step<Option<User>>, key: string, caller: User): Step<StatusCode>
  {
    if lookup.result.None? || lookup.result.value.token == caller.token then
      Step(OK, lookup.table - {key})
    else
      Step(BadRequest, lookup.table)
  }

  /** Has-lock after its read: compare the holder's token with the caller's. */
  function HasLockAfter(lookup: Step<Option<User>>, caller: User): Step<bool>
  {
    Step(lookup.result.Some? && lookup.result.value.token == caller.token, lookup.table)
  }

  /** The write guard after its read: the holder must be the caller object. */
  function WriteGuardAfter(lookup: Step<Option<User>>, caller: User): Step<bool>
  {
    Step(lookup.result == Some(caller), lookup.table)
  }

  /**
   * Request-lock: granted when there is no active holder (the caller becomes
   * the holder) or when the active holder has the caller's token (nothing
   * changes); denied, with the holder kept, when another active user holds it.
   */
  function Request(entries: Table, key: string, caller: User, now: int): (r: Step<bool>)
    reads HolderAt(entries, key)
    ensures r.result <==> !HeldByActive(entries, key, now) || entries[key].value.token == caller.token
    ensures !HeldByActive(entries, key, now) ==> r.table == entries[key := Some(caller)]
    ensures HeldByActive(entries, key, now) ==> r.table == entries
  {
    RequestAfter(LookUpOwner(entries, key, now), key, caller)
  }

  /**
   * Relinquish-lock: the key is removed and OK answered when there is no
   * active holder or the caller's token holds it; otherwise BadRequest and
   * the table is left as it was.
   */
  function Relinquish(entries: Table, key: string, caller: User, now: int): (r: Step<StatusCode>)
    reads HolderAt(entries, key)
    ensures r.result == OK <==> !HeldByActive(entries, key, now) || entries[key].value.token == caller.token
    ensures r.result == OK ==> r.table == entries - {key}
    ensures r.result != OK ==> r.result == BadRequest && r.table == entries
  {
    RelinquishAfter(LookUpOwner(entries, key, now), key, caller)
  }

  /**
   * Has-lock: true exactly when an active holder exists and has the caller's
   * token. Like every read, it clears a stale holder to null.
   */
  function HasLock(entries: Table, key: string, caller: User, now: int): (r: Step<bool>)
    reads HolderAt(entries, key)
    ensures r.result <==> HeldByActive(entries, key, now) && entries[key].value.token == caller.token
    ensures HeldByActive(entries, key, now) ==> r.table == entries
    ensures !HeldByActive(entries, key, now) && key in entries ==> r.table == entries[key := None]
    ensures key !in entries ==> r.table == entries
  {
    HasLockAfter(LookUpOwner(entries, key, now), caller)
  }

  /**
   * The lock guard of the file-write handler: the write proceeds only when
   * the active holder is the very caller object; otherwise the handler
   * answers BadRequest before reading the body or touching content.
   */
  function WriteGuard(entries: Table, key: string, caller: User, now: int): (r: Step<bool>)
    reads HolderAt(entries, key)
    ensures r.result <==> HeldByActive(entries, key, now) && entries[key] == Some(caller)
    ensures r.result ==> caller.IsActive(now) && r.table == entries
    ensures HeldByActive(entries, key, now) ==> r.table == entries
    ensures !HeldByActive(entries, key, now) && key in entries ==> r.table == entries[key := None]
    ensures key !in entries ==> r.table == entries
  {
    WriteGuardAfter(LookUpOwner(entries, key, now), caller)
  }

  /** Request-lock as written: throws on a null entry, else as corrected. */
  function RequestAsWritten(entries: Table, key: string, caller: User, now: int)
    : (r: Result<Step<bool>, Fault>)
    reads HolderAt(entries, key)
    ensures r.Failure? <==> key in entries && entries[key].None?
    ensures r.Success? ==> r.value == Request(entries, key, caller, now)
  {
    match LookUpOwnerAsWritten(entries, key, now)
    case Failure(f) => Failure(f)
    case Success(lookup) => Success(RequestAfter(lookup, key, caller))
  }

  /** Relinquish-lock as written: throws on a null entry, else as corrected. */
  function RelinquishAsWritten(entries: Table, key: string, caller: User, now: int)
    : (r: Result<Step<StatusCode>, Fault>)
    reads HolderAt(entries, key)
    ensures r.Failure? <==> key in entries && entries[key].None?
    ensures r.Success? ==> r.value == Relinquish(entries, key, caller, now)
  {
    match LookUpOwnerAsWritten(entries, key, now)
    case Failure(f) => Failure(f)
    case Success(lookup) => Success(RelinquishAfter(lookup, key, caller))
  }

  /** Has-lock as written: throws on a null entry, else as corrected. */
  function HasLockAsWritten(entries: Table, key: string, caller: User, now: int)
    : (r: Result<Step<bool>, Fault>)
    reads HolderAt(entries, key)
    ensures r.Failure? <==> key in entries && entries[key].None?
    ensures r.Success? ==> r.value == HasLock(entries, key, caller, now)
  {
    match LookUpOwnerAsWritten(entries, key, now)
    case Failure(f) => Failure(f)
    case Success(lookup) => Success(HasLockAfter(lookup, caller))
  }

  /** The write guard as written: throws on a null entry, else as corrected. */
  function WriteGuardAsWritten(entries: Table, key: string, caller: User, now: int)
    : (r: Result<Step<bool>, Fault>)
    reads HolderAt(entries, key)
    ensures r.Failure? <==> key in entries && entries[key].None?
    ensures r.Success? ==> r.value == WriteGuard(entries, key, caller, now)
  {
    match LookUpOwnerAsWritten(entries, key, now)
    case Failure(f) => Failure(f)
    case Success(lookup) => Success(WriteGuardAfter(lookup, caller))
  }

  /**
   * As written: a has-lock call that finds the holder of `key` expired
   * answers false and stores null; from then on, whatever the time, every
   * handler on `key` (request, relinquish, has-lock and the write guard)
   * throws, so no user can ever lock, unlock or write that file again.
   */
  lemma StaleHolderPoisonsKey(entries: Table, key: string, holder: User, caller: User,
                              next: User, now: int, later: int)
    requires key in entries && entries[key] == Some(holder) && !holder.IsActive(now)
    ensures var first := HasLockAsWritten(entries, key, caller, now);
              && first == Success(Step(false, entries[key := None]))
              && RequestAsWritten(first.value.table, key, next, later) == Failure(NullReference)
              && RelinquishAsWritten(first.value.table, key, next, later) == Failure(NullReference)
              && HasLockAsWritten(first.value.table, key, next, later) == Failure(NullReference)
              && WriteGuardAsWritten(first.value.table, key, next, later) == Failure(NullReference)
  {
  }

  /**
   * As written, a refused write poisons the key just as has-lock does: the
   * write guard that meets an expired holder stores null on its way to
   * BadRequest, and from then on every handler on `key` throws.
   */
  lemma RefusedWritePoisonsKey(entries: Table, key: string, holder: User, caller: User,
                               next: User, now: int, later: int)
    requires key in entries && entries[key] == Some(holder) && !holder.IsActive(now)
    ensures var first := WriteGuardAsWritten(entries, key, caller, now);
              && first == Success(Step(false, entries[key := None]))
              && RequestAsWritten(first.value.table, key, next, later) == Failure(NullReference)
              && RelinquishAsWritten(first.value.table, key, next, later) == Failure(NullReference)
              && HasLockAsWritten(first.value.table, key, next, later) == Failure(NullReference)
              && WriteGuardAsWritten(first.value.table, key, next, later) == Failure(NullReference)
  {
  }

  /**
   * Corrected: after a stale holder is cleared, later reads find no holder
   * and leave the table alone, and any user's request is granted.
   */
  lemma StaleHolderFreesKey(entries: Table, key: string, holder: User, now: int, later: int,
                            caller: User)
    requires key in entries && entries[key] == Some(holder) && !holder.IsActive(now)
    ensures var first := LookUpOwner(entries, key, now);
              && first.result.None?
              && LookUpOwner(first.table, key, later) == Step(None, first.table)
              && Request(first.table, key, caller, later) == Step(true, entries[key := Some(caller)])
  {
  }

  /** Re-acquiring a lock one already holds succeeds and changes nothing. */
  lemma RequestIdempotent(entries: Table, key: string, caller: User, now: int)
    ensures var first := Request(entries, key, caller, now);
              first.result ==> Request(first.table, key, caller, now) == Step(true, first.table)
  {
  }

  /**
   * After a successful request by an active caller, has-lock answers true
   * for that caller and false for every user with another token, and that
   * user's request is denied without changing the holder.
   */
  lemma GrantedLockExcludesOthers(entries: Table, key: string, caller: User, other: User, now: int)
    requires caller.IsActive(now) && other.token != caller.token
    ensures var first := Request(entries, key, caller, now);
              first.result ==>
                && HasLock(first.table, key, caller, now).result
                && !HasLock(first.table, key, other, now).result
                && Request(first.table, key, other, now) == Step(false, first.table)
                && Relinquish(first.table, key, other, now) == Step(BadRequest, first.table)
  {
  }

  /** After a successful relinquish, any user's request is granted. */
  lemma RelinquishFreesLock(entries: Table, key: string, caller: User, next: User, now: int, later: int)
    ensures var first := Relinquish(entries, key, caller, now);
              first.result == OK ==>
                && !HeldByActive(first.table, key, later)
                && Request(first.table, key, next, later).result
  {
  }

  /**
   * A holder whose session has expired no longer blocks anyone: another
   * user's request is then granted and makes that user the holder.
   */
  lemma ExpiredHolderLosesLock(entries: Table, key: string, holder: User, next: User, now: int)
    requires key in entries && entries[key] == Some(holder) && !holder.IsActive(now)
    ensures Request(entries, key, next, now) == Step(true, entries[key := Some(next)])
  {
  }

  /**
   * The hand-over sequence: `alice` takes the lock, `bob` is denied while
   * she is active, she relinquishes it, and then `bob` is granted it.
   */
  lemma HandOver(entries: Table, key: string, alice: User, bob: User, now: int)
    requires alice.IsActive(now) && bob.token != alice.token
    requires !HeldByActive(entries, key, now)
    ensures var s1 := Request(entries, key, alice, now);
            var s2 := Request(s1.table, key, bob, now);
            var s3 := Relinquish(s2.table, key, alice, now);
            var s4 := Request(s3.table, key, bob, now);
              && s1.result && !s2.result && s3.result == OK && s4.result
              && s4.table == (entries - {key})[key := Some(bob)]
  {
  }

  /** The process-wide lock table and the handler bodies that use it. */
  class LockTable {
    var entries: Table

    constructor ()
      ensures entries == map[]
    {
      entries := map[];
    }

    /** Returns the active holder of the lock, clearing a stale one to null. */
    method GetLockOwner(owner: string, repo: string, path: string, now: int)
      returns (holder: Option<User>)
      modifies this
      ensures var step := LookUpOwner(old(entries), LockName(owner, repo, path), now);
                holder == step.result && entries == step.table
    {
      var key := LockName(owner, repo, path);
      if key in entries && entries[key].Some? {
        var candidate := entries[key].value;
        if candidate.IsActive(now) {
          holder := Some(candidate);
        } else {
          entries := entries[key := None];
          holder := None;
        }
      } else {
        holder := None;
      }
    }

    method RequestLock(owner: string, repo: string, path: string, caller: User, now: int)
      returns (granted: bool)
      modifies this
      ensures var step := Request(old(entries), LockName(owner, repo, path), caller, now);
                granted == step.result && entries == step.table
    {
      var holder := GetLockOwner(owner, repo, path, now);
      if holder.None? {
        entries := entries[LockName(owner, repo, path) := Some(caller)];
        granted := true;
      } else if holder.value.token == caller.token {
        granted := true;
      } else {
        granted := false;
      }
    }

    method RelinquishLock(owner: string, repo: string, path: string, caller: User, now: int)
      returns (status: StatusCode)
      modifies this
      ensures var step := Relinquish(old(entries), LockName(owner, repo, path), caller, now);
                status == step.result && entries == step.table
    {
      var holder := GetLockOwner(owner, repo, path, now);
      if holder.None? || holder.value.token == caller.token {
        entries := entries - {LockName(owner, repo, path)};
        status := OK;
      } else {
        status := BadRequest;
      }
    }

    method HasLockFor(owner: string, repo: string, path: string, caller: User, now: int)
      returns (held: bool)
      modifies this
      ensures var step := HasLock(old(entries), LockName(owner, repo, path), caller, now);
                held == step.result && entries == step.table
    {
      var holder := GetLockOwner(owner, repo, path, now);
      held := holder.Some? && holder.value.token == caller.token;
    }

    /** The lock check at the head of the file-write handler. */
    method CheckWriteLock(owner: string, repo: string, path: string, caller: User, now: int)
      returns (proceed: bool)
      modifies this
      ensures var step := WriteGuard(old(entries), LockName(owner, repo, path), caller, now);
                proceed == step.result && entries == step.table
    {
      var holder := GetLockOwner(owner, repo, path, now);
      proceed := holder == Some(caller);
    }

    /**
     * The acquire / has / relinquish / has sequence a client runs against a
     * free lock: not held, granted, held, released with OK, not held; the
     * key is gone from the table afterwards and no other entry changed.
     */
    method AcquireAndRelease(owner: string, repo: string, path: string, caller: User, now: int)
      returns (before: bool, granted: bool, during: bool, released: StatusCode, after: bool)
      requires caller.IsActive(now)
      requires !HeldByActive(entries, LockName(owner, repo, path), now)
      modifies this
      ensures !before && granted && during && released == OK && !after
      ensures entries == old(entries) - {LockName(owner, repo, path)}
    {
      before := HasLockFor(owner, repo, path, caller, now);
      granted := RequestLock(owner, repo, path, caller, now);
      during := HasLockFor(owner, repo, path, caller, now);
      released := RelinquishLock(owner, repo, path, caller, now);
      after := HasLockFor(owner, repo, path, caller, now);
    }
  }
}
