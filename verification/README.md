# UnSHACLed collaboration server: in-memory coordination core

This project models, in Dafny, the three in-memory pieces of the UnSHACLed
collaboration server that hold its real logic, and proves properties of them.

- **Session registry** (`sessions.dfy`, module `Sessions`). A `User` is an
  ephemeral session object. Its token never changes. Its expiration date and
  its backend credential are updated in place. A `Registry` holds the
  process-wide token-to-user map and the garbage-collection counter.
  - `Create` registers a user under a fresh token. Every 32nd creation first
    sweeps out all expired users.
  - `TryGetByToken` deletes an expired entry lazily and reports it as not
    found.
- **Advisory lock table** (`locks.dfy`, module `Locks`). It maps the key
  `owner/repo/path` to the user holding the lock, or to null once a stale
  holder has been cleared.
  - Each handler is one atomic read-check-write step: request-lock,
    relinquish-lock, has-lock and the lock guard of the file-write handler.
    A pure function states the step's answer and its new table, and a
    `LockTable` method is proved to perform exactly that step, with the
    corrected holder read.
  - Every read re-checks the holder's liveness.
- **In-memory content tracker** (`content.dfy`, module `ContentStore`).
  - A key-to-contents dictionary with create-or-update writes.
  - Prefix-based file listing.
  - A set of repository names.
  - A client bound to one login.
- `access.dfy` (module `Access`) holds the three-way gate every user-facing
  handler runs first. An unknown or expired token gives BadRequest. A user
  without a credential gives Unauthorized. Otherwise the handler runs.
- `wrappers.dfy`, `http.dfy` and `strings.dfy` hold `Option`/`Result`, the
  status codes, and a lemma about splitting a string at its first slash.

Time is an integer `now` passed to each operation, and a user is active when
`expiration > now`. The C# statics (`allUsers`, `garbageCollectionCounter`,
`lockDictionary`) become fields of one `Registry` or `LockTable` instance.
The lock table compares users by token, as the source does. The write guard
compares them by reference, also as the source does.

Keys are joined with a plain `/`, so distinct triples can collide
(`LockNameCollision`, `FileKeyCollision`). A lock and the file it guards have
the same key (`LockNameIsFileKey`).

Each lock handler is modelled twice. The `LockTable` methods and the plain
handler functions (`Request`, `Relinquish`, `HasLock`, `WriteGuard`) use the
corrected holder read, where a null entry means "no holder". The
`...AsWritten` functions use the read as written, which throws on a null
entry (see "## Findings"). Both share the part of each handler after the read
(`RequestAfter`, `RelinquishAfter`, `HasLockAfter`, `WriteGuardAfter`).

## Model

| member | source | states |
|---|---|---|
| `Sessions.User.constructor` | src/UnSHACLed.Collaboration/User.cs:23-27 | a new user keeps the given token, expires at `now + lifetime`, has no credential and so is not authenticated |
| `Sessions.User.IsActive` | src/UnSHACLed.Collaboration/User.cs:52 | a user is active while its expiration date lies after `now` |
| `Sessions.User.IsAuthenticated` | src/UnSHACLed.Collaboration/User.cs:57 | a user is authenticated once a backend credential is attached |
| `Sessions.User.ExtendLifetime` | src/UnSHACLed.Collaboration/User.cs:66-69 | the expiration grows by exactly `extension`; the credential is unchanged (the token is immutable); a non-negative extension keeps an active user active |
| `Sessions.User.SetCredential` | src/UnSHACLed.Collaboration/User.cs:46-57 | setting the backend credential makes the user authenticated and leaves the expiration alone |
| `Sessions.ActiveOnly` | src/UnSHACLed.Collaboration/User.cs:87-97 | the users that survive a sweep are exactly the active ones, each under its own key with its own object |
| `Sessions.Registry.DeleteExpiredUsers` | src/UnSHACLed.Collaboration/User.cs:87-97 | the removal loop leaves the map equal to its active users; every inactive user is removed and every active user stays |
| `Sessions.NextGcCounter` | src/UnSHACLed.Collaboration/User.cs:111-117 | one creation moves the counter within [0, 32); it is reset to 0 exactly when it reaches 32 and otherwise incremented |
| `Sessions.CounterAfter` | src/UnSHACLed.Collaboration/User.cs:74-80 | the counter stays in [0, 32) after any number of creations from its initial 0 |
| `Sessions.SweepOnEvery32ndCreation` | src/UnSHACLed.Collaboration/User.cs:111-117 | after `k` creations the counter is `k mod 32`, so the `k`-th creation sweeps exactly when `k` is a multiple of 32 |
| `Sessions.Registry.constructor` | src/UnSHACLed.Collaboration/User.cs:71-74 | the registry starts with no users and counter 0 |
| `Sessions.Registry.Create` | src/UnSHACLed.Collaboration/User.cs:106-124 | the new user is stored under its own token and is what the map holds there; expiration `now + lifetime`, unauthenticated; the counter advances as `NextGcCounter`; on a reset the other users are swept first; every other active user survives |
| `Sessions.Registry.TryGetByToken` | src/UnSHACLed.Collaboration/User.cs:137-164 | found (with that user) iff the token is present and active, and then the map is unchanged; an expired entry is removed and only it; an absent token changes nothing; after a miss the token is absent, so a repeated lookup takes the not-found path |
| `Access.Admit` | src/UnSHACLed.Collaboration/GitHubAccessModule.cs:130-145 | BadRequest iff the token is unknown or expired, and then only that token's entry is gone from the map; admitted iff it is active and authenticated, with the registry's user for that token; Unauthorized otherwise; admitted or Unauthorized leave the map unchanged; the creation counter and the set of issued tokens never change |
| `Locks.LockName` | src/UnSHACLed.Collaboration/RepoModule.cs:160-166 | the lock key is owner, repository and path joined by `/` |
| `Locks.LockNameIsFileKey` | src/UnSHACLed.Collaboration/RepoModule.cs:160-166 | the lock key of a file equals the key under which the content tracker stores it |
| `Locks.LockNameCollision` | src/UnSHACLed.Collaboration/RepoModule.cs:160-166 | ("a","b/c","d") and ("a/b","c","d") get the same lock name |
| `Locks.LockNameInjective` | src/UnSHACLed.Collaboration/RepoModule.cs:160-166 | lock names are equal iff the triples are equal, when owner and repository contain no slash |
| `Locks.LookUpOwner` | src/UnSHACLed.Collaboration/RepoModule.cs:168-191 | returns a holder iff an active one is stored, and never an inactive user; a stale holder is overwritten with null, never removed; no other key changes |
| `Locks.LookUpOwnerAsWritten` | src/UnSHACLed.Collaboration/RepoModule.cs:175-185 | throws exactly when the stored entry is null; otherwise it agrees with `LookUpOwner` |
| `Locks.StaleHolderPoisonsKey` | src/UnSHACLed.Collaboration/RepoModule.cs:90-191 | as written, a has-lock call that meets an expired holder answers false and stores null; afterwards request, relinquish, has-lock and the write guard on that key all throw, at any time and for any user |
| `Locks.RefusedWritePoisonsKey` | src/UnSHACLed.Collaboration/RepoModule.cs:45-52 | as written, a write guard that meets an expired holder refuses the write and stores null; afterwards request, relinquish, has-lock and the write guard on that key all throw, at any time and for any user |
| `Locks.StaleHolderFreesKey` | src/UnSHACLed.Collaboration/RepoModule.cs:168-191 | corrected, a cleared key reads as free without further change, and any request on it is granted |
| `Locks.Request` | src/UnSHACLed.Collaboration/RepoModule.cs:114-130 | granted iff there is no active holder or the holder has the caller's token; with no active holder the caller is recorded; otherwise the table is unchanged, so a denied request keeps the holder |
| `Locks.Relinquish` | src/UnSHACLed.Collaboration/RepoModule.cs:141-153 | OK iff there is no active holder or the caller's token holds the lock, and then the key is removed; otherwise BadRequest with the table unchanged |
| `Locks.HasLock` | src/UnSHACLed.Collaboration/RepoModule.cs:98-103 | true iff an active holder exists and its token is the caller's; a stale holder is cleared to null |
| `Locks.WriteGuard` | src/UnSHACLed.Collaboration/RepoModule.cs:45-52 | the write proceeds iff the caller object is the active holder; the table is unchanged when an active holder exists or the key is absent, and a stale holder is overwritten with null, so a refused write can still change the table |
| `Locks.RequestAsWritten` | src/UnSHACLed.Collaboration/RepoModule.cs:114-130 | as written, request-lock throws exactly when the stored entry is null; otherwise it is the `Request` step |
| `Locks.RelinquishAsWritten` | src/UnSHACLed.Collaboration/RepoModule.cs:141-153 | as written, relinquish-lock throws exactly when the stored entry is null; otherwise it is the `Relinquish` step |
| `Locks.HasLockAsWritten` | src/UnSHACLed.Collaboration/RepoModule.cs:98-103 | as written, has-lock throws exactly when the stored entry is null; otherwise it is the `HasLock` step |
| `Locks.WriteGuardAsWritten` | src/UnSHACLed.Collaboration/RepoModule.cs:45-52 | as written, the write guard throws exactly when the stored entry is null; otherwise it is the `WriteGuard` step |
| `Locks.RequestIdempotent` | src/UnSHACLed.Collaboration/RepoModule.cs:122-125 | a second request by the holder succeeds and changes nothing |
| `Locks.GrantedLockExcludesOthers` | src/UnSHACLed.Collaboration/RepoModule.cs:98-153 | after a grant to an active caller, has-lock is true for the caller and false for another token, whose request and relinquish are refused with the table unchanged |
| `Locks.RelinquishFreesLock` | src/UnSHACLed.Collaboration/RepoModule.cs:143-147 | after a successful relinquish no one holds the key and any user's request is granted |
| `Locks.ExpiredHolderLosesLock` | src/UnSHACLed.Collaboration/RepoModule.cs:175-185 | an expired holder does not block a request, which makes the new caller the holder |
| `Locks.HandOver` | src/UnSHACLed.Collaboration/RepoModule.cs:114-153 | request by A granted, by B denied, relinquish by A OK, then request by B granted, leaving B as holder |
| `Locks.LockTable.constructor` | src/UnSHACLed.Collaboration/RepoModule.cs:157-158 | the lock table starts empty |
| `Locks.LockTable.GetLockOwner` | src/UnSHACLed.Collaboration/RepoModule.cs:168-191 | performs exactly the `LookUpOwner` step on the table (corrected read: a null entry is no holder) |
| `Locks.LockTable.RequestLock` | src/UnSHACLed.Collaboration/RepoModule.cs:106-131 | performs exactly the `Request` step (corrected read: a null entry is no holder) |
| `Locks.LockTable.RelinquishLock` | src/UnSHACLed.Collaboration/RepoModule.cs:133-154 | performs exactly the `Relinquish` step (corrected read: a null entry is no holder) |
| `Locks.LockTable.HasLockFor` | src/UnSHACLed.Collaboration/RepoModule.cs:90-104 | performs exactly the `HasLock` step (corrected read: a null entry is no holder) |
| `Locks.LockTable.CheckWriteLock` | src/UnSHACLed.Collaboration/RepoModule.cs:45-52 | performs exactly the `WriteGuard` step (corrected read: a null entry is no holder) |
| `Locks.LockTable.AcquireAndRelease` | test/common_tests.py:50-60 | on a free lock, has-lock, request, has-lock, relinquish, has-lock answer false, true, true, OK, false; the table ends as before with the key removed |
| `ContentStore.RepoKey` | src/UnSHACLed.Collaboration/InMemoryContentTracker.cs:180-185 | a repository key is owner and repository joined by `/` |
| `ContentStore.FileKey` | src/UnSHACLed.Collaboration/InMemoryContentTracker.cs:187-193 | a file key is the repository key, `/`, and the path |
| `ContentStore.FileKeyCollision` | src/UnSHACLed.Collaboration/InMemoryContentTracker.cs:180-193 | ("a","b/c","d") and ("a/b","c","d") share one storage key |
| `ContentStore.FileKeyInjective` | src/UnSHACLed.Collaboration/InMemoryContentTracker.cs:180-193 | file keys are equal iff the triples are equal, when owner and repository contain no slash |
| `ContentStore.InMemoryContentTracker.constructor` | src/UnSHACLed.Collaboration/InMemoryContentTracker.cs:19-24 | a new tracker stores no files and no repositories |
| `ContentStore.InMemoryContentTracker.RepositoryNames` | src/UnSHACLed.Collaboration/InMemoryContentTracker.cs:34 | the repository names are the tracker's stored set of `owner/repo` names |
| `ContentStore.InMemoryContentTracker.GetFileContents` | src/UnSHACLed.Collaboration/InMemoryContentTracker.cs:72-92 | succeeds iff the key is stored, with the stored contents; otherwise a `ContentTrackerException` saying the file does not exist; storage is not touched |
| `ContentStore.InMemoryContentTracker.SetFileContents` | src/UnSHACLed.Collaboration/InMemoryContentTracker.cs:111-129 | returns true iff the key was absent; a read-back gives the contents just set; every file under another key keeps its contents; the path is then listed |
| `ContentStore.InMemoryContentTracker.GetFileNames` | src/UnSHACLed.Collaboration/InMemoryContentTracker.cs:143-160 | a path is listed iff `owner/repo/path` is a stored key, i.e. the stored keys with prefix `owner/repo/`, prefix stripped |
| `ContentStore.InMemoryContentTracker.CreateRepository` | src/UnSHACLed.Collaboration/InMemoryContentTracker.cs:175-178 | returns true iff `owner/repo` was not yet a name; afterwards it is one; a repeated call returns false and changes nothing |
| `ContentStore.InMemoryContentTrackerClient.constructor` | src/UnSHACLed.Collaboration/InMemoryContentTracker.cs:249-253 | the client is bound to one login and one tracker |
| `ContentStore.InMemoryContentTrackerClient.EmailDeterminesLogin` | src/UnSHACLed.Collaboration/InMemoryContentTracker.cs:270-273 | stripping the fixed `@example.com` suffix from a client's address gives back its login, so two clients share an address iff they share a login |
| `ContentStore.InMemoryContentTrackerClient.SetFileContents` | src/UnSHACLed.Collaboration/InMemoryContentTracker.cs:296-308 | forwards to the tracker: created iff the key was absent, the key now holds the contents |
| `ContentStore.InMemoryContentTrackerClient.CreateRepository` | src/UnSHACLed.Collaboration/InMemoryContentTracker.cs:320-324 | registers `login/repoName` and returns exactly `login + "/" + repoName`, whether or not it existed |

## Findings

| source | as written | input that shows it | evidently intended | confidence | as-written member | corrected member |
|---|---|---|---|---|---|---|
| src/UnSHACLed.Collaboration/RepoModule.cs:175-185 | `GetLockOwner` clears a stale holder by storing null under the key. On the next call it finds that entry and reads `IsActive` on null. Has-lock and the write guard leave the null in place. Every handler reads the holder first, so from then on every call on that key throws (a server error), and nothing can remove the null. The model keeps each handler as written (`RequestAsWritten`, `RelinquishAsWritten`, `HasLockAsWritten`, `WriteGuardAsWritten`); the `LockTable` methods and the plain handler functions use the corrected read. | User A takes the lock on `o/r/f` and then expires. Any user calls has-lock on `o/r/f` and gets false; the entry is now null. Every later request-lock, has-lock, relinquish-lock or write on `o/r/f` throws. | A null entry means "no holder", like an absent key. | high (not executed) | `Locks.LookUpOwnerAsWritten`, `Locks.StaleHolderPoisonsKey`, `Locks.RefusedWritePoisonsKey` | `Locks.LookUpOwner`, `Locks.StaleHolderFreesKey` |

## Left out

- Concurrency: the `lock` sections over the user map and the lock table, and the reader/writer lock of the content tracker. Each guarded body is modelled as one atomic step.
- Wall-clock reads: `DateTime.Now` is the parameter `now`. The source reads the clock again at each `IsActive`, so one sweep may see slightly different times; the model uses one instant per operation.
- Token generation: the GUID is the `token` argument of `Sessions.Registry.Create`. The model does not assume it is new; a colliding token overwrites the old entry, as in the source.
- Sessions.User.ExtendLifetime: does not model the exception that `DateTime` arithmetic throws past its maximum value, because time is an unbounded integer here; `Sessions.Registry.Create` likewise.
- The GitHub calls in the file GET handler and in the PUT body after the lock guard (RepoModule.cs:18-36, 54-87), and the GitHub content tracker, are foreign network calls; only the lock guard is modelled.
- Route registration, the OAuth flow, CORS, the workspace file I/O, HTML pages, process start-up and option parsing are HTTP and process plumbing. The in-memory tracker's authentication route (InMemoryContentTracker.cs:37-54) is not part of this model either.
- Change tracking and the poll-file endpoint are not modelled.
- Order: `GetFileNames` returns the matching keys in dictionary order and repository names come from a sorted set. Both are modelled as sets, so their order is not captured.
- `StartsWith` in `GetFileNames` compares with the current culture; the model uses an exact prefix test.
- The removal loop of `DeleteExpiredUsers` walks an array snapshot of the inactive users; the model removes them from a set in an arbitrary order, which cannot change the outcome.
- The backend credential (`GitHubToken`, an OAuth token object) is an opaque string, and `InMemoryContentTrackerToken` is folded into the client, which keeps its login and tracker.
- The client's `GetLogin`, `GetName`, `GetEmail`, `GetRepositoryNames`, `GetFileContents` and `GetFileNames` only forward to the login or the tracker and carry no contract of their own; `EmailDeterminesLogin` states what the address means.
- Locks.LockTable.GetLockOwner: the `LockTable` methods and the plain handler functions use the corrected holder read, so a null entry reads as "no holder" instead of throwing; the code as written is modelled by the `...AsWritten` functions and `Locks.StaleHolderPoisonsKey`.
