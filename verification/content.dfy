/**
 * The in-memory content tracker: file contents kept in one dictionary
 * keyed by `owner/repo/path`, and a set of repository names
 * `owner/repo`. A client bound to one login gives an authenticated user
 * access to it.
 */
module ContentStore {
  import opened Wrappers
  import opened Strings

  /** The key of repository `repo` owned by `owner`. */
  function RepoKey(owner: string, repo: string): string
  {
    owner + "/" + repo
  }

  /** The key of the file at `path` in `owner`'s repository `repo`. */
  function FileKey(owner: string, repo: string, path: string): string
  {
    RepoKey(owner, repo) + "/" + path
  }

  /** Plain concatenation lets distinct files share one storage slot. */
  lemma FileKeyCollision()
    ensures ("a", "b/c", "d") != ("a/b", "c", "d")
    ensures FileKey("a", "b/c", "d") == FileKey("a/b", "c", "d")
  {
  }

  /** File keys are unambiguous when owner and repository hold no slash. */
  lemma FileKeyInjective(owner1: string, repo1: string, path1: string,
                         owner2: string, repo2: string, path2: string)
    requires '/' !in owner1 && '/' !in repo1 && '/' !in owner2 && '/' !in repo2
    ensures FileKey(owner1, repo1, path1) == FileKey(owner2, repo2, path2) <==>
              owner1 == owner2 && repo1 == repo2 && path1 == path2
  {
    if FileKey(owner1, repo1, path1) == FileKey(owner2, repo2, path2) {
      assert FileKey(owner1, repo1, path1) == owner1 + "/" + (repo1 + "/" + path1);
      assert FileKey(owner2, repo2, path2) == owner2 + "/" + (repo2 + "/" + path2);
      SplitAtFirstSlash(owner1, repo1 + "/" + path1, owner2, repo2 + "/" + path2);
      SplitAtFirstSlash(repo1, path1, repo2, path2);
    }
  }

  /** The exception the tracker throws for a file that does not exist. */
  datatype ContentTrackerException = ContentTrackerException(message: string)

  class InMemoryContentTracker {
    var fileStorage: map<string, string>
    var repoNames: set<string>

    constructor ()
      ensures fileStorage == map[] && repoNames == {}
    {
      fileStorage := map[];
      repoNames := {};
    }

    /** The names of all repositories created so far. */
    function RepositoryNames(): set<string>
      reads this
    {
      repoNames
    }

    /** The contents of a stored file; a missing file is an exception. */
    function GetFileContents(owner: string, repo: string, path: string)
      : (r: Result<string, ContentTrackerException>)
      reads this
      ensures r.Success? <==> FileKey(owner, repo, path) in fileStorage
      ensures r.Success? ==> r.value == fileStorage[FileKey(owner, repo, path)]
      ensures r.Failure? ==> r.error.message == "File '" + path + "' does not exist."
    {
      var key := FileKey(owner, repo, path);
      if key in fileStorage then Success(fileStorage[key])
      else Failure(ContentTrackerException("File '" + path + "' does not exist."))
    }

    /**
     * Creates or overwrites a file and reports whether it is new. Reading the
     * file back gives `contents`; every file under another key keeps its
     * contents.
     */
    method SetFileContents(owner: string, repo: string, path: string, contents: string)
      returns (created: bool)
      modifies this
      ensures created <==> FileKey(owner, repo, path) !in old(fileStorage)
      ensures fileStorage == old(fileStorage)[FileKey(owner, repo, path) := contents]
      ensures repoNames == old(repoNames)
      ensures GetFileContents(owner, repo, path) == Success(contents)
      ensures forall o, r, p :: FileKey(o, r, p) != FileKey(owner, repo, path) ==>
                GetFileContents(o, r, p) == old(GetFileContents(o, r, p))
      ensures path in GetFileNames(owner, repo)
    {
      var key := FileKey(owner, repo, path);
      created := key !in fileStorage;
      fileStorage := fileStorage[key := contents];
    }

    /**
     * The files of repository `owner/repo`: the stored keys that start with
     * `owner/repo/`, with that prefix stripped.
     */
    function GetFileNames(owner: string, repo: string): (names: set<string>)
      reads this
      ensures forall path :: path in names <==> FileKey(owner, repo, path) in fileStorage
    {
      var slug := RepoKey(owner, repo) + "/";
      var names := set k | k in fileStorage && slug <= k :: k[|slug|..];
      assert forall path :: FileKey(owner, repo, path) == slug + path;
      assert forall k :: k in fileStorage && slug <= k ==> slug + k[|slug|..] == k;
      assert forall path :: (slug + path)[|slug|..] == path;
      names
    }

    /** Adds `owner/repo` to the repository names; false if it was there. */
    method CreateRepository(owner: string, repo: string) returns (created: bool)
      modifies this
      ensures created <==> RepoKey(owner, repo) !in old(repoNames)
      ensures repoNames == old(repoNames) + {RepoKey(owner, repo)}
      ensures !created ==> repoNames == old(repoNames)
      ensures fileStorage == old(fileStorage)
    {
      var key := RepoKey(owner, repo);
      created := key !in repoNames;
      repoNames := repoNames + {key};
    }
  }

  /**
   * A client for the in-memory tracker, bound to the login of the user who
   * authenticated against it.
   */
  class InMemoryContentTrackerClient {
    const login: string
    const tracker: InMemoryContentTracker

    constructor (login: string, tracker: InMemoryContentTracker)
      ensures this.login == login && this.tracker == tracker
    {
      this.login := login;
      this.tracker := tracker;
    }

    function GetLogin(): string
    {
      login
    }

    /** The in-memory tracker has no display names: the name is the login. */
    function GetName(): string
    {
      login
    }

    /** The e-mail address is the login at `example.com`. */
    function GetEmail(): string
    {
      login + "@example.com"
    }

    /**
     * The e-mail address identifies the client's user: two clients have the
     * same address exactly when they have the same login, and the login is
     * the address with its fixed domain suffix stripped.
     */
    lemma EmailDeterminesLogin(other: InMemoryContentTrackerClient)
      ensures GetEmail()[..|GetEmail()| - 12] == login
      ensures GetEmail() == other.GetEmail() <==> login == other.login
    {
    }

    function GetRepositoryNames(): set<string>
      reads tracker
    {
      tracker.RepositoryNames()
    }

    function GetFileContents(owner: string, repo: string, path: string)
      : Result<string, ContentTrackerException>
      reads tracker
    {
      tracker.GetFileContents(owner, repo, path)
    }

    method SetFileContents(owner: string, repo: string, path: string, contents: string)
      returns (created: bool)
      modifies tracker
      ensures created <==> FileKey(owner, repo, path) !in old(tracker.fileStorage)
      ensures tracker.fileStorage == old(tracker.fileStorage)[FileKey(owner, repo, path) := contents]
      ensures tracker.repoNames == old(tracker.repoNames)
    {
      created := tracker.SetFileContents(owner, repo, path, contents);
    }

    function GetFileNames(owner: string, repo: string): set<string>
      reads tracker
    {
      tracker.GetFileNames(owner, repo)
    }

    /**
     * Creates repository `repoName` under the client's login and returns its
     * full name `login/repoName`, whether or not it existed already.
     */
    method CreateRepository(repoName: string) returns (fullName: string)
      modifies tracker
      ensures fullName == login + "/" + repoName
      ensures fullName in tracker.RepositoryNames()
      ensures tracker.repoNames == old(tracker.repoNames) + {fullName}
      ensures tracker.fileStorage == old(tracker.fileStorage)
    {
      var created := tracker.CreateRepository(login, repoName);
      fullName := login + "/" + repoName;
    }
  }
}
