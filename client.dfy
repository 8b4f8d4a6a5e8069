/** The caching git client of `pkg/git/client.go`: one bare mirror per repository
    under a cache root, refreshed on every `Clone` and copied into the caller's
    destination, with a lock per repository full name.

    The git binary and the file system are an oracle (`Env`) consulted at a
    logical clock: every external action (a stat, a mkdir, one retried git step,
    the local clone, setting the user, removing the cache) reads the oracle at the
    current tick and advances the clock by one. The file system itself is the set
    of paths known to exist. Every action is recorded in a trace of `Event`s. */
module GitClient {
  import opened Errors
  import opened CommandRetry
  import opened Paths
  import opened RemoteHash

  /** The attempt budget every retried command gets: `retryCommand(3, time.Second, ...)`. */
  const Retries := 3

  /** The contexts the client puts in front of an error it passes on ("unabled"
      is the source's own spelling). */
  const CloneRemoteFailed := "failed to clone from remote: "
  const FetchFailed := "failed to fetch: "
  const CloneLocalFailed := "failed to clone from local: "
  const SetUserFailed := "failed to set user: "
  const GitNotFound := "unabled to find the path of git: "
  const TempDirFailed := "unabled to create a temporary directory for git cache: "

  /** The error `os.Stat` reports for a path that does not exist. */
  function NoSuchPath(p: Path): Error
  {
    Error(NotExist, "stat " + p + ": no such file or directory")
  }

  /** One git command line: the working directory (`""` is the process's own) and
      the arguments after the binary. */
  datatype Invocation = Invocation(dir: Path, args: seq<string>)

  function LsRemote(branch: string): Invocation
  {
    Invocation("", ["ls-remote", "refs/heads/" + branch])
  }

  function MirrorClone(remote: string, cachePath: Path): Invocation
  {
    Invocation("", ["clone", "--mirror", remote, cachePath])
  }

  function Fetch(cachePath: Path): Invocation
  {
    Invocation(cachePath, ["fetch"])
  }

  function LocalClone(cachePath: Path, destination: Path): Invocation
  {
    Invocation("", ["clone", cachePath, destination])
  }

  /** The four command lines the client issues never coincide, whatever their
      arguments. */
  lemma InvocationsDistinct(remote: string, cachePath: Path, destination: Path, branch: string)
    ensures MirrorClone(remote, cachePath) != Fetch(cachePath)
    ensures MirrorClone(remote, cachePath) != LocalClone(cachePath, destination)
    ensures Fetch(cachePath) != LocalClone(cachePath, destination)
    ensures LsRemote(branch) != MirrorClone(remote, cachePath)
    ensures LsRemote(branch) != Fetch(cachePath)
    ensures LsRemote(branch) != LocalClone(cachePath, destination)
  {
    assert |MirrorClone(remote, cachePath).args| == 4;
    assert Fetch(cachePath).args[0] == "fetch" != "clone";
    assert LsRemote(branch).args[0] == "ls-remote" != "clone";
  }

  /** The working-copy handle `NewRepo(repoFullName, destination, gitPath, remote, _)`. */
  datatype Repo = Repo(fullName: string, path: Path, gitPath: Path, remote: string)

  /** What the client does to the world, in order. */
  datatype Event =
    | Acquire(key: string)
    | Release(key: string)
    | Stat(path: Path)
    | MakeDir(path: Path)
    | RemoveAll(path: Path)
    | Run(inv: Invocation)
    | Pause
    | SetUser(path: Path, username: string, email: string)

  /** The environment's answers, by tick. `git(t, inv, i)` is attempt `i` of the
      command issued at tick `t`; `leftover(t, inv)` says whether a failed clone at
      tick `t` left its target directory behind. */
  datatype Env = Env(
    statFault: (nat, Path) -> Option<Error>,
    mkdirFault: (nat, Path) -> Option<Error>,
    removeFault: (nat, Path) -> Option<Error>,
    git: (nat, Invocation, nat) -> Reply,
    leftover: (nat, Invocation) -> bool,
    setUserFault: (nat, Repo) -> Option<Error>)

  /** The paths that exist, and the logical clock. */
  datatype Host = Host(fs: set<Path>, clock: nat)

  /** The client's fixed settings. */
  datatype Config = Config(username: string, email: string, gitPath: Path, cacheDir: Path)

  /** A step's result, the world after it, and the events it produced. */
  datatype Outcome<T> = Outcome(result: Result<T>, host: Host, events: seq<Event>)

  function Tick(h: Host): Host
  {
    Host(h.fs, h.clock + 1)
  }

  /** `os.Stat(p)`: an injected fault, else success when `p` exists, else a
      not-exist error. */
  function StatOutcome(env: Env, h: Host, p: Path): Outcome<()>
  {
    var result :=
      match env.statFault(h.clock, p)
      case Some(e) => Err(e)
      case None => if p in h.fs then Ok(()) else Err(NoSuchPath(p));
    Outcome(result, Tick(h), [Stat(p)])
  }

  /** `os.MkdirAll(p, os.ModePerm)`: on success `p` exists afterwards. */
  function MkdirAllOutcome(env: Env, h: Host, p: Path): Outcome<()>
  {
    match env.mkdirFault(h.clock, p)
    case Some(e) => Outcome(Err(e), Tick(h), [MakeDir(p)])
    case None => Outcome(Ok(()), Host(h.fs + {p}, h.clock + 1), [MakeDir(p)])
  }

  /** `os.RemoveAll(dir)`: on success nothing at or below `dir` exists. */
  function RemoveAllOutcome(env: Env, h: Host, dir: Path): Outcome<()>
  {
    match env.removeFault(h.clock, dir)
    case Some(e) => Outcome(Err(e), Tick(h), [RemoveAll(dir)])
    case None => Outcome(Ok(()), Host(RemoveTree(h.fs, dir), h.clock + 1), [RemoveAll(dir)])
  }

  /** The closure `func() { return c.runGitCommand(ctx, inv.dir, inv.args...) }`
      handed to `retryCommand` at tick `t`, as the script of its attempts. */
  function Commander(env: Env, t: nat, inv: Invocation): nat -> Reply
  {
    (i: nat) => env.git(t, inv, i)
  }

  /** The events of a retry of `inv`: a run per call and a pause per sleep. */
  function Issued(inv: Invocation, steps: seq<Step>): seq<Event>
  {
    seq(|steps|, k requires 0 <= k < |steps| => if steps[k].Call? then Run(inv) else Pause)
  }

  function Retried(env: Env, h: Host, inv: Invocation): Attempted
  {
    Retry(Retries, Commander(env, h.clock, inv))
  }

  /** Cache miss: create the mirror's parent directory, then mirror-clone the
      remote into the cache path through the retry. */
  function Populate(env: Env, h: Host, remote: string, cachePath: Path): Outcome<()>
  {
    var m := MkdirAllOutcome(env, h, Dir(cachePath));
    if m.result.Err? && m.result.error.kind != Exist then m
    else
      var inv := MirrorClone(remote, cachePath);
      var a := Retried(env, m.host, inv);
      var events := m.events + Issued(inv, a.steps);
      match a.reply.err
      case None => Outcome(Ok(()), Host(m.host.fs + {cachePath}, m.host.clock + 1), events)
      case Some(e) =>
        var fs := if env.leftover(m.host.clock, inv) then m.host.fs + {cachePath} else m.host.fs;
        Outcome(Err(Wrap(CloneRemoteFailed, e)), Host(fs, m.host.clock + 1), events)
  }

  /** Cache hit: fetch inside the mirror through the retry. */
  function Refresh(env: Env, h: Host, cachePath: Path): Outcome<()>
  {
    var inv := Fetch(cachePath);
    var a := Retried(env, h, inv);
    var result: Result<()> :=
      match a.reply.err
      case None => Ok(())
      case Some(e) => Err(Wrap(FetchFailed, e));
    Outcome(result, Tick(h), Issued(inv, a.steps))
  }

  /** Create the destination, clone the mirror into it once (no retry), build the
      handle, and set the identity on it when one is configured. */
  function Checkout(env: Env, cfg: Config, h: Host, repoFullName: string, remote: string,
                    cachePath: Path, destination: Path): Outcome<Repo>
  {
    var m := MkdirAllOutcome(env, h, destination);
    if m.result.Err? then Outcome(Err(m.result.error), m.host, m.events)
    else
      var inv := LocalClone(cachePath, destination);
      var reply := env.git(m.host.clock, inv, 0);
      var h1 := Tick(m.host);
      var events := m.events + [Run(inv)];
      if reply.err.Some? then
        Outcome(Err(Wrap(CloneLocalFailed, reply.err.value)), h1, events)
      else
        var repo := Repo(repoFullName, destination, cfg.gitPath, remote);
        if cfg.username != "" || cfg.email != "" then
          var events' := events + [SetUser(destination, cfg.username, cfg.email)];
          match env.setUserFault(h1.clock, repo)
          case Some(e) => Outcome(Err(Wrap(SetUserFailed, e)), Tick(h1), events')
          case None => Outcome(Ok(repo), Tick(h1), events')
        else
          Outcome(Ok(repo), h1, events)
  }

  /** What `Clone` does once the stat has told a miss (`miss`) from a hit: bring
      the mirror up to date, then check it out. */
  function FromCache(env: Env, cfg: Config, h: Host, miss: bool, repoFullName: string, remote: string,
                     cachePath: Path, destination: Path): Outcome<Repo>
  {
    var m := if miss then Populate(env, h, remote, cachePath) else Refresh(env, h, cachePath);
    if m.result.Err? then
      Outcome(Err(m.result.error), m.host, m.events)
    else
      var c := Checkout(env, cfg, m.host, repoFullName, remote, cachePath, destination);
      Outcome(c.result, c.host, m.events + c.events)
  }

  /** Everything `Clone` does while it holds the repository's lock. */
  function CloneOutcome(env: Env, cfg: Config, h: Host, base: string, repoFullName: string,
                        destination: Path): Outcome<Repo>
  {
    var cachePath := CachePath(cfg.cacheDir, repoFullName);
    var st := StatOutcome(env, h, cachePath);
    if st.result.Err? && st.result.error.kind != NotExist then
      Outcome(Err(st.result.error), st.host, st.events)
    else
      var f := FromCache(env, cfg, st.host, st.result.Err?, repoFullName, Remote(base, repoFullName),
                         cachePath, destination);
      Outcome(f.result, f.host, st.events + f.events)
  }

  /** `GetLatestRemoteHashForBranch`: `ls-remote refs/heads/<branch>`, retried, in
      the process's directory; the remote is not part of the command. */
  function RemoteHashOutcome(env: Env, h: Host, remote: string, branch: string): Outcome<string>
  {
    var a := Retried(env, h, LsRemote(branch));
    var result :=
      match a.reply.err
      case None => Ok(HashOf(a.reply.out))
      case Some(e) => Err(e);
    Outcome(result, Tick(h), Issued(LsRemote(branch), a.steps))
  }

  /** Proof hint: regrouping a trace. Dafny knows this fact; calling the lemma at the
      right point keeps the trace proofs of the methods below cheap. */
  lemma AppendAssoc(a: seq<Event>, b: seq<Event>, c: seq<Event>)
    ensures a + b + c == a + (b + c)
  {
  }

  /** A `sync.Mutex`, held or free. */
  class Mutex {
    var locked: bool

    constructor ()
      ensures !locked
    {
      locked := false;
    }

    /** Blocking on a held mutex is not modelled: the caller must find it free. */
    method Lock()
      requires !locked
      modifies this
      ensures locked
    {
      locked := true;
    }

    /** Unlocking a free mutex is a run-time error in Go. */
    method Unlock()
      requires locked
      modifies this
      ensures !locked
    {
      locked := false;
    }
  }

  class Client {
    const username: string
    const email: string
    const gitPath: Path
    const cacheDir: Path
    const env: Env
    /** One lock per repository full name, created on first use, never removed. */
    var repoLocks: map<string, Mutex>
    var host: Host
    ghost var trace: seq<Event>

    /** Different keys never share a lock. */
    ghost predicate Valid()
      reads this`repoLocks
    {
      forall a, b :: a in repoLocks && b in repoLocks && a != b ==> repoLocks[a] != repoLocks[b]
    }

    /** The keys whose lock is currently held. */
    ghost function Held(): set<string>
      reads this`repoLocks, repoLocks.Values
    {
      set k | k in repoLocks && repoLocks[k].locked
    }

    function Settings(): Config
    {
      Config(username, email, gitPath, cacheDir)
    }

    constructor (username: string, email: string, gitPath: Path, cacheDir: Path, env: Env, fs: set<Path>)
      ensures this.username == username && this.email == email
      ensures this.gitPath == gitPath && this.cacheDir == cacheDir && this.env == env
      ensures repoLocks == map[] && host == Host(fs, 0) && trace == []
      ensures Valid() && Held() == {}
    {
      this.username := username;
      this.email := email;
      this.gitPath := gitPath;
      this.cacheDir := cacheDir;
      this.env := env;
      repoLocks := map[];
      host := Host(fs, 0);
      trace := [];
    }

    /** `NewClient`: `lookPath` is what `exec.LookPath("git")` found and `tempDir`
        what `ioutil.TempDir("", "gitcache")` created. */
    static method NewClient(username: string, email: string, lookPath: Result<Path>,
                            tempDir: Result<Path>, env: Env, fs: set<Path>)
      returns (r: Result<Client>)
      ensures lookPath.Err? ==> r == Err(Wrap(GitNotFound, lookPath.error))
      ensures lookPath.Ok? && tempDir.Err? ==>
        r == Err(Wrap(TempDirFailed, tempDir.error))
      ensures lookPath.Ok? && tempDir.Ok? ==>
        && r.Ok? && fresh(r.value)
        && r.value.username == username && r.value.email == email
        && r.value.gitPath == lookPath.value && r.value.cacheDir == tempDir.value && r.value.env == env
        && r.value.repoLocks == map[] && r.value.host == Host(fs + {tempDir.value}, 0)
        && r.value.trace == [] && r.value.Valid()
    {
      if lookPath.Err? {
        return Err(Wrap(GitNotFound, lookPath.error));
      }
      if tempDir.Err? {
        return Err(Wrap(TempDirFailed, tempDir.error));
      }
      var c := new Client(username, email, lookPath.value, tempDir.value, env, fs + {tempDir.value});
      return Ok(c);
    }

    /** `lockRepo`: insert a fresh lock for an unknown key, keep every existing
        one, then take the key's lock. */
    method LockRepo(repoFullName: string)
      requires Valid()
      requires repoFullName !in Held()
      modifies this, repoLocks.Values
      ensures Valid()
      ensures repoFullName in repoLocks
      ensures old(repoFullName in repoLocks) ==> repoLocks == old(repoLocks)
      ensures old(repoFullName !in repoLocks) ==>
        fresh(repoLocks[repoFullName]) && repoLocks == old(repoLocks)[repoFullName := repoLocks[repoFullName]]
      ensures Held() == old(Held()) + {repoFullName}
      ensures host == old(host) && trace == old(trace) + [Acquire(repoFullName)]
    {
      if repoFullName !in repoLocks {
        var mu := new Mutex();
        repoLocks := repoLocks[repoFullName := mu];
      }
      var mu := repoLocks[repoFullName];
      mu.Lock();
      trace := trace + [Acquire(repoFullName)];
    }

    /** `unlockRepo`: release the key's lock, which must exist and be held. */
    method UnlockRepo(repoFullName: string)
      requires Valid()
      requires repoFullName in repoLocks && repoFullName in Held()
      modifies this`trace, repoLocks[repoFullName]
      ensures Valid() && repoLocks == old(repoLocks)
      ensures Held() == old(Held()) - {repoFullName}
      ensures host == old(host) && trace == old(trace) + [Release(repoFullName)]
    {
      repoLocks[repoFullName].Unlock();
      trace := trace + [Release(repoFullName)];
    }

    method OsStat(p: Path) returns (err: Option<Error>)
      modifies this`host, this`trace
      ensures var o := StatOutcome(env, old(host), p);
        (err.None? <==> o.result.Ok?) && (err.Some? ==> err.value == o.result.error)
        && host == o.host && trace == old(trace) + o.events
    {
      match env.statFault(host.clock, p) {
        case Some(e) => err := Some(e);
        case None =>
          err := if p in host.fs then None else Some(NoSuchPath(p));
      }
      host := Tick(host);
      trace := trace + [Stat(p)];
    }

    method OsMkdirAll(p: Path) returns (err: Option<Error>)
      modifies this`host, this`trace
      ensures var o := MkdirAllOutcome(env, old(host), p);
        (err.None? <==> o.result.Ok?) && (err.Some? ==> err.value == o.result.error)
        && host == o.host && trace == old(trace) + o.events
    {
      err := env.mkdirFault(host.clock, p);
      host := if err.None? then Host(host.fs + {p}, host.clock + 1) else Tick(host);
      trace := trace + [MakeDir(p)];
    }

    /** `runGitCommand` run once, at the current tick. */
    method RunGitCommand(inv: Invocation) returns (out: string, err: Option<Error>)
      modifies this`host, this`trace
      ensures Reply(out, err) == env.git(old(host.clock), inv, 0)
      ensures host == Tick(old(host)) && trace == old(trace) + [Run(inv)]
    {
      var reply := env.git(host.clock, inv, 0);
      out, err := reply.out, reply.err;
      host := Tick(host);
      trace := trace + [Run(inv)];
    }

    /** `retryCommand(3, time.Second, logger, func() { return c.runGitCommand(...) })`. */
    method RetriedGitCommand(inv: Invocation) returns (out: string, err: Option<Error>)
      modifies this`host, this`trace
      ensures var a := Retried(env, old(host), inv);
        Reply(out, err) == a.reply && host == Tick(old(host)) && trace == old(trace) + Issued(inv, a.steps)
    {
      var steps;
      out, err, steps := RetryCommand(Retries, Commander(env, host.clock, inv));
      host := Tick(host);
      trace := trace + Issued(inv, steps);
    }

    /** `r.SetUser(ctx, c.username, c.email)` on a fresh working copy. */
    method SetUserOn(repo: Repo) returns (err: Option<Error>)
      modifies this`host, this`trace
      ensures err == env.setUserFault(old(host.clock), repo)
      ensures host == Tick(old(host)) && trace == old(trace) + [SetUser(repo.path, username, email)]
    {
      err := env.setUserFault(host.clock, repo);
      host := Tick(host);
      trace := trace + [SetUser(repo.path, username, email)];
    }

    /** `GetLatestRemoteHashForBranch(ctx, remote, branch)`. */
    method GetLatestRemoteHashForBranch(remote: string, branch: string) returns (r: Result<string>)
      modifies this`host, this`trace
      ensures var o := RemoteHashOutcome(env, old(host), remote, branch);
        r == o.result && host == o.host && trace == old(trace) + o.events
      ensures forall e :: e in trace[|old(trace)|..] ==> e == Run(LsRemote(branch)) || e == Pause
    {
      var ref := "refs/heads/" + branch;
      var out, err := RetriedGitCommand(Invocation("", ["ls-remote", ref]));
      if err.Some? {
        return Err(err.value);
      }
      var parts := Split(out, '\t');
      return Ok(parts[0]);
    }

    /** The cache-miss branch of `Clone`: the mirror's parent directory, then the
        retried mirror clone. */
    method PopulateCache(remote: string, cachePath: Path) returns (err: Option<Error>)
      modifies this`host, this`trace
      ensures var o := Populate(env, old(host), remote, cachePath);
        (err.None? <==> o.result.Ok?) && (err.Some? ==> err.value == o.result.error)
        && host == o.host && trace == old(trace) + o.events
    {
      ghost var h0, t0 := host, trace;
      var mkErr := OsMkdirAll(Dir(cachePath));
      ghost var m := MkdirAllOutcome(env, h0, Dir(cachePath));
      if mkErr.Some? && mkErr.value.kind != Exist {
        return mkErr;
      }
      var inv := MirrorClone(remote, cachePath);
      var t := host.clock;
      ghost var a := Retried(env, host, inv);
      ghost var events := m.events + Issued(inv, a.steps);
      var out, cloneErr := RetriedGitCommand(inv);
      AppendAssoc(t0, m.events, Issued(inv, a.steps));
      assert Populate(env, h0, remote, cachePath).events == events;
      if cloneErr.Some? {
        if env.leftover(t, inv) {
          host := Host(host.fs + {cachePath}, host.clock);
        }
        return Some(Wrap(CloneRemoteFailed, cloneErr.value));
      }
      host := Host(host.fs + {cachePath}, host.clock);
      return None;
    }

    /** The cache-hit branch of `Clone`: the retried fetch inside the mirror. */
    method RefreshCache(cachePath: Path) returns (err: Option<Error>)
      modifies this`host, this`trace
      ensures var o := Refresh(env, old(host), cachePath);
        (err.None? <==> o.result.Ok?) && (err.Some? ==> err.value == o.result.error)
        && host == o.host && trace == old(trace) + o.events
    {
      var out, fetchErr := RetriedGitCommand(Fetch(cachePath));
      if fetchErr.Some? {
        return Some(Wrap(FetchFailed, fetchErr.value));
      }
      return None;
    }

    /** The checkout that ends `Clone`: the destination, the local clone and the identity. */
    method CheckoutLocal(repoFullName: string, remote: string, cachePath: Path, destination: Path)
      returns (r: Result<Repo>)
      modifies this`host, this`trace
      ensures var o := Checkout(env, Settings(), old(host), repoFullName, remote, cachePath, destination);
        r == o.result && host == o.host && trace == old(trace) + o.events
    {
      var mkErr := OsMkdirAll(destination);
      if mkErr.Some? {
        return Err(mkErr.value);
      }
      ghost var t1 := trace;
      var out, err := RunGitCommand(LocalClone(cachePath, destination));
      if err.Some? {
        return Err(Wrap(CloneLocalFailed, err.value));
      }
      var repo := Repo(repoFullName, destination, gitPath, remote);
      if username != "" || email != "" {
        ghost var t2 := trace;
        var e := SetUserOn(repo);
        AppendAssoc(old(trace), t1[|old(trace)|..] + t2[|t1|..], [SetUser(repo.path, username, email)]);
        if e.Some? {
          return Err(Wrap(SetUserFailed, e.value));
        }
      }
      return Ok(repo);
    }

    /** The part of `Clone` after the stat: the mirror step the stat chose, then the checkout. */
    method CloneFromCache(miss: bool, repoFullName: string, remote: string, cachePath: Path,
                          destination: Path) returns (r: Result<Repo>)
      modifies this`host, this`trace
      ensures var o := FromCache(env, Settings(), old(host), miss, repoFullName, remote, cachePath, destination);
        r == o.result && host == o.host && trace == old(trace) + o.events
    {
      ghost var t0 := trace;
      ghost var m := if miss then Populate(env, host, remote, cachePath) else Refresh(env, host, cachePath);
      var err;
      if miss {
        err := PopulateCache(remote, cachePath);
      } else {
        err := RefreshCache(cachePath);
      }
      if err.Some? {
        return Err(err.value);
      }
      ghost var c := Checkout(env, Settings(), host, repoFullName, remote, cachePath, destination);
      r := CheckoutLocal(repoFullName, remote, cachePath, destination);
      AppendAssoc(t0, m.events, c.events);
    }

    /** The body of `Clone` between `lockRepo` and the deferred `unlockRepo`. */
    method CloneLocked(base: string, repoFullName: string, destination: Path,
                       remote: string, cachePath: Path) returns (r: Result<Repo>)
      requires remote == Remote(base, repoFullName) && cachePath == CachePath(cacheDir, repoFullName)
      modifies this`host, this`trace
      ensures var o := CloneOutcome(env, Settings(), old(host), base, repoFullName, destination);
        r == o.result && host == o.host && trace == old(trace) + o.events
    {
      ghost var st := StatOutcome(env, host, cachePath);
      var statErr := OsStat(cachePath);
      if statErr.Some? && statErr.value.kind != NotExist {
        return Err(statErr.value);
      }
      ghost var t1 := trace;
      ghost var f := FromCache(env, Settings(), host, statErr.Some?, repoFullName, remote, cachePath, destination);
      r := CloneFromCache(statErr.Some?, repoFullName, remote, cachePath, destination);
      AppendAssoc(old(trace), st.events, f.events);
    }

    /** `Clone(ctx, base, repoFullName, destination)`: the whole of
        `CloneOutcome` happens between taking and releasing the full name's lock. */
    method Clone(base: string, repoFullName: string, destination: Path) returns (r: Result<Repo>)
      requires Valid()
      requires repoFullName !in Held()
      modifies this, repoLocks.Values
      ensures Valid() && Held() == old(Held())
      ensures var o := CloneOutcome(env, Settings(), old(host), base, repoFullName, destination);
        && r == o.result && host == o.host
        && trace == old(trace) + [Acquire(repoFullName)] + o.events + [Release(repoFullName)]
      ensures repoFullName in repoLocks && repoLocks.Keys == old(repoLocks.Keys) + {repoFullName}
      ensures forall k :: k in old(repoLocks) ==> k in repoLocks && repoLocks[k] == old(repoLocks[k])
    {
      var remote := Remote(base, repoFullName);
      var cachePath := CachePath(cacheDir, repoFullName);
      LockRepo(repoFullName);
      r := CloneLocked(base, repoFullName, destination, remote, cachePath);
      UnlockRepo(repoFullName);
    }

    /** `Clean`: remove the whole cache root. */
    method Clean() returns (err: Option<Error>)
      modifies this`host, this`trace
      ensures var o := RemoveAllOutcome(env, old(host), cacheDir);
        (err.None? <==> o.result.Ok?) && (err.Some? ==> err.value == o.result.error)
        && host == o.host && trace == old(trace) + o.events
    {
      err := env.removeFault(host.clock, cacheDir);
      host := if err.None? then Host(RemoveTree(host.fs, cacheDir), host.clock + 1) else Tick(host);
      trace := trace + [RemoveAll(cacheDir)];
    }
  }
}
