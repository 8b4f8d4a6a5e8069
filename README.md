# Caching git client, modelled in Dafny

This project models the repository cache client of `pkg/git/client.go`. The client
keeps one bare mirror per repository full name under a cache root. `Clone` brings
that mirror up to date and then clones it into the caller's destination:

- on a cache miss (the stat says the path does not exist), it makes the mirror's
  parent directory and runs `clone --mirror`;
- on a hit, it runs `fetch` inside the mirror;
- both commands go through a three-attempt retry;
- it then makes the destination, runs one local `clone` with no retry, and sets
  the git identity when a user name or an email is configured.

All of this happens while `Clone` holds a lock kept per full name in a registry
(`repoLocks`). `Clean` removes the cache root. `GetLatestRemoteHashForBranch` runs
`ls-remote refs/heads/<branch>` through the same retry and returns the first
tab-separated field of its output.

The modules follow the program's structure:

- `Errors` (errors.dfy): `Option`, `Result`, and the error kinds the client
  tells apart (not-exist, exist, any other). `Wrap` is the model of
  `fmt.Errorf("<context>: %v", err)`.
- `CommandRetry` (retry.dfy): `retryCommand`.
  - The commander is a script `nat -> Reply`: what attempt `i` returns.
  - The method `RetryCommand` keeps the source's loop. It is proved against the
    recursive function `Retry`, which also returns the trace of calls and
    sleeps.
  - The lemmas state the attempt count, the result chosen and the sleep count.
- `Paths` (paths.dfy): the remote, the cache path, `filepath.Dir`, and the
  subtree that `os.RemoveAll` deletes.
- `RemoteHash` (remote_hash.dfy): `strings.Split` on one separator character
  and the hash taken from its first field.
- `GitClient` (client.dfy): the environment, the outcome functions that specify
  every step, a `Mutex` class, and the `Client` class.
  - The environment is a value `Env` of oracle functions read at a logical
    clock. It answers stat, mkdir, remove-all, every git attempt, whether a
    failed mirror clone left its directory behind, and set-user.
  - `Client` has the source's fields plus the abstract file system `host` and a
    ghost trace of events.
  - The methods `OsStat`, `OsMkdirAll`, `RetriedGitCommand`,
    `GetLatestRemoteHashForBranch`, `PopulateCache`, `RefreshCache`,
    `CheckoutLocal`, `CloneFromCache`, `CloneLocked`, `Clone` and `Clean` are
    proved to return, and leave behind, exactly what their outcome functions
    (`StatOutcome`, `MkdirAllOutcome`, `Retried`, `RemoteHashOutcome`,
    `Populate`, `Refresh`, `Checkout`, `FromCache`, `CloneOutcome`,
    `RemoveAllOutcome`) compute from the old state.
  - `LockRepo`, `UnlockRepo`, `NewClient`, `RunGitCommand` and `SetUserOn`
    state their results and new state directly.
- `CloneProperties` (clone_properties.dfy): the promises about those outcome
  functions:
  - which commands are issued, how often and in what order;
  - what is returned on each error path;
  - what the next `Clone` sees in the cache.

Points of the code's behaviour that the model keeps:

- The hash is everything before the first tab, or the whole output when there
  is no tab. Nothing is trimmed, and no parse error is ever raised.
- `ls-remote` is run in the process's own directory, with only the ref as its
  argument. The `remote` parameter appears only in a log line.
- The mirror lives at `<cache root>/<full name>.git` for a non-empty full name
  with no empty, "." or ".." segment.
- Several errors are returned unwrapped:
  - the stat error;
  - both `MkdirAll` errors;
  - the `ls-remote` error.
- The wrapped errors carry only a context prefix. They carry neither the
  captured output nor the destination path, which go only to the log.

## Model

| member | source | states |
|---|---|---|
| CommandRetry.RetryCommand | pkg/git/client.go:194-204 | the loop's output, error and trace of calls and sleeps are exactly those of the reference function `Retry` |
| CommandRetry.RetryStopsAtFirstSuccess | pkg/git/client.go:194-199 | the retry stops at the first attempt without error and returns that attempt's output with no error; attempts before it are each followed by one sleep, the successful one by none |
| CommandRetry.RetryAllFail | pkg/git/client.go:195-203 | when every attempt fails, the last attempt's output and error are returned after `retries` calls and `retries` sleeps, one after the final failure too |
| CommandRetry.RetryNonPositive | pkg/git/client.go:194-203 | with `retries <= 0` nothing is called, nothing sleeps, and the result is empty output with no error |
| CommandRetry.RetryCounts | pkg/git/client.go:194-204 | for any commander, at most `retries` calls (at least one when positive); the result is the last call's reply; an error result means every attempt was used |
| CommandRetry.RetryTwoFailuresThenSuccess | pkg/git/client.go:195-202 | three retries over a command failing twice, then succeeding: the third reply, after exactly two sleeps |
| CommandRetry.FailuresShape | pkg/git/client.go:195-202 | a run of failed attempts alternates call and sleep, one of each per attempt |
| Paths.Dir | pkg/git/client.go:113 | the model's rule for `filepath.Dir`: the part before the last '/', or "." when there is none |
| Paths.Remote | pkg/git/client.go:93 | the remote a mirror is cloned from lies strictly below the base |
| Paths.RemoteInjective | pkg/git/client.go:93 | under one base, two full names share a remote only when they are equal |
| Paths.CachePath | pkg/git/client.go:94 | the mirror lies strictly below the cache root and its name ends in ".git" |
| Paths.CachePathInjective | pkg/git/client.go:94 | two full names share a cache path only when they are equal |
| Paths.CachePathWithin | pkg/git/client.go:94 | the mirror lies strictly inside the cache root; its parent lies inside it or is the root itself |
| RemoteHash.Split | pkg/git/client.go:86 | the pieces number one more than the separators, none holds a separator, and joining them gives back the input |
| RemoteHash.HashOf | pkg/git/client.go:86-87 | the hash is a prefix of the output without a tab, ending at the first tab or at the end |
| RemoteHash.HashOfUnique | pkg/git/client.go:86-87 | those properties determine the hash |
| RemoteHash.HashOfLsRemoteLine | pkg/git/client.go:86-87 | `"abc123deadbeef\trefs/heads/main\n"` gives `"abc123deadbeef"` |
| RemoteHash.HashOfWithoutTab | pkg/git/client.go:86-87 | output with no tab is returned whole, untrimmed; empty output gives the empty hash |
| GitClient.InvocationsDistinct | pkg/git/client.go:75-146 | the ls-remote, mirror-clone, fetch and local-clone command lines (lines 75, 117, 130 and 146) never coincide |
| GitClient.Mutex.Lock | pkg/git/client.go:178 | taking a free lock makes it held |
| GitClient.Mutex.Unlock | pkg/git/client.go:183 | releasing a held lock makes it free |
| GitClient.Client.constructor | pkg/git/client.go:62-69 | the client starts with its settings, an empty lock registry and no held lock |
| GitClient.Client.NewClient | pkg/git/client.go:51-70 | a git lookup failure and a temp-dir failure each give their wrapped error; otherwise a fresh client whose cache root is the new directory |
| GitClient.Client.LockRepo | pkg/git/client.go:170-179 | the key is then registered and held; other keys' locks are kept; a new lock is created only for an absent key |
| GitClient.Client.UnlockRepo | pkg/git/client.go:181-185 | the key must be registered and held; its lock is released and the registry is unchanged |
| GitClient.Client.OsStat | pkg/git/client.go:105 | the stat answers as the oracle says, else by whether the path exists, and advances the clock |
| GitClient.Client.OsMkdirAll | pkg/git/client.go:113 | mkdir adds the path unless the oracle reports an error |
| GitClient.Client.RunGitCommand | pkg/git/client.go:187-191 | one git run returns the oracle's reply for attempt 0 and records the command |
| GitClient.Client.RetriedGitCommand | pkg/git/client.go:194-204 | a retried git command (the calls at lines 74-76, 116-118 and 129-131) returns the reply of `Retry` and records one run per attempt and one pause per sleep |
| GitClient.Client.SetUserOn | pkg/git/client.go:157 | setting the identity records the event and returns the oracle's answer |
| GitClient.Client.GetLatestRemoteHashForBranch | pkg/git/client.go:72-88 | result, state and trace equal `RemoteHashOutcome`; the only commands added are `ls-remote` runs and pauses |
| GitClient.Client.PopulateCache | pkg/git/client.go:110-125 | the miss branch does what `Populate` says: parent directory, skipping an already-exists error, then the retried mirror clone |
| GitClient.Client.RefreshCache | pkg/git/client.go:126-139 | the hit branch does what `Refresh` says: the retried fetch, its error wrapped |
| GitClient.Client.CheckoutLocal | pkg/git/client.go:141-162 | the destination, the single local clone and the optional identity happen as `Checkout` says |
| GitClient.Client.CloneFromCache | pkg/git/client.go:110-162 | after the stat: the mirror step, then the checkout only when it succeeded |
| GitClient.Client.CloneLocked | pkg/git/client.go:105-162 | the body of `Clone` under the lock equals `CloneOutcome` in result, state and trace |
| GitClient.Client.Clone | pkg/git/client.go:91-163 | the whole of `CloneOutcome` happens between taking and releasing the full name's lock; no lock stays held; the registry only gains that key |
| GitClient.Client.Clean | pkg/git/client.go:166-168 | the cache root's subtree is removed unless the oracle reports an error |
| CloneProperties.IssuedEvents | pkg/git/client.go:195-202 | a retried command's events are its runs and pauses, one run per attempt |
| CloneProperties.RetriedRuns | pkg/git/client.go:116-131 | every retried command is run one to three times |
| CloneProperties.CloneStatFailure | pkg/git/client.go:105-108 | a stat error other than not-exist is returned as is, with only the stat done and nothing changed on disk |
| CloneProperties.CloneSteps | pkg/git/client.go:105-162 | past the stat, `Clone` is the mirror step followed, only on its success, by the checkout |
| CloneProperties.PopulateEvents | pkg/git/client.go:110-125 | a miss makes the parent directory and mirror-clones one to three times exactly when that did not fail; it never fetches |
| CloneProperties.RefreshEvents | pkg/git/client.go:126-139 | a hit fetches one to three times and does nothing else but pause |
| CloneProperties.MirrorStepEvents | pkg/git/client.go:110-139 | the mirror step mirror-clones only on a miss and fetches only on a hit, touching nothing beyond the mirror and its parent |
| CloneProperties.MirrorStepTouches | pkg/git/client.go:110-139 | the mirror step never clones locally, never sets the identity, and makes no directory but the mirror's parent |
| CloneProperties.CloneMirrorOrFetch | pkg/git/client.go:110-139 | never both a mirror clone and a fetch; a fetch exactly on a hit; a mirror clone exactly on a miss with its parent made; each at most three times |
| CloneProperties.CloneMirrorFailure | pkg/git/client.go:113-139 | a failed mirror step's error is returned with no local clone, no identity and no directory made but the mirror's parent |
| CloneProperties.CheckoutEvents | pkg/git/client.go:141-162 | the checkout makes the destination, then clones locally if that worked, then at most sets the configured user name and email on the destination |
| CloneProperties.CheckoutTail | pkg/git/client.go:141-153 | the checkout never runs a mirror clone or a fetch; the local clone is its second event exactly when the destination was made |
| CloneProperties.CloneEventsAtCheckout | pkg/git/client.go:105-153 | the trace splits where the checkout begins: the local clone never before, mirror clone and fetch never after |
| CloneProperties.CloneLocalCloneOnce | pkg/git/client.go:141-153 | the local clone runs at most once, exactly when the mirror step and the destination succeeded, and no mirror clone or fetch follows it |
| CloneProperties.CheckoutSetsUser | pkg/git/client.go:155-162 | the identity is set exactly when the local clone succeeded and a user name or email is configured, as the last event; its failure makes the result an error |
| CloneProperties.CheckoutSuccess | pkg/git/client.go:141-162 | the checkout removes nothing; on success the destination exists, the local clone was run, and the handle is the destination bound to the remote |
| CloneProperties.CloneSuccess | pkg/git/client.go:91-163 | a successful `Clone` returns the handle for the destination bound to the remote, with mirror and destination present; nothing is removed |
| CloneProperties.CloneOfExistingMirrorFetches | pkg/git/client.go:105-131 | an existing mirror whose stat succeeds is fetched, never mirror-cloned |
| CloneProperties.SecondCloneFetches | pkg/git/client.go:91-163 | after a successful `Clone`, the next one of that full name fetches, whatever its base or destination |
| CloneProperties.LeftoverMirrorIsFetched | pkg/git/client.go:116-131 | a failed first mirror clone that leaves its directory makes the next `Clone` fetch into it |
| CloneProperties.CloneSharesCacheAcrossBases | pkg/git/client.go:93-94 | on a hit, two bases for one full name do identical work on the same mirror; when both succeed, the handles differ only in their remote |
| CloneProperties.CleanForgetsMirrors | pkg/git/client.go:166-168 | a successful `Clean` removes every mirror and its parent directory |
| CloneProperties.CleanThenCloneMirrors | pkg/git/client.go:105-168 | after `Clean` a `Clone` is a miss again: it never fetches, and it mirror-clones once its parent is made |
| CloneProperties.RemoteHashOutcomeShape | pkg/git/client.go:72-88 | only `ls-remote` is run, one to three times, whatever the remote; the result is the hash of the successful attempt's output or the last error, unwrapped |

## Left out

- Running git and the file system are oracles in `Env`, read at a logical
  clock, because they are foreign calls; only their answers and the resulting
  set of existing paths are modelled. `exec.LookPath` and `ioutil.TempDir`
  become parameters of `NewClient`.
- Blocking, waiting and goroutine interleaving on `sync.Mutex` are not modelled,
  because they are concurrency. The registry mutex `c.mu` is not a field, and
  the registry updates are taken as atomic. `LockRepo` requires the key not to
  be held, which stands for the wait.
- Sleep durations, `context` cancellation and every `zap` log line are left out,
  because they are timing, cancellation or output only. A sleep is recorded as
  a `Pause` event.
- `NewRepo` and `Repo.SetUser` are not part of this model. The handle is a
  datatype of the four values it is built from, and `SetUser` is a fallible
  oracle call.
- `filepath.Join` and `filepath.Dir` do no path cleaning here: a join is plain
  concatenation with '/'. `MkdirAll` adds only the path it is given, not its
  ancestors.
- Paths.Dir: for a path directly under the file system root, such as "/x",
  the model gives "" where Go's `filepath.Dir` gives "/". Mirror paths lie
  below a temporary directory and never take that form.
- Paths.CachePathInjective: holds because the join is plain concatenation.
  Under `filepath.Join`'s cleaning it holds only for full names with no empty,
  "." or ".." segment: "o//r" and "o/./r" would share the mirror of "o/r",
  while `lockRepo` would give each its own lock.
- Paths.CachePath: its mirror lies below the cache root only for non-empty
  full names with no empty, "." or ".." segment once `filepath.Join` cleans
  the path. A full name such as "../x" puts the mirror outside the root, and
  "", "." or "a/.." give `<cache root>.git`, beside the root.
- Paths.CachePathWithin: for the same reason, it holds only for non-empty full
  names with no empty, "." or ".." segment.
- CloneProperties.CleanForgetsMirrors: for the same reason, it holds only for
  non-empty full names with no empty, "." or ".." segment: a mirror outside
  the cache root survives `Clean`.
- CloneProperties.CleanThenCloneMirrors: for the same reason, it holds only for
  non-empty full names with no empty, "." or ".." segment: a mirror outside
  the cache root survives `Clean`, and the next `Clone` is a hit.
- GitClient.Client.Clean: a failing `os.RemoveAll` leaves the modelled file
  system unchanged, although a real partial removal may delete some paths.
- GitClient.Client.PopulateCache: what a failed mirror clone leaves behind is
  one oracle flag that adds the cache path or not. Partial residue from
  individual attempts is not modelled.
- Nil and empty command output are not told apart; both are the empty string.
- pkg/app/piped/executor/kubernetes/baseline.go is not part of this model. Its
  three methods return a constant stage status and hold no logic.
