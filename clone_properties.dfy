/** What `Clone`, `Clean` and `GetLatestRemoteHashForBranch` promise, stated over
    their outcome functions: which git commands are issued, in what order and how
    often, what is returned, and what the cache looks like for the next call. */
module CloneProperties {
  import opened Errors
  import opened CommandRetry
  import opened Paths
  import opened RemoteHash
  import opened GitClient

  /** The stat of the mirror that starts every `Clone`. */
  function CacheStat(env: Env, cfg: Config, h: Host, repoFullName: string): Outcome<()>
  {
    StatOutcome(env, h, CachePath(cfg.cacheDir, repoFullName))
  }

  /** The stat found no mirror (a cache miss), as opposed to a hit or a stat failure. */
  predicate Miss(env: Env, cfg: Config, h: Host, repoFullName: string)
  {
    var st := CacheStat(env, cfg, h, repoFullName);
    st.result.Err? && st.result.error.kind == NotExist
  }

  predicate Hit(env: Env, cfg: Config, h: Host, repoFullName: string)
  {
    CacheStat(env, cfg, h, repoFullName).result.Ok?
  }

  /** On a miss, creating the mirror's parent directory did not fail (an
      already-exists error is ignored). */
  predicate ParentReady(env: Env, cfg: Config, h: Host, repoFullName: string)
  {
    var m := MkdirAllOutcome(env, Tick(h), Dir(CachePath(cfg.cacheDir, repoFullName)));
    !(m.result.Err? && m.result.error.kind != Exist)
  }

  /** The mirror step of a `Clone` that got past the stat: populate on a miss,
      refresh on a hit. */
  function MirrorStep(env: Env, cfg: Config, h: Host, base: string, repoFullName: string): Outcome<()>
  {
    var cachePath := CachePath(cfg.cacheDir, repoFullName);
    if Miss(env, cfg, h, repoFullName) then Populate(env, Tick(h), Remote(base, repoFullName), cachePath)
    else Refresh(env, Tick(h), cachePath)
  }

  /** The events of a retried command are its runs and its pauses, one run per
      attempt. */
  lemma {:induction false} IssuedEvents(inv: Invocation, steps: seq<Step>)
    ensures forall e :: e in Issued(inv, steps) ==> e == Run(inv) || e == Pause
    ensures multiset(Issued(inv, steps))[Run(inv)] == Calls(steps)
  {
    if steps != [] {
      IssuedEvents(inv, steps[1..]);
      var head: Event := if steps[0].Call? then Run(inv) else Pause;
      assert Issued(inv, steps) == [head] + Issued(inv, steps[1..]);
    }
  }

  /** Every retried command is run at least once and at most `Retries` times. */
  lemma RetriedRuns(env: Env, h: Host, inv: Invocation)
    ensures var a := Retried(env, h, inv);
      1 <= multiset(Issued(inv, a.steps))[Run(inv)] <= Retries
      && (forall e :: e in Issued(inv, a.steps) ==> e == Run(inv) || e == Pause)
  {
    RetryCounts(Retries, Commander(env, h.clock, inv));
    IssuedEvents(inv, Retried(env, h, inv).steps);
  }

  /** A stat failure other than not-exist is returned as it is, before any git
      command is issued, any directory is created, or anything changes on disk. */
  lemma CloneStatFailure(env: Env, cfg: Config, h: Host, base: string, repoFullName: string, destination: Path)
    requires !Miss(env, cfg, h, repoFullName) && !Hit(env, cfg, h, repoFullName)
    ensures var o := CloneOutcome(env, cfg, h, base, repoFullName, destination);
      && o.result == Err(CacheStat(env, cfg, h, repoFullName).result.error)
      && o.events == [Stat(CachePath(cfg.cacheDir, repoFullName))]
      && o.host.fs == h.fs
  {
  }

  /** Proof hint: membership in a concatenated trace. Dafny knows this fact; calling
      the lemma keeps the membership proofs below cheap. */
  lemma NotInEither(a: seq<Event>, b: seq<Event>, x: Event)
    ensures x in a + b <==> x in a || x in b
  {
  }

  /** How a `Clone` that gets past the stat is made of its mirror step and its
      checkout. */
  lemma CloneSteps(env: Env, cfg: Config, h: Host, base: string, repoFullName: string, destination: Path)
    requires Miss(env, cfg, h, repoFullName) || Hit(env, cfg, h, repoFullName)
    ensures var o := CloneOutcome(env, cfg, h, base, repoFullName, destination);
      var m := MirrorStep(env, cfg, h, base, repoFullName);
      var cachePath := CachePath(cfg.cacheDir, repoFullName);
      var c := Checkout(env, cfg, m.host, repoFullName, Remote(base, repoFullName), cachePath, destination);
      && (m.result.Err? ==> o.events == [Stat(cachePath)] + m.events && o.result == Err(m.result.error) && o.host == m.host)
      && (m.result.Ok? ==> o.events == [Stat(cachePath)] + m.events + c.events && o.result == c.result && o.host == c.host)
  {
    var m := MirrorStep(env, cfg, h, base, repoFullName);
    var cachePath := CachePath(cfg.cacheDir, repoFullName);
    var c := Checkout(env, cfg, m.host, repoFullName, Remote(base, repoFullName), cachePath, destination);
    AppendAssoc([Stat(cachePath)], m.events, c.events);
  }

  /** A populate adds nothing to the disk but the mirror's parent and the mirror. */
  lemma PopulateFiles(env: Env, h: Host, remote: string, cachePath: Path)
    ensures Populate(env, h, remote, cachePath).host.fs <= h.fs + {Dir(cachePath), cachePath}
  {
  }

  /** A populate makes the mirror's parent directory and, when that did not
      fail, runs the mirror clone one to `Retries` times; it never fetches. */
  lemma PopulateEvents(env: Env, h: Host, remote: string, cachePath: Path)
    ensures var p := Populate(env, h, remote, cachePath);
      var mirror := Run(MirrorClone(remote, cachePath));
      var made := MkdirAllOutcome(env, h, Dir(cachePath));
      && (forall e :: e in p.events ==> e == mirror || e == Pause || e == MakeDir(Dir(cachePath)))
      && multiset(p.events)[Run(Fetch(cachePath))] == 0
      && (!(made.result.Err? && made.result.error.kind != Exist) ==> 1 <= multiset(p.events)[mirror] <= Retries)
      && (made.result.Err? && made.result.error.kind != Exist ==> multiset(p.events)[mirror] == 0)
      && p.host.fs <= h.fs + {Dir(cachePath), cachePath}
  {
    var made := MkdirAllOutcome(env, h, Dir(cachePath));
    PopulateFiles(env, h, remote, cachePath);
    if !(made.result.Err? && made.result.error.kind != Exist) {
      var inv := MirrorClone(remote, cachePath);
      var issued := Issued(inv, Retried(env, made.host, inv).steps);
      RetriedRuns(env, made.host, inv);
      assert Populate(env, h, remote, cachePath).events == [MakeDir(Dir(cachePath))] + issued;
      assert multiset([MakeDir(Dir(cachePath))] + issued) == multiset([MakeDir(Dir(cachePath))]) + multiset(issued);
      assert Run(Fetch(cachePath)) !in issued;
    }
  }

  /** A refresh runs the fetch one to `Retries` times and nothing else but pauses. */
  lemma RefreshEvents(env: Env, h: Host, cachePath: Path)
    ensures var r := Refresh(env, h, cachePath);
      && (forall e :: e in r.events ==> e == Run(Fetch(cachePath)) || e == Pause)
      && 1 <= multiset(r.events)[Run(Fetch(cachePath))] <= Retries
      && r.host.fs == h.fs
  {
    RetriedRuns(env, h, Fetch(cachePath));
  }

  /** The mirror step runs the mirror clone on a miss with its parent directory
      made, and the fetch on a hit, each one to `Retries` times, and nothing
      else but pauses and the parent directory. */
  lemma MirrorStepEvents(env: Env, cfg: Config, h: Host, base: string, repoFullName: string)
    requires Miss(env, cfg, h, repoFullName) || Hit(env, cfg, h, repoFullName)
    ensures var m := MirrorStep(env, cfg, h, base, repoFullName);
      var cachePath := CachePath(cfg.cacheDir, repoFullName);
      var mirror := Run(MirrorClone(Remote(base, repoFullName), cachePath));
      var fetch := Run(Fetch(cachePath));
      && (forall e :: e in m.events ==> e == mirror || e == fetch || e == Pause || e == MakeDir(Dir(cachePath)))
      && (Hit(env, cfg, h, repoFullName) ==> multiset(m.events)[mirror] == 0 && 1 <= multiset(m.events)[fetch] <= Retries)
      && (Miss(env, cfg, h, repoFullName) ==> multiset(m.events)[fetch] == 0)
      && (Miss(env, cfg, h, repoFullName) && ParentReady(env, cfg, h, repoFullName) ==>
            1 <= multiset(m.events)[mirror] <= Retries)
      && (Miss(env, cfg, h, repoFullName) && !ParentReady(env, cfg, h, repoFullName) ==>
            multiset(m.events)[mirror] == 0)
      && m.host.fs <= h.fs + {Dir(cachePath), cachePath}
  {
    var cachePath := CachePath(cfg.cacheDir, repoFullName);
    if Miss(env, cfg, h, repoFullName) {
      PopulateEvents(env, Tick(h), Remote(base, repoFullName), cachePath);
    } else {
      RefreshEvents(env, Tick(h), cachePath);
      assert MirrorClone(Remote(base, repoFullName), cachePath) != Fetch(cachePath);
    }
  }

  /** The checkout makes the destination, then runs the local clone if that
      worked, then possibly sets the configured identity on the destination; it
      runs no other command. */
  lemma CheckoutEvents(env: Env, cfg: Config, h: Host, repoFullName: string, remote: string,
                       cachePath: Path, destination: Path)
    ensures var c := Checkout(env, cfg, h, repoFullName, remote, cachePath, destination);
      var local := Run(LocalClone(cachePath, destination));
      var identity := SetUser(destination, cfg.username, cfg.email);
      && (forall e :: e in c.events ==> e == MakeDir(destination) || e == local || e == identity)
      && (MkdirAllOutcome(env, h, destination).result.Err? ==> c.events == [MakeDir(destination)])
      && (MkdirAllOutcome(env, h, destination).result.Ok? ==>
            2 <= |c.events| && c.events[0] == MakeDir(destination) && c.events[1] == local
            && forall e :: e in c.events[2..] ==> e == identity)
  {
  }

  /** A miss mirror-clones and a hit fetches, never both: the fetch is issued
      exactly on a hit and the mirror clone exactly on a miss whose parent
      directory could be made, each at most `Retries` times. */
  lemma CloneMirrorOrFetch(env: Env, cfg: Config, h: Host, base: string, repoFullName: string, destination: Path)
    ensures var o := CloneOutcome(env, cfg, h, base, repoFullName, destination);
      var cachePath := CachePath(cfg.cacheDir, repoFullName);
      var clones := multiset(o.events)[Run(MirrorClone(Remote(base, repoFullName), cachePath))];
      var fetches := multiset(o.events)[Run(Fetch(cachePath))];
      && (clones == 0 || fetches == 0)
      && (fetches > 0 <==> Hit(env, cfg, h, repoFullName))
      && (clones > 0 <==> Miss(env, cfg, h, repoFullName) && ParentReady(env, cfg, h, repoFullName))
      && fetches <= Retries && clones <= Retries
  {
    var o := CloneOutcome(env, cfg, h, base, repoFullName, destination);
    var cachePath := CachePath(cfg.cacheDir, repoFullName);
    var mirror, fetch := Run(MirrorClone(Remote(base, repoFullName), cachePath)), Run(Fetch(cachePath));
    var head, tail := CloneEventsAtCheckout(env, cfg, h, base, repoFullName, destination);
    var steps := if Miss(env, cfg, h, repoFullName) || Hit(env, cfg, h, repoFullName)
                 then MirrorStep(env, cfg, h, base, repoFullName).events else [];
    assert multiset(o.events) == multiset([Stat(cachePath)]) + multiset(steps) + multiset(tail);
    assert multiset(o.events)[mirror] == multiset(steps)[mirror];
    assert multiset(o.events)[fetch] == multiset(steps)[fetch];
    if Miss(env, cfg, h, repoFullName) || Hit(env, cfg, h, repoFullName) {
      MirrorStepEvents(env, cfg, h, base, repoFullName);
    }
  }

  /** The mirror step never clones into a destination, never sets the identity,
      makes no directory but the mirror's parent, and adds nothing to the disk
      but that parent and the mirror. */
  lemma MirrorStepTouches(env: Env, cfg: Config, h: Host, base: string, repoFullName: string, destination: Path)
    requires Miss(env, cfg, h, repoFullName) || Hit(env, cfg, h, repoFullName)
    ensures var m := MirrorStep(env, cfg, h, base, repoFullName);
      var cachePath := CachePath(cfg.cacheDir, repoFullName);
      && (forall e :: e in m.events ==>
            e != Run(LocalClone(cachePath, destination)) && !e.SetUser? && (e.MakeDir? ==> e.path == Dir(cachePath)))
      && m.host.fs <= h.fs + {Dir(cachePath), cachePath}
  {
    var m := MirrorStep(env, cfg, h, base, repoFullName);
    var remote, cachePath := Remote(base, repoFullName), CachePath(cfg.cacheDir, repoFullName);
    MirrorStepEvents(env, cfg, h, base, repoFullName);
    InvocationsDistinct(remote, cachePath, destination, "");
    forall e | e in m.events
      ensures e != Run(LocalClone(cachePath, destination)) && !e.SetUser? && (e.MakeDir? ==> e.path == Dir(cachePath))
    {
      assert e == Run(MirrorClone(remote, cachePath)) || e == Run(Fetch(cachePath)) || e == Pause || e == MakeDir(Dir(cachePath));
    }
  }

  /** When the mirror step fails its error is returned before the destination is
      made or cloned into: no local clone, no identity, no directory made but the
      mirror's parent, and nothing new on disk but that parent and whatever the
      failed clone left. */
  lemma CloneMirrorFailure(env: Env, cfg: Config, h: Host, base: string, repoFullName: string, destination: Path)
    requires Miss(env, cfg, h, repoFullName) || Hit(env, cfg, h, repoFullName)
    requires MirrorStep(env, cfg, h, base, repoFullName).result.Err?
    ensures var o := CloneOutcome(env, cfg, h, base, repoFullName, destination);
      var cachePath := CachePath(cfg.cacheDir, repoFullName);
      && o.result == Err(MirrorStep(env, cfg, h, base, repoFullName).result.error)
      && Run(LocalClone(cachePath, destination)) !in o.events
      && (forall e :: e in o.events ==> !e.SetUser? && (e.MakeDir? ==> e.path == Dir(cachePath)))
      && o.host.fs <= h.fs + {Dir(cachePath), cachePath}
  {
    var cachePath := CachePath(cfg.cacheDir, repoFullName);
    var events := CloneOutcome(env, cfg, h, base, repoFullName, destination).events;
    var m := MirrorStep(env, cfg, h, base, repoFullName);
    CloneSteps(env, cfg, h, base, repoFullName, destination);
    MirrorStepTouches(env, cfg, h, base, repoFullName, destination);
    assert events == [Stat(cachePath)] + m.events;
    forall e | e in events
      ensures e != Run(LocalClone(cachePath, destination)) && !e.SetUser? && (e.MakeDir? ==> e.path == Dir(cachePath))
    {
      NotInEither([Stat(cachePath)], m.events, e);
    }
  }

  /** An event that occurs once, as the second of a tail, with `a` and `b`
      nowhere in that tail, occurs once in the whole and is never followed
      by `a` or `b`. */
  lemma OnceInTail(head: seq<Event>, tail: seq<Event>, x: Event, a: Event, b: Event)
    requires x !in head && 2 <= |tail| && tail[0] != x && tail[1] == x && x !in tail[2..]
    requires a !in tail && b !in tail
    ensures multiset(head + tail)[x] == 1
    ensures forall i, j :: 0 <= i < j < |head + tail| && (head + tail)[i] == x ==>
      (head + tail)[j] != a && (head + tail)[j] != b
  {
    assert tail == [tail[0], x] + tail[2..];
    assert multiset(head + tail) == multiset(head) + multiset([tail[0], x]) + multiset(tail[2..]);
    forall i, j | 0 <= i < j < |head + tail| && (head + tail)[i] == x
      ensures (head + tail)[j] != a && (head + tail)[j] != b
    {
      assert i == |head| + 1;
      assert (head + tail)[j] == tail[j - |head|];
    }
  }

  /** The checkout's events hold no mirror clone and no fetch; the local clone
      is among them exactly when the destination was made, and then second and
      only once. */
  lemma CheckoutTail(env: Env, cfg: Config, h: Host, repoFullName: string, remote: string,
                     cachePath: Path, destination: Path)
    ensures var c := Checkout(env, cfg, h, repoFullName, remote, cachePath, destination).events;
      var local := Run(LocalClone(cachePath, destination));
      && Run(MirrorClone(remote, cachePath)) !in c && Run(Fetch(cachePath)) !in c
      && (MkdirAllOutcome(env, h, destination).result.Ok? ==>
            2 <= |c| && c[0] != local && c[1] == local && local !in c[2..])
      && (MkdirAllOutcome(env, h, destination).result.Err? ==> local !in c)
  {
    var c := Checkout(env, cfg, h, repoFullName, remote, cachePath, destination).events;
    InvocationsDistinct(remote, cachePath, destination, "");
    CheckoutEvents(env, cfg, h, repoFullName, remote, cachePath, destination);
    if MkdirAllOutcome(env, h, destination).result.Ok? {
      assert forall e :: e in c[2..] ==> e == SetUser(destination, cfg.username, cfg.email);
    }
  }

  /** The stat found a mirror or none, the mirror step succeeded and the
      destination could be made: the point where `Clone` runs its local clone. */
  predicate ReachesLocalClone(env: Env, cfg: Config, h: Host, base: string, repoFullName: string, destination: Path)
  {
    var m := MirrorStep(env, cfg, h, base, repoFullName);
    (Miss(env, cfg, h, repoFullName) || Hit(env, cfg, h, repoFullName))
    && m.result.Ok? && MkdirAllOutcome(env, m.host, destination).result.Ok?
  }

  /** The events of a `Clone` cut where the checkout starts: the local clone is
      never before the cut, the mirror clone and the fetch never after it, and
      when the local clone is reached it is the second event after the cut and
      comes only once. */
  lemma CloneEventsAtCheckout(env: Env, cfg: Config, h: Host, base: string, repoFullName: string, destination: Path)
    returns (head: seq<Event>, tail: seq<Event>)
    ensures var cachePath := CachePath(cfg.cacheDir, repoFullName);
      var local := Run(LocalClone(cachePath, destination));
      && CloneOutcome(env, cfg, h, base, repoFullName, destination).events == head + tail && local !in head
      && head == [Stat(cachePath)] + (if Miss(env, cfg, h, repoFullName) || Hit(env, cfg, h, repoFullName)
                                      then MirrorStep(env, cfg, h, base, repoFullName).events else [])
      && Run(MirrorClone(Remote(base, repoFullName), cachePath)) !in tail && Run(Fetch(cachePath)) !in tail
      && (ReachesLocalClone(env, cfg, h, base, repoFullName, destination) ==>
            2 <= |tail| && tail[0] != local && tail[1] == local && local !in tail[2..])
      && (!ReachesLocalClone(env, cfg, h, base, repoFullName, destination) ==> local !in tail)
  {
    var cachePath := CachePath(cfg.cacheDir, repoFullName);
    var remote := Remote(base, repoFullName);
    var local := Run(LocalClone(cachePath, destination));
    if Miss(env, cfg, h, repoFullName) || Hit(env, cfg, h, repoFullName) {
      var m := MirrorStep(env, cfg, h, base, repoFullName);
      CloneSteps(env, cfg, h, base, repoFullName, destination);
      MirrorStepTouches(env, cfg, h, base, repoFullName, destination);
      head := [Stat(cachePath)] + m.events;
      NotInEither([Stat(cachePath)], m.events, local);
      if m.result.Ok? {
        tail := Checkout(env, cfg, m.host, repoFullName, remote, cachePath, destination).events;
        CheckoutTail(env, cfg, m.host, repoFullName, remote, cachePath, destination);
      } else {
        tail := [];
      }
    } else {
      head, tail := [Stat(cachePath)], [];
      assert head == [Stat(cachePath)] + [];
    }
  }

  /** The local clone is issued at most once, exactly when the mirror step
      succeeded and the destination could be made, and only after every
      mirror-clone or fetch run. */
  lemma CloneLocalCloneOnce(env: Env, cfg: Config, h: Host, base: string, repoFullName: string, destination: Path)
    ensures var o := CloneOutcome(env, cfg, h, base, repoFullName, destination);
      var cachePath := CachePath(cfg.cacheDir, repoFullName);
      var local := Run(LocalClone(cachePath, destination));
      && multiset(o.events)[local] <= 1
      && (local in o.events <==> ReachesLocalClone(env, cfg, h, base, repoFullName, destination))
      && (forall i, j :: 0 <= i < j < |o.events| && o.events[i] == local ==>
            o.events[j] != Run(MirrorClone(Remote(base, repoFullName), cachePath)) && o.events[j] != Run(Fetch(cachePath)))
  {
    var cachePath := CachePath(cfg.cacheDir, repoFullName);
    var local := Run(LocalClone(cachePath, destination));
    var head, tail := CloneEventsAtCheckout(env, cfg, h, base, repoFullName, destination);
    if local in tail {
      OnceInTail(head, tail, local, Run(MirrorClone(Remote(base, repoFullName), cachePath)), Run(Fetch(cachePath)));
    } else {
      assert local !in head + tail;
    }
  }

  /** Inside the checkout: the identity is set exactly when the local clone
      succeeded and a user name or an email is configured, at the very end, and
      its failure turns the result into an error. */
  lemma CheckoutSetsUser(env: Env, cfg: Config, h: Host, repoFullName: string, remote: string,
                         cachePath: Path, destination: Path)
    ensures var c := Checkout(env, cfg, h, repoFullName, remote, cachePath, destination);
      var d := MkdirAllOutcome(env, h, destination);
      var cloned := d.result.Ok? && env.git(d.host.clock, LocalClone(cachePath, destination), 0).err.None?;
      var wanted := cfg.username != "" || cfg.email != "";
      && (SetUser(destination, cfg.username, cfg.email) in c.events <==> cloned && wanted)
      && (forall e :: e in c.events && e.SetUser? ==> e == c.events[|c.events| - 1])
      && (c.result.Ok? <==> cloned && (wanted ==> env.setUserFault(d.host.clock + 1,
            Repo(repoFullName, destination, cfg.gitPath, remote)).None?))
      && (c.result.Ok? ==> c.result.value == Repo(repoFullName, destination, cfg.gitPath, remote))
  {
  }

  /** The checkout removes nothing, and when it succeeds the destination exists,
      the local clone was its second event, and the handle is the one for the
      destination bound to the remote. */
  lemma CheckoutSuccess(env: Env, cfg: Config, h: Host, repoFullName: string, remote: string,
                        cachePath: Path, destination: Path)
    ensures var c := Checkout(env, cfg, h, repoFullName, remote, cachePath, destination);
      && h.fs <= c.host.fs
      && (c.result.Ok? ==>
            && c.result.value == Repo(repoFullName, destination, cfg.gitPath, remote)
            && destination in c.host.fs
            && 2 <= |c.events| && c.events[1] == Run(LocalClone(cachePath, destination)))
  {
  }

  /** A successful `Clone` hands back the handle for the destination bound to the
      remote, leaves the mirror and the destination in place, and never removes
      anything; the mirror exists afterwards even on a hit. */
  lemma CloneSuccess(env: Env, cfg: Config, h: Host, base: string, repoFullName: string, destination: Path)
    ensures var o := CloneOutcome(env, cfg, h, base, repoFullName, destination);
      && h.fs <= o.host.fs
      && (o.result.Ok? ==>
            && o.result.value == Repo(repoFullName, destination, cfg.gitPath, Remote(base, repoFullName))
            && CachePath(cfg.cacheDir, repoFullName) in o.host.fs
            && destination in o.host.fs
            && Run(LocalClone(CachePath(cfg.cacheDir, repoFullName), destination)) in o.events)
  {
    var cachePath := CachePath(cfg.cacheDir, repoFullName);
    if Miss(env, cfg, h, repoFullName) || Hit(env, cfg, h, repoFullName) {
      CloneSteps(env, cfg, h, base, repoFullName, destination);
      var m := MirrorStep(env, cfg, h, base, repoFullName);
      assert h.fs <= m.host.fs;
      if m.result.Ok? {
        var c := Checkout(env, cfg, m.host, repoFullName, Remote(base, repoFullName), cachePath, destination);
        CheckoutSuccess(env, cfg, m.host, repoFullName, Remote(base, repoFullName), cachePath, destination);
        if c.result.Ok? {
          assert cachePath in m.host.fs by {
            assert Hit(env, cfg, h, repoFullName) ==> cachePath in h.fs;
          }
          NotInEither([Stat(cachePath)] + m.events, c.events, Run(LocalClone(cachePath, destination)));
        }
      }
    }
  }

  /** Whenever the mirror exists and its stat does not fail, `Clone` fetches and
      does not mirror-clone, whatever the base. */
  lemma CloneOfExistingMirrorFetches(env: Env, cfg: Config, h: Host, base: string, repoFullName: string, destination: Path)
    requires CachePath(cfg.cacheDir, repoFullName) in h.fs
    requires env.statFault(h.clock, CachePath(cfg.cacheDir, repoFullName)).None?
    ensures var o := CloneOutcome(env, cfg, h, base, repoFullName, destination);
      var cachePath := CachePath(cfg.cacheDir, repoFullName);
      Run(Fetch(cachePath)) in o.events && Run(MirrorClone(Remote(base, repoFullName), cachePath)) !in o.events
  {
    CloneMirrorOrFetch(env, cfg, h, base, repoFullName, destination);
  }

  /** After a successful `Clone`, the next `Clone` of the same full name, even from
      another base and into another destination, fetches the shared mirror instead
      of cloning it again. */
  lemma SecondCloneFetches(env: Env, cfg: Config, h: Host, base1: string, base2: string,
                           repoFullName: string, destination1: Path, destination2: Path)
    requires CloneOutcome(env, cfg, h, base1, repoFullName, destination1).result.Ok?
    requires env.statFault(CloneOutcome(env, cfg, h, base1, repoFullName, destination1).host.clock,
                           CachePath(cfg.cacheDir, repoFullName)).None?
    ensures var first := CloneOutcome(env, cfg, h, base1, repoFullName, destination1);
      var second := CloneOutcome(env, cfg, first.host, base2, repoFullName, destination2);
      var cachePath := CachePath(cfg.cacheDir, repoFullName);
      Run(Fetch(cachePath)) in second.events && Run(MirrorClone(Remote(base2, repoFullName), cachePath)) !in second.events
  {
    var first := CloneOutcome(env, cfg, h, base1, repoFullName, destination1);
    CloneSuccess(env, cfg, h, base1, repoFullName, destination1);
    CloneOfExistingMirrorFetches(env, cfg, first.host, base2, repoFullName, destination2);
  }

  /** A known limitation of `Clone`: a failed first mirror clone that leaves its
      directory behind makes the next `Clone` fetch into it rather than clone
      again. */
  lemma LeftoverMirrorIsFetched(env: Env, cfg: Config, h: Host, base: string, repoFullName: string,
                                destination: Path, destination2: Path)
    requires Miss(env, cfg, h, repoFullName) && ParentReady(env, cfg, h, repoFullName)
    requires var p := MkdirAllOutcome(env, Tick(h), Dir(CachePath(cfg.cacheDir, repoFullName)));
      env.leftover(p.host.clock, MirrorClone(Remote(base, repoFullName), CachePath(cfg.cacheDir, repoFullName)))
    requires env.statFault(CloneOutcome(env, cfg, h, base, repoFullName, destination).host.clock,
                           CachePath(cfg.cacheDir, repoFullName)).None?
    ensures var first := CloneOutcome(env, cfg, h, base, repoFullName, destination);
      var second := CloneOutcome(env, cfg, first.host, base, repoFullName, destination2);
      CachePath(cfg.cacheDir, repoFullName) in first.host.fs
      && Run(Fetch(CachePath(cfg.cacheDir, repoFullName))) in second.events
  {
    var first := CloneOutcome(env, cfg, h, base, repoFullName, destination);
    var cachePath := CachePath(cfg.cacheDir, repoFullName);
    var m := MirrorStep(env, cfg, h, base, repoFullName);
    assert cachePath in m.host.fs;
    CloneSteps(env, cfg, h, base, repoFullName, destination);
    if m.result.Ok? {
      CheckoutSuccess(env, cfg, m.host, repoFullName, Remote(base, repoFullName), cachePath, destination);
    }
    CloneOfExistingMirrorFetches(env, cfg, first.host, base, repoFullName, destination2);
  }

  /** On a hit, two `Clone`s of one full name from different bases do exactly the
      same things to the same mirror: the cache entry is keyed by the full name
      alone. Their handles differ only in the remote they are bound to. */
  lemma CloneSharesCacheAcrossBases(env: Env, cfg: Config, h: Host, base1: string, base2: string,
                                    repoFullName: string, destination: Path)
    requires Hit(env, cfg, h, repoFullName)
    ensures var o1 := CloneOutcome(env, cfg, h, base1, repoFullName, destination);
      var o2 := CloneOutcome(env, cfg, h, base2, repoFullName, destination);
      && o1.events == o2.events && o1.host == o2.host
      && (o1.result.Ok? ==> o1.result.value.remote == Remote(base1, repoFullName))
      && (o1.result.Ok? && o2.result.Ok? ==>
            o2.result.value == o1.result.value.(remote := Remote(base2, repoFullName)))
  {
  }

  /** A successful `Clean` removes every mirror and the directories holding them. */
  lemma CleanForgetsMirrors(env: Env, cfg: Config, h: Host, repoFullName: string)
    requires RemoveAllOutcome(env, h, cfg.cacheDir).result.Ok?
    ensures var fs := RemoveAllOutcome(env, h, cfg.cacheDir).host.fs;
      CachePath(cfg.cacheDir, repoFullName) !in fs && Dir(CachePath(cfg.cacheDir, repoFullName)) !in fs
  {
    CachePathWithin(cfg.cacheDir, repoFullName);
  }

  /** After a successful `Clean`, a `Clone` of a previously cached full name is a
      miss again: it never fetches, and it mirror-clones afresh once the parent
      directory can be made. */
  lemma CleanThenCloneMirrors(env: Env, cfg: Config, h: Host, base: string, repoFullName: string, destination: Path)
    requires RemoveAllOutcome(env, h, cfg.cacheDir).result.Ok?
    requires var h2 := RemoveAllOutcome(env, h, cfg.cacheDir).host;
      env.statFault(h2.clock, CachePath(cfg.cacheDir, repoFullName)).None?
    ensures var h2 := RemoveAllOutcome(env, h, cfg.cacheDir).host;
      var o := CloneOutcome(env, cfg, h2, base, repoFullName, destination);
      var cachePath := CachePath(cfg.cacheDir, repoFullName);
      && Miss(env, cfg, h2, repoFullName)
      && Run(Fetch(cachePath)) !in o.events
      && (ParentReady(env, cfg, h2, repoFullName) ==> Run(MirrorClone(Remote(base, repoFullName), cachePath)) in o.events)
  {
    var h2 := RemoveAllOutcome(env, h, cfg.cacheDir).host;
    CleanForgetsMirrors(env, cfg, h, repoFullName);
    CloneMirrorOrFetch(env, cfg, h2, base, repoFullName, destination);
  }

  /** `GetLatestRemoteHashForBranch` issues only `ls-remote refs/heads/<branch>` in
      the process's directory, one to `Retries` times, whatever the remote; it
      returns the hash read from the successful attempt's output, or the last
      attempt's error, unwrapped, once every attempt failed. */
  lemma RemoteHashOutcomeShape(env: Env, h: Host, remote: string, branch: string)
    ensures var o := RemoteHashOutcome(env, h, remote, branch);
      var a := Retried(env, h, LsRemote(branch));
      var attempts := multiset(o.events)[Run(LsRemote(branch))];
      && (forall e :: e in o.events ==> e == Run(LsRemote(branch)) || e == Pause)
      && 1 <= attempts <= Retries
      && (o.result.Ok? ==> o.result.value == HashOf(env.git(h.clock, LsRemote(branch), attempts - 1).out)
                           && env.git(h.clock, LsRemote(branch), attempts - 1).err.None?)
      && (o.result.Err? ==> attempts == Retries
                            && Some(o.result.error) == env.git(h.clock, LsRemote(branch), Retries - 1).err)
      && o.host.fs == h.fs
      && (forall other :: RemoteHashOutcome(env, h, other, branch) == o)
  {
    var a := Retried(env, h, LsRemote(branch));
    RetryCounts(Retries, Commander(env, h.clock, LsRemote(branch)));
    IssuedEvents(LsRemote(branch), a.steps);
  }
}
