/** `retryCommand`: run a fallible command up to `retries` times, sleeping a fixed
    interval after every failed attempt, and hand back the last result.

    The command is modelled as a script: `commander(i)` is what attempt `i`
    (counting from 0) returns. The sleeps and calls the loop makes are recorded
    as a trace of `Step`s, so that attempt and sleep counts can be stated. */
module CommandRetry {
  import opened Errors

  /** One run of a command: its combined output and, when it failed, its error. */
  datatype Reply = Reply(out: string, err: Option<Error>)

  /** The zero values of the named results `out` and `err`: what a retry with no
      attempt at all returns. */
  const NoReply := Reply("", None)

  /** An entry of the retry trace: attempt `attempt` was made, or the sleep that
      followed it. */
  datatype Step = Call(attempt: nat) | Sleep(attempt: nat)

  /** The result of a retry together with its trace. */
  datatype Attempted = Attempted(reply: Reply, steps: seq<Step>)

  /** The loop from attempt `i` on, where `last` is what the previous attempt
      returned (or `NoReply` before the first). */
  function RetryFrom(retries: int, commander: nat -> Reply, i: nat, last: Reply): Attempted
    decreases retries - i
  {
    if retries <= i then Attempted(last, [])
    else
      var r := commander(i);
      if r.err.None? then Attempted(r, [Call(i)])
      else
        var rest := RetryFrom(retries, commander, i + 1, r);
        Attempted(rest.reply, [Call(i), Sleep(i)] + rest.steps)
  }

  /** What `retryCommand(retries, _, _, commander)` returns, and the steps it takes. */
  function Retry(retries: int, commander: nat -> Reply): Attempted
  {
    RetryFrom(retries, commander, 0, NoReply)
  }

  /** Attempts `lo` .. `hi - 1`, each failing: the call and then its sleep. */
  function Failures(lo: nat, hi: nat): seq<Step>
    decreases hi - lo
  {
    if hi <= lo then [] else [Call(lo), Sleep(lo)] + Failures(lo + 1, hi)
  }

  /** The number of attempts in a trace. */
  function Calls(steps: seq<Step>): nat
  {
    if steps == [] then 0 else (if steps[0].Call? then 1 else 0) + Calls(steps[1..])
  }

  /** The number of sleeps in a trace. */
  function Sleeps(steps: seq<Step>): nat
  {
    if steps == [] then 0 else (if steps[0].Sleep? then 1 else 0) + Sleeps(steps[1..])
  }

  /** The loop of `retryCommand`, with the named results `out` and `err`. */
  method RetryCommand(retries: int, commander: nat -> Reply)
    returns (out: string, err: Option<Error>, steps: seq<Step>)
    ensures Attempted(Reply(out, err), steps) == Retry(retries, commander)
  {
    out, err := "", None;
    steps := [];
    var i: nat := 0;
    while i < retries
      invariant var rest := RetryFrom(retries, commander, i, Reply(out, err));
        Retry(retries, commander) == Attempted(rest.reply, steps + rest.steps)
      decreases retries - i
    {
      out, err := commander(i).out, commander(i).err;
      if err.None? {
        steps := steps + [Call(i)];
        return;
      }
      steps := steps + [Call(i), Sleep(i)];
      i := i + 1;
    }
  }

  lemma {:induction false} CallsAppend(a: seq<Step>, b: seq<Step>)
    ensures Calls(a + b) == Calls(a) + Calls(b)
    ensures Sleeps(a + b) == Sleeps(a) + Sleeps(b)
  {
    if a != [] {
      assert (a + b)[1..] == a[1..] + b;
      CallsAppend(a[1..], b);
    } else {
      assert a + b == b;
    }
  }

  /** A run of failures holds one call and one sleep per attempt, each sleep
      right after the call it follows. */
  lemma {:induction false} FailuresShape(lo: nat, hi: nat)
    requires lo <= hi
    ensures |Failures(lo, hi)| == 2 * (hi - lo)
    ensures Calls(Failures(lo, hi)) == hi - lo && Sleeps(Failures(lo, hi)) == hi - lo
    ensures forall k :: 0 <= k < hi - lo ==>
      (Failures(lo, hi)[2 * k] == Call(lo + k) && Failures(lo, hi)[2 * k + 1] == Sleep(lo + k))
    decreases hi - lo
  {
    if lo < hi {
      FailuresShape(lo + 1, hi);
      var f := Failures(lo, hi);
      var g := Failures(lo + 1, hi);
      assert f == [Call(lo), Sleep(lo)] + g;
      assert Calls(f) == 1 + Calls(f[1..]) && f[1..] == [Sleep(lo)] + g;
      assert Sleeps(f) == Sleeps(f[1..]) && Sleeps(f[1..]) == 1 + Sleeps(g) by {
        assert f[1..][1..] == g;
      }
      assert Calls(f[1..]) == Calls(g) by { assert f[1..][1..] == g; }
      forall k | 0 <= k < hi - lo
        ensures f[2 * k] == Call(lo + k) && f[2 * k + 1] == Sleep(lo + k)
      {
        if k > 0 {
          assert f[2 * k] == g[2 * (k - 1)];
          assert f[2 * k + 1] == g[2 * (k - 1) + 1];
        }
      }
    }
  }

  /** With `retries <= 0` the commander is never called, nothing sleeps, and the
      result is the zero output with no error. */
  lemma RetryNonPositive(retries: int, commander: nat -> Reply)
    requires retries <= 0
    ensures Retry(retries, commander) == Attempted(NoReply, [])
  {
  }

  lemma {:induction false} RetryFromFirstSuccess(retries: int, commander: nat -> Reply, i: nat, j: nat, last: Reply)
    requires i <= j < retries
    requires commander(j).err.None?
    requires forall k :: i <= k < j ==> commander(k).err.Some?
    ensures RetryFrom(retries, commander, i, last) == Attempted(commander(j), Failures(i, j) + [Call(j)])
    decreases j - i
  {
    if i < j {
      RetryFromFirstSuccess(retries, commander, i + 1, j, commander(i));
    }
  }

  /** The loop stops at the first attempt that succeeds and returns exactly that
      attempt's output, with no error; every earlier attempt was followed by
      one sleep, the successful one by none. */
  lemma RetryStopsAtFirstSuccess(retries: int, commander: nat -> Reply, j: nat)
    requires j < retries
    requires commander(j).err.None?
    requires forall k :: 0 <= k < j ==> commander(k).err.Some?
    ensures Retry(retries, commander) == Attempted(commander(j), Failures(0, j) + [Call(j)])
    ensures Calls(Retry(retries, commander).steps) == j + 1
    ensures Sleeps(Retry(retries, commander).steps) == j
  {
    RetryFromFirstSuccess(retries, commander, 0, j, NoReply);
    FailuresShape(0, j);
    CallsAppend(Failures(0, j), [Call(j)]);
    assert Calls([Call(j)]) == 1 && Sleeps([Call(j)]) == 0 by {
      assert [Call(j)][1..] == [];
    }
  }

  lemma {:induction false} RetryFromAllFail(retries: int, commander: nat -> Reply, i: nat, last: Reply)
    requires i < retries
    requires forall k :: i <= k < retries ==> commander(k).err.Some?
    ensures RetryFrom(retries, commander, i, last) == Attempted(commander(retries - 1), Failures(i, retries))
    decreases retries - i
  {
    if i + 1 < retries {
      RetryFromAllFail(retries, commander, i + 1, commander(i));
    }
  }

  /** When every attempt fails, the result is the last attempt's output and
      error, the commander was called `retries` times, and each of those calls,
      the final one included, was followed by a sleep. */
  lemma RetryAllFail(retries: int, commander: nat -> Reply)
    requires 0 < retries
    requires forall k :: 0 <= k < retries ==> commander(k).err.Some?
    ensures Retry(retries, commander) == Attempted(commander(retries - 1), Failures(0, retries))
    ensures Calls(Retry(retries, commander).steps) == retries
    ensures Sleeps(Retry(retries, commander).steps) == retries
  {
    RetryFromAllFail(retries, commander, 0, NoReply);
    FailuresShape(0, retries);
  }

  lemma {:induction false} RetryFromCounts(retries: int, commander: nat -> Reply, i: nat, last: Reply)
    ensures var a := RetryFrom(retries, commander, i, last);
      && (i < retries ==> 0 < Calls(a.steps) <= retries - i)
      && (retries <= i ==> a == Attempted(last, []))
      && (a.reply.err.Some? && i < retries ==> Calls(a.steps) == retries - i && Sleeps(a.steps) == Calls(a.steps))
      && (a.reply.err.None? && i < retries ==> Sleeps(a.steps) + 1 == Calls(a.steps))
      && (i < retries ==> a.reply == commander(i + Calls(a.steps) - 1))
    decreases retries - i
  {
    if i < retries {
      var r := commander(i);
      if r.err.None? {
        assert [Call(i)][1..] == [];
      } else {
        var rest := RetryFrom(retries, commander, i + 1, r);
        RetryFromCounts(retries, commander, i + 1, r);
        CallsAppend([Call(i), Sleep(i)], rest.steps);
        assert Calls([Call(i), Sleep(i)]) == 1 && Sleeps([Call(i), Sleep(i)]) == 1 by {
          assert [Call(i), Sleep(i)][1..] == [Sleep(i)];
          assert [Sleep(i)][1..] == [];
        }
      }
    }
  }

  /** Whatever the commander does: it is called at most `retries` times (at least
      once when `retries` is positive); the result is the reply of the last
      call; a failed result means every attempt was used and slept after; a
      successful one means one sleep fewer than calls. */
  lemma RetryCounts(retries: int, commander: nat -> Reply)
    ensures var a := Retry(retries, commander);
      && (0 < retries ==> 0 < Calls(a.steps) <= retries && a.reply == commander(Calls(a.steps) - 1))
      && (retries <= 0 ==> a == Attempted(NoReply, []))
      && (a.reply.err.Some? ==> Calls(a.steps) == retries && Sleeps(a.steps) == retries)
      && (a.reply.err.None? && 0 < retries ==> Sleeps(a.steps) == Calls(a.steps) - 1)
  {
    RetryFromCounts(retries, commander, 0, NoReply);
  }

  /** A command that fails twice and then succeeds under three
      retries: the third reply is returned after exactly two sleeps. */
  lemma RetryTwoFailuresThenSuccess(commander: nat -> Reply)
    requires commander(0).err.Some? && commander(1).err.Some? && commander(2).err.None?
    ensures Retry(3, commander).reply == commander(2)
    ensures Calls(Retry(3, commander).steps) == 3 && Sleeps(Retry(3, commander).steps) == 2
    ensures Retry(3, commander).steps == [Call(0), Sleep(0), Call(1), Sleep(1), Call(2)]
  {
    RetryStopsAtFirstSuccess(3, commander, 2);
    FailuresShape(0, 2);
  }
}
