/**
 * The session manager's worker: a loop that owns one optional automation session and
 * handles the jobs of a FIFO queue one at a time, writing each outcome into the job's
 * future unless that future was cancelled.
 */
module SessionManager {
  import opened Wrappers
  import opened Jobs
  import opened Automator
  import opened Lifecycle
  import Properties

  /**
   * A thread-side future: a one-shot cell that the worker completes and that a waiting
   * caller may cancel.
   */
  class Future {
    var cancelled: bool
    var outcome: Option<Outcome>
    /** The number of the submission that created this future; it tells futures apart. */
    ghost const ticket: nat

    constructor (ghost ticket: nat)
      ensures !cancelled && outcome.None? && this.ticket == ticket
    {
      cancelled := false;
      outcome := None;
      this.ticket := ticket;
    }

    predicate Done()
      reads this
    {
      cancelled || outcome.Some?
    }

    /** Cancelling succeeds unless the future already holds an outcome. */
    method Cancel() returns (ok: bool)
      modifies this
      ensures ok == old(outcome).None?
      ensures cancelled == (old(cancelled) || ok) && outcome == old(outcome)
    {
      ok := outcome.None?;
      if ok {
        cancelled := true;
      }
    }

    /** `set_result` or `set_exception` on a future that is neither cancelled nor completed. */
    method Complete(o: Outcome)
      requires !Done()
      modifies this
      ensures outcome == Some(o) && !cancelled
    {
      outcome := Some(o);
    }

    /** The worker's guarded write: complete a pending future unless it was cancelled. */
    method Deliver(o: Outcome)
      requires outcome.None?
      modifies this
      ensures cancelled == old(cancelled)
      ensures outcome == if cancelled then None else Some(o)
    {
      if !cancelled {
        Complete(o);
      }
    }
  }

  /** A queued job dictionary: `type`, `payload`, `creds` (absent on reset jobs) and `future`. */
  datatype Job = Job(kind: string, payload: Payload, creds: Option<Creds>, future: Future)
  {
    function AsRequest(): Request
    {
      Request(kind, payload, creds)
    }
  }

  /** The requests a queue of jobs carries, in queue order. */
  function Requests(jobs: seq<Job>): (rs: seq<Request>)
    ensures |rs| == |jobs| && forall i :: 0 <= i < |jobs| ==> rs[i] == jobs[i].AsRequest()
  {
    seq(|jobs|, i requires 0 <= i < |jobs| => jobs[i].AsRequest())
  }

  class Worker {
    var bot: Option<Session>
    var creds: Option<Creds>
    var constructs: nat
    var closes: nat
    var queue: seq<Job>
    /** The queue's count of jobs put but not yet marked done with `task_done`. */
    var unfinished: nat
    /** How many jobs were ever submitted; the queued jobs hold the last tickets issued. */
    ghost var issued: nat

    /** The loop's own state, as the job semantics describe it. */
    function Snapshot(): State
      reads this
    {
      State(bot, creds, constructs, closes)
    }

    ghost function Futures(): set<Future>
      reads this
    {
      set i | 0 <= i < |queue| :: queue[i].future
    }

    /** The futures the next step may write: the head job's. */
    ghost function Head(): set<Future>
      reads this
    {
      if queue == [] then {} else {queue[0].future}
    }

    /**
     * The worker's invariant: builds and closes balance the live session, every queued
     * job is unfinished, and every queued job has its own future, not yet completed.
     * Futures are told apart by their tickets, which the queue holds in submission order.
     */
    ghost predicate Valid()
      reads this, Futures()
    {
      && Balanced(Snapshot())
      && unfinished == |queue| <= issued
      && (forall i :: 0 <= i < |queue| ==> queue[i].future.ticket == issued - |queue| + i)
      && (forall i :: 0 <= i < |queue| ==> queue[i].future.outcome.None?)
    }

    /** A new worker: no session yet, an empty queue. */
    constructor ()
      ensures Valid() && Snapshot() == Initial && queue == []
    {
      bot := None;
      creds := None;
      constructs := 0;
      closes := 0;
      queue := [];
      unfinished := 0;
      issued := 0;
    }

    /** `generate`: put a generate job with a fresh future on the queue. */
    method SubmitGenerate(payload: Payload, jobCreds: Option<Creds>) returns (f: Future)
      requires Valid()
      modifies this
      ensures Valid() && fresh(f) && !f.cancelled && f.outcome.None?
      ensures queue == old(queue) + [Job(GENERATE, payload, jobCreds, f)]
      ensures Snapshot() == old(Snapshot())
    {
      f := new Future(issued);
      queue := queue + [Job(GENERATE, payload, jobCreds, f)];
      unfinished := unfinished + 1;
      issued := issued + 1;
    }

    /** `reset`: put a reset job, with no payload and no credentials, and a fresh future on the queue. */
    method SubmitReset() returns (f: Future)
      requires Valid()
      modifies this
      ensures Valid() && fresh(f) && !f.cancelled && f.outcome.None?
      ensures queue == old(queue) + [Job(RESET, Nothing, None, f)]
      ensures Snapshot() == old(Snapshot())
    {
      f := new Future(issued);
      queue := queue + [Job(RESET, Nothing, None, f)];
      unfinished := unfinished + 1;
      issued := issued + 1;
    }

    /**
     * The generate branch: build a session with the job's credentials if none is live,
     * then hand the payload to `process_prompt` or `process_chain`.
     */
    method GenerateJob(payload: Payload, jobCreds: Option<Creds>, lib: Behaviour) returns (outcome: Outcome, calls: seq<Call>)
      modifies this`bot, this`creds, this`constructs
      ensures var t := Generate(old(Snapshot()), payload, jobCreds, lib);
        Snapshot() == t.next && calls == t.calls && t.response == Some(outcome)
    {
      calls := [];
      var raised: Option<Error> := None;
      if bot.None? {
        creds := jobCreds;
        calls := calls + [Construct(creds)];
        if lib.construct.Some? {
          raised := lib.construct;
        } else {
          constructs := constructs + 1;
          bot := Some(Session(constructs, creds));
        }
      }
      if raised.Some? {
        outcome := Raised(raised.value);
      } else if payload.Text? {
        calls := calls + [ProcessPrompt(bot.value, payload.prompt)];
        outcome := match lib.prompt
          case Ok(text) => Success(SINGLE, Answer(text))
          case Err(e) => Raised(e);
      } else {
        calls := calls + [ProcessChain(bot.value, payload)];
        outcome := match lib.chain
          case Ok(texts) => Success(CHAIN, Answers(texts))
          case Err(e) => Raised(e);
      }
    }

    /** The reset branch: close a live session, ignoring whether `close` raises, and drop it. */
    method ResetJob(lib: Behaviour) returns (calls: seq<Call>)
      modifies this`bot, this`closes
      ensures var t := ResetSession(old(Snapshot()), lib);
        Snapshot() == t.next && calls == t.calls
    {
      calls := [];
      if bot.Some? {
        calls := calls + [Close(bot.value)];
        // an error `close()` raises (lib.close) is only logged; in `finally` the attempt
        // counts and the session is dropped either way
        closes := closes + 1;
        bot := None;
      }
    }

    /**
     * One pass of the worker loop. With an empty queue the loop would block, and nothing
     * happens. Otherwise the head job is taken, handled as `HandleJob` says, its outcome is
     * written to its future unless the future was cancelled, and it is marked done.
     */
    method Step(lib: Behaviour) returns (handled: bool, calls: seq<Call>)
      requires Valid()
      modifies this, Head()
      ensures Valid()
      ensures handled == (old(queue) != [])
      ensures !handled ==> Snapshot() == old(Snapshot()) && queue == old(queue) && calls == []
      ensures handled ==>
        var job := old(queue[0]);
        var t := HandleJob(old(Snapshot()), job.AsRequest(), lib);
        && queue == old(queue[1..])
        && Snapshot() == t.next
        && calls == t.calls
        && job.future.cancelled == old(job.future.cancelled)
        && job.future.outcome == (if old(job.future.cancelled) then None else t.response)
    {
      calls := [];
      if queue == [] {
        handled := false;
        return;
      }
      handled := true;
      var job := queue[0];
      queue := queue[1..];
      if job.kind == GENERATE {
        var outcome;
        outcome, calls := GenerateJob(job.payload, job.creds, lib);
        job.future.Deliver(outcome);
      } else if job.kind == RESET {
        calls := ResetJob(lib);
        job.future.Deliver(Returned(Acknowledged(true)));
      }
      unfinished := unfinished - 1;
    }

    /**
     * The worker loop over the first jobs of the queue, `libs[i]` choosing how the library
     * behaves during the i-th. It stops when the queue is empty, where the real loop would
     * block, or when `libs` runs out. What reaches each job's future is stated per job by
     * `Step`.
     */
    method WorkerLoop(libs: seq<Behaviour>) returns (n: nat, calls: seq<Call>)
      requires Valid()
      modifies this, Futures()
      ensures Valid()
      ensures n == if |libs| < |old(queue)| then |libs| else |old(queue)|
      ensures queue == old(queue)[n..]
      ensures var tr := Run(old(Snapshot()), Requests(old(queue))[..n], libs[..n]);
        Snapshot() == tr.final && calls == tr.calls
    {
      ghost var q0 := queue;
      ghost var s0 := Snapshot();
      n := if |libs| < |queue| then |libs| else |queue|;
      ghost var rs := Requests(q0)[..n];
      ghost var ls := libs[..n];
      var k := 0;
      calls := [];
      assert rs[..0] == [] && ls[..0] == [];
      while k < n
        invariant 0 <= k <= n
        invariant Valid()
        invariant queue == q0[k..]
        invariant Snapshot() == Run(s0, rs[..k], ls[..k]).final
        invariant calls == Run(s0, rs[..k], ls[..k]).calls
      {
        assert q0[k].future in old(Futures());
        assert rs[k] == q0[k].AsRequest() && ls[k] == libs[k];
        var handled, stepCalls := Step(libs[k]);
        Properties.RunPrefixStep(s0, rs, ls, k);
        calls := calls + stepCalls;
        k := k + 1;
      }
      assert rs[..n] == rs && ls[..n] == ls;
    }
  }
}
