/**
 * The worker's job semantics as pure functions: the state the loop keeps between jobs
 * (`bot`, `creds` and two counters of library calls), the effect of one job on that
 * state, and a run over a queue of jobs handled one at a time in order.
 */
module Lifecycle {
  import opened Wrappers
  import opened Jobs
  import opened Automator

  /**
   * The worker's state between jobs: the optional live session, the credentials it last
   * built with, how many sessions were built and how many were closed.
   */
  datatype State = State(bot: Option<Session>, creds: Option<Creds>, constructs: nat, closes: nat)

  /** The state the worker starts in: no session, no credentials. */
  const Initial := State(None, None, 0, 0)

  /**
   * Builds minus closes is 1 when a session is live and 0 when none is; the live session
   * is the most recent build.
   */
  predicate Balanced(s: State)
  {
    && s.constructs == s.closes + (if s.bot.Some? then 1 else 0)
    && (s.bot.Some? ==> s.bot.value.serial == s.constructs)
  }

  /** The effect of one job: the next state, the library calls made, and the outcome for its future. */
  datatype Transition = Transition(next: State, calls: seq<Call>, response: Option<Outcome>)

  /**
   * Step 2 of a generate job: a string payload goes to `process_prompt` with mode
   * "single", anything else to `process_chain` with mode "chain".
   */
  function Process(bot: Session, payload: Payload, lib: Behaviour): (r: (Call, Outcome))
    ensures r.0.IsProcess() && r.0.on == bot
    ensures r.0.ProcessPrompt? <==> payload.Text?
    ensures r.0.ProcessPrompt? ==> r.0.prompt == payload.prompt
    ensures r.0.ProcessChain? ==> r.0.prompts == payload
    ensures r.1.Returned? ==> r.1.value.Generated? && r.1.value.status == SUCCESS && r.1.value.mode == (if payload.Text? then SINGLE else CHAIN)
    ensures r.1.Raised? <==> (if payload.Text? then lib.prompt.Err? else lib.chain.Err?)
    // the record carries exactly what the library returned, and a failure is the library's own error
    ensures payload.Text? && lib.prompt.Ok? ==> r.1 == Success(SINGLE, Answer(lib.prompt.value))
    ensures payload.Text? && lib.prompt.Err? ==> r.1 == Raised(lib.prompt.error)
    ensures !payload.Text? && lib.chain.Ok? ==> r.1 == Success(CHAIN, Answers(lib.chain.value))
    ensures !payload.Text? && lib.chain.Err? ==> r.1 == Raised(lib.chain.error)
  {
    if payload.Text? then
      var outcome := match lib.prompt
        case Ok(text) => Success(SINGLE, Answer(text))
        case Err(e) => Raised(e);
      (ProcessPrompt(bot, payload.prompt), outcome)
    else
      var outcome := match lib.chain
        case Ok(texts) => Success(CHAIN, Answers(texts))
        case Err(e) => Raised(e);
      (ProcessChain(bot, payload), outcome)
  }

  /**
   * A generate job: build a session lazily when none is live, then process the payload.
   * A failure is reported on the future and leaves the session as it is.
   */
  function Generate(s: State, payload: Payload, creds: Option<Creds>, lib: Behaviour): (t: Transition)
    ensures Balanced(s) ==> Balanced(t.next)
    ensures t.response.Some?
    ensures t.next.closes == s.closes
    ensures 1 <= |t.calls| <= 2 && (|t.calls| == 2 ==> t.calls[0].Construct?)
    // a live session is reused as it is, whatever credentials this job carries
    ensures s.bot.Some? ==> t.next == s && |t.calls| == 1
    // with no live session, exactly one construction is attempted, with this job's credentials
    ensures s.bot.None? ==> t.next.creds == creds && t.calls[0] == Construct(creds)
    ensures s.bot.None? ==> (t.next.bot.Some? <==> lib.construct.None?)
    ensures t.next.constructs == s.constructs + (if s.bot.None? && lib.construct.None? then 1 else 0)
    // the last call processes the payload exactly when a session is available, on that
    // session, through the one operation the payload's type selects
    ensures t.calls[|t.calls| - 1].IsProcess() <==> t.next.bot.Some?
    ensures t.calls[|t.calls| - 1].IsProcess() ==>
      t.calls[|t.calls| - 1].on == t.next.bot.value && (t.calls[|t.calls| - 1].ProcessPrompt? <==> payload.Text?)
    // a successful record carries the mode chosen by the payload's type
    ensures t.response.value.Returned? ==>
      t.response.value.value.Generated? && t.response.value.value.status == SUCCESS &&
      t.response.value.value.mode == (if payload.Text? then SINGLE else CHAIN)
    // a failure comes from the constructor or from the processing call
    ensures t.response.value.Raised? <==>
      (s.bot.None? && lib.construct.Some?) || (if payload.Text? then lib.prompt.Err? else lib.chain.Err?)
    // without a session the caller gets the constructor's own error; with one, the caller
    // gets exactly what processing the payload on that session gives
    ensures t.next.bot.None? ==> lib.construct.Some? && t.response == Some(Raised(lib.construct.value))
    // a failed construction is the only call the job makes
    ensures t.next.bot.None? ==> t.calls == [Construct(creds)]
    // a session built by this job carries this job's credentials and the new build's number
    ensures s.bot.None? && t.next.bot.Some? ==> t.next.bot.value == Session(t.next.constructs, creds)
    ensures t.next.bot.Some? ==>
      var (call, outcome) := Process(t.next.bot.value, payload, lib);
      t.calls[|t.calls| - 1] == call && t.response == Some(outcome)
  {
    if s.bot.None? && lib.construct.Some? then
      // `creds` is stored before the constructor raises
      Transition(s.(creds := creds), [Construct(creds)], Some(Raised(lib.construct.value)))
    else
      var built := s.bot.None?;
      var bot := if built then Session(s.constructs + 1, creds) else s.bot.value;
      var next := if built then s.(bot := Some(bot), creds := creds, constructs := s.constructs + 1) else s;
      var (call, outcome) := Process(bot, payload, lib);
      Transition(next, (if built then [Construct(creds)] else []) + [call], Some(outcome))
  }

  /**
   * A reset job: close a live session, ignoring any error from `close`, always drop it,
   * and report `True`.
   */
  function ResetSession(s: State, lib: Behaviour): (t: Transition)
    ensures Balanced(s) ==> Balanced(t.next)
    ensures t.next.bot.None?
    ensures t.response == Some(Returned(Acknowledged(true)))
    ensures t.next.constructs == s.constructs && t.next.creds == s.creds
    // close is called at most once, and only on the live session
    ensures |t.calls| <= 1 && (|t.calls| == 1 <==> s.bot.Some?)
    ensures |t.calls| == 1 ==> t.calls[0] == Close(s.bot.value)
    ensures t.next.closes == s.closes + |t.calls|
  {
    if s.bot.Some? then
      // whether `close()` returns or raises (lib.close), the session is dropped in `finally`
      Transition(s.(bot := None, closes := s.closes + 1), [Close(s.bot.value)], Some(Returned(Acknowledged(true))))
    else
      Transition(s, [], Some(Returned(Acknowledged(true))))
  }

  /** One pass of the worker loop over one job, dispatched on its `type`. */
  function HandleJob(s: State, r: Request, lib: Behaviour): (t: Transition)
    ensures Balanced(s) ==> Balanced(t.next)
    ensures t.next.constructs >= s.constructs && t.next.closes >= s.closes
    // builds happen only for generate jobs when no session is live
    ensures t.next.constructs > s.constructs ==> r.kind == GENERATE && s.bot.None?
    // closes happen only for reset jobs when a session is live
    ensures t.next.closes > s.closes ==> r.kind == RESET && s.bot.Some?
    ensures t.response.Some? <==> r.kind == GENERATE || r.kind == RESET
    // a job of any other type changes nothing and calls nothing
    ensures r.kind != GENERATE && r.kind != RESET ==> t == Transition(s, [], None)
  {
    if r.kind == GENERATE then Generate(s, r.payload, r.creds, lib)
    else if r.kind == RESET then ResetSession(s, lib)
    else Transition(s, [], None)
  }

  /** The record of a run: the final state, every library call in order, one response per job. */
  datatype Trace = Trace(final: State, calls: seq<Call>, responses: seq<Option<Outcome>>)

  /** Handling one more job after a run. */
  function Extend(tr: Trace, r: Request, lib: Behaviour): (tr': Trace)
    ensures |tr'.responses| == |tr.responses| + 1 && tr'.responses[..|tr.responses|] == tr.responses
    ensures |tr'.calls| >= |tr.calls| && tr'.calls[..|tr.calls|] == tr.calls
  {
    var t := HandleJob(tr.final, r, lib);
    Trace(t.next, tr.calls + t.calls, tr.responses + [t.response])
  }

  /**
   * The worker loop over a queue of jobs, each handled to completion before the next,
   * with `libs[i]` choosing how the library behaves during job i.
   */
  function Run(s: State, rs: seq<Request>, libs: seq<Behaviour>): (tr: Trace)
    requires |rs| == |libs|
    ensures |tr.responses| == |rs|
    ensures Balanced(s) ==> Balanced(tr.final)
    ensures tr.final.constructs >= s.constructs && tr.final.closes >= s.closes
    decreases |rs|
  {
    if rs == [] then Trace(s, [], [])
    else
      var t := HandleJob(s, rs[0], libs[0]);
      var rest := Run(t.next, rs[1..], libs[1..]);
      Trace(rest.final, t.calls + rest.calls, [t.response] + rest.responses)
  }
}
