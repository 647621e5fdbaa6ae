/**
 * Properties of the worker's job semantics over single jobs and over whole runs of the
 * loop, and small concrete scenarios.
 */
module Properties {
  import opened Wrappers
  import opened Jobs
  import opened Automator
  import opened Lifecycle

  predicate AllGenerate(rs: seq<Request>)
  {
    forall i :: 0 <= i < |rs| ==> rs[i].kind == GENERATE
  }

  /** Jobs are handled strictly in queue order: a run followed by one more job is the run of the longer queue. */
  lemma {:induction false} RunSnoc(s: State, rs: seq<Request>, libs: seq<Behaviour>, r: Request, lib: Behaviour)
    requires |rs| == |libs|
    ensures Run(s, rs + [r], libs + [lib]) == Extend(Run(s, rs, libs), r, lib)
    decreases |rs|
  {
    if rs == [] {
      assert rs + [r] == [r] && libs + [lib] == [lib];
    } else {
      var t := HandleJob(s, rs[0], libs[0]);
      var rest := Run(t.next, rs[1..], libs[1..]);
      var last := HandleJob(rest.final, r, lib);
      assert (rs + [r])[0] == rs[0] && (libs + [lib])[0] == libs[0];
      assert (rs + [r])[1..] == rs[1..] + [r];
      assert (libs + [lib])[1..] == libs[1..] + [lib];
      RunSnoc(t.next, rs[1..], libs[1..], r, lib);
      assert Run(t.next, rs[1..] + [r], libs[1..] + [lib]) == Trace(last.next, rest.calls + last.calls, rest.responses + [last.response]);
      assert t.calls + (rest.calls + last.calls) == (t.calls + rest.calls) + last.calls;
      assert [t.response] + (rest.responses + [last.response]) == ([t.response] + rest.responses) + [last.response];
    }
  }

  /** Running a queue one job further: the run of the first k + 1 jobs extends the run of the first k. */
  lemma RunPrefixStep(s: State, rs: seq<Request>, libs: seq<Behaviour>, k: nat)
    requires |rs| == |libs| && k < |rs|
    ensures Run(s, rs[..k + 1], libs[..k + 1]) == Extend(Run(s, rs[..k], libs[..k]), rs[k], libs[k])
  {
    assert rs[..k + 1] == rs[..k] + [rs[k]];
    assert libs[..k + 1] == libs[..k] + [libs[k]];
    RunSnoc(s, rs[..k], libs[..k], rs[k], libs[k]);
  }

  /** The response to job i is what that job yields in the state left behind by the jobs before it. */
  lemma {:induction false} RunResponseAt(s: State, rs: seq<Request>, libs: seq<Behaviour>, i: nat)
    requires |rs| == |libs| && i < |rs|
    ensures Run(s, rs, libs).responses[i] == HandleJob(Run(s, rs[..i], libs[..i]).final, rs[i], libs[i]).response
    decreases i
  {
    if i > 0 {
      var t := HandleJob(s, rs[0], libs[0]);
      RunResponseAt(t.next, rs[1..], libs[1..], i - 1);
      assert rs[..i][1..] == rs[1..][..i - 1];
      assert libs[..i][1..] == libs[1..][..i - 1];
    }
  }

  /** Every generate or reset job of a run gets a response, and a job of any other type gets none. */
  lemma {:induction false} RunAnswersKnownJobs(s: State, rs: seq<Request>, libs: seq<Behaviour>, i: nat)
    requires |rs| == |libs| && i < |rs|
    ensures Run(s, rs, libs).responses[i].Some? <==> rs[i].kind == GENERATE || rs[i].kind == RESET
    decreases i
  {
    if i > 0 {
      RunAnswersKnownJobs(HandleJob(s, rs[0], libs[0]).next, rs[1..], libs[1..], i - 1);
    }
  }

  /**
   * Once a session is live, a run of generate jobs keeps that very session: no further
   * build, no close, no change of state, and every call goes to that session.
   */
  lemma {:induction false} LiveSessionReused(s: State, rs: seq<Request>, libs: seq<Behaviour>)
    requires |rs| == |libs| && s.bot.Some? && AllGenerate(rs)
    ensures Run(s, rs, libs).final == s
    ensures forall c :: c in Run(s, rs, libs).calls ==> c.IsProcess() && c.on == s.bot.value
    decreases |rs|
  {
    if rs != [] {
      assert rs[0].kind == GENERATE;
      LiveSessionReused(s, rs[1..], libs[1..]);
    }
  }

  /**
   * While a session is live, the credentials carried by generate jobs make no difference
   * to anything the worker does.
   */
  lemma {:induction false} CredsIgnoredWhileLive(s: State, rs: seq<Request>, rs': seq<Request>, libs: seq<Behaviour>)
    requires |rs| == |rs'| == |libs| && s.bot.Some? && AllGenerate(rs)
    requires forall i :: 0 <= i < |rs| ==> rs'[i].kind == rs[i].kind && rs'[i].payload == rs[i].payload
    ensures Run(s, rs, libs) == Run(s, rs', libs)
    decreases |rs|
  {
    if rs != [] {
      assert rs[0].kind == GENERATE && rs'[0].kind == GENERATE;
      CredsIgnoredWhileLive(s, rs[1..], rs'[1..], libs[1..]);
    }
  }

  /**
   * Without a reset, at most one session is ever built: a build happens only while none
   * is live, and only a reset drops a live one.
   */
  lemma {:induction false} AtMostOneBuildWithoutReset(s: State, rs: seq<Request>, libs: seq<Behaviour>)
    requires |rs| == |libs| && AllGenerate(rs)
    ensures Run(s, rs, libs).final.constructs <= s.constructs + (if s.bot.Some? then 0 else 1)
    ensures Run(s, rs, libs).final.closes == s.closes
    decreases |rs|
  {
    if s.bot.Some? {
      LiveSessionReused(s, rs, libs);
    } else if rs != [] {
      var t := HandleJob(s, rs[0], libs[0]);
      assert rs[0].kind == GENERATE;
      if t.next.bot.Some? {
        LiveSessionReused(t.next, rs[1..], libs[1..]);
      } else {
        AtMostOneBuildWithoutReset(t.next, rs[1..], libs[1..]);
      }
    }
  }

  /** Whether `close` raises is never observable: errors from it are swallowed. */
  lemma {:induction false} CloseErrorsSwallowed(s: State, rs: seq<Request>, libs: seq<Behaviour>, libs': seq<Behaviour>)
    requires |rs| == |libs| == |libs'|
    requires forall i :: 0 <= i < |libs| ==> libs'[i] == libs[i].(close := libs'[i].close)
    ensures Run(s, rs, libs) == Run(s, rs, libs')
    decreases |rs|
  {
    if rs != [] {
      assert HandleJob(s, rs[0], libs[0]) == HandleJob(s, rs[0], libs'[0]);
      CloseErrorsSwallowed(HandleJob(s, rs[0], libs[0]).next, rs[1..], libs[1..], libs'[1..]);
    }
  }

  /**
   * Over any run from the initial state, builds minus closes is 0 or 1, and 1 exactly
   * when a session is live.
   */
  lemma BuildsMinusCloses(rs: seq<Request>, libs: seq<Behaviour>)
    requires |rs| == |libs|
    ensures var f := Run(Initial, rs, libs).final;
      0 <= f.constructs - f.closes <= 1 && (f.constructs - f.closes == 1 <==> f.bot.Some?)
  {
  }

  /** Reset is idempotent: a second reset finds nothing to close and reports `True` again. */
  lemma ResetIdempotent(s: State, r: Request, lib1: Behaviour, lib2: Behaviour)
    requires r.kind == RESET
    ensures var t1 := HandleJob(s, r, lib1);
      var t2 := HandleJob(t1.next, r, lib2);
      t2.next == t1.next && t2.calls == [] && t2.response == t1.response == Some(Returned(Acknowledged(true)))
  {
  }

  /**
   * A first generate of "hello": one build with the job's credentials, one
   * `process_prompt("hello")`, mode "single", and the session stays live.
   */
  lemma FreshGenerateScenario(creds: Option<Creds>, lib: Behaviour, answer: string)
    requires lib.construct.None? && lib.prompt == Ok(answer)
    ensures var t := HandleJob(Initial, Request(GENERATE, Text("hello"), creds), lib);
      && t.calls == [Construct(creds), ProcessPrompt(Session(1, creds), "hello")]
      && t.response == Some(Returned(Generated("success", "single", Answer(answer))))
      && t.next.bot == Some(Session(1, creds))
  {
  }

  /** A generate of ["a", "b"] on a live session: one `process_chain`, mode "chain". */
  lemma ChainScenario(s: State, creds: Option<Creds>, lib: Behaviour, answers: seq<string>)
    requires s.bot.Some? && lib.chain == Ok(answers)
    ensures var t := HandleJob(s, Request(GENERATE, Prompts(["a", "b"]), creds), lib);
      && t.calls == [ProcessChain(s.bot.value, Prompts(["a", "b"]))]
      && t.response == Some(Returned(Generated("success", "chain", Answers(answers))))
  {
  }

  /** A reset when no session is live reports `True` and never calls `close`. */
  lemma ResetAbsentScenario(lib: Behaviour)
    ensures var t := HandleJob(Initial, Request(RESET, Nothing, None), lib);
      t.calls == [] && t.response == Some(Returned(Acknowledged(true))) && t.next == Initial
  {
  }

  /**
   * When `process_prompt` raises on a live session, the caller gets the error, nothing is
   * closed, and the next generate runs on the same session without a fresh build.
   */
  lemma ProcessingFailureScenario(s: State, p: string, creds: Option<Creds>, e: Error, lib1: Behaviour, lib2: Behaviour)
    requires s.bot.Some? && lib1.prompt == Err(e)
    ensures var t1 := HandleJob(s, Request(GENERATE, Text(p), creds), lib1);
      var t2 := HandleJob(t1.next, Request(GENERATE, Text(p), creds), lib2);
      && t1.response == Some(Raised(e)) && t1.calls == [ProcessPrompt(s.bot.value, p)]
      && t1.next.bot == s.bot
      && t2.calls == [ProcessPrompt(s.bot.value, p)] && t2.next.constructs == s.constructs
  {
  }
}
