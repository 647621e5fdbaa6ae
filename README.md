# Session manager worker, modelled in Dafny

This project models the worker loop of `SessionManager` (`app/session_manager.py`). The
worker keeps one browser automation session (`bot`) alive between requests. It takes jobs
off a FIFO queue one at a time:

- A **generate** job builds the session the first time it is needed, using that job's
  credentials. It then sends the payload to `process_prompt` (a single string) or to
  `process_chain` (anything else). The success record or the exception goes into the job's
  future.
- A **reset** job closes a live session, ignores any error from `close`, drops the session,
  and answers `True`.
- Neither kind of job writes to a future that was cancelled.
- A job of any other type changes nothing.
- Every job is marked done, and no failing job stops the loop.

`generate` and `reset` are modelled as what they do on the worker's side: they put a job with
a fresh future on the queue.

Layout:

- `wrappers.dfy`: `Option` and `Result`.
- `jobs.dfy`: what a job carries and what a future receives.
  - A request has a type, a payload and optional credentials.
  - A payload is a prompt string, a list of prompts, or nothing.
  - An outcome is a returned value or a raised error.
  - The success record is `{"status": "success", "mode": ..., "result": ...}`.
- `automator.dfy`: the automation library, which the model cannot see inside.
  - A `Session` is a handle numbered by the build that produced it.
  - A `Behaviour` chooses, for one job, whether construction, `process_prompt`,
    `process_chain` and `close` succeed.
  - Every call made into the library is recorded as a `Call`.
- `lifecycle.dfy`: the job semantics as pure functions.
  - The state is the live session, the remembered credentials, and counters of builds and
    closes.
  - `HandleJob` gives the next state, the library calls made and the response for one job.
  - `Run` does the same for a whole queue.
  - The invariant `Balanced` says builds minus closes is 1 when a session is live and 0
    otherwise, and that the live session is the one the latest build produced.
- `properties.dfy`: lemmas about runs of jobs, and small concrete scenarios.
- `session_manager.dfy`: the imperative worker.
  - `Future` is a heap cell with a cancelled flag and an optional outcome.
  - `Worker` holds the session state and the queue. Its methods are proved to move the
    state exactly as `HandleJob` and `Run` say.
  - Each job's outcome reaches its future unless that future was cancelled.

## Model

| member | source | states |
|---|---|---|
| Lifecycle.Process | app/session_manager.py:57-65 | A string payload makes exactly one `process_prompt` call, with that string, on the live session. Any other payload makes exactly one `process_chain` call. A success has status "success", mode "single" or "chain" to match, and as its result exactly what the library returned. The job raises exactly when the chosen operation raises, and with that operation's own error. |
| Lifecycle.Generate | app/session_manager.py:43-74 | With a live session, the state does not change and exactly one process call is made. With no session, the job's credentials are stored and the library is constructed first. The session becomes live exactly when construction succeeds; it then carries the job's credentials and the new build's number, and a success adds exactly one build. A failed construction is the only call the job makes. A failure never closes or drops the session. The response is always present. When construction raises, the caller gets the constructor's own error. Otherwise the caller gets exactly what `Process` gives on the live or newly built session. The error is raised exactly when construction or processing raised. `Balanced` is preserved. |
| Lifecycle.ResetSession | app/session_manager.py:79-90 | Afterwards no session is live, whatever the prior state. `close` is called at most once, on the live session, and only if there was one. The close count goes up by exactly the number of `close` calls. Builds and credentials are unchanged. The response is `True` regardless of how `close` behaves. `Balanced` is preserved. |
| Lifecycle.HandleJob | app/session_manager.py:36-43 | Generate and reset jobs get a response and no other job does. A job of any other type leaves the state unchanged and makes no call. Builds happen only on a generate job with no live session, and closes only on a reset job with a live session. Both counters only grow, and `Balanced` is preserved. |
| Lifecycle.Extend | app/session_manager.py:31-34 | Handling one more job appends exactly one response and keeps the earlier calls and responses as a prefix. |
| Lifecycle.Run | app/session_manager.py:31-36 | A queue of jobs handled in order gives one response per job. `Balanced` is preserved and the build and close counters only grow. |
| Properties.RunSnoc | app/session_manager.py:31-34 | Handling a queue and then one more job is the same as handling the longer queue: jobs are taken strictly in FIFO order. |
| Properties.RunPrefixStep | app/session_manager.py:31-34 | The run over the first k+1 jobs is the run over the first k jobs followed by job k. |
| Properties.RunResponseAt | app/session_manager.py:31-34 | The i-th response of a run is what the i-th job gets when handled in the state left by the jobs before it. |
| Properties.RunAnswersKnownJobs | app/session_manager.py:43 | In a run, the i-th job gets a response exactly when its type is "generate" or "reset". |
| Properties.LiveSessionReused | app/session_manager.py:46-54 | With a session live, any number of generate jobs leave the state unchanged. They never build, and every call is a process call on that same session. |
| Properties.CredsIgnoredWhileLive | app/session_manager.py:46-54 | With a session live, two queues of generate jobs that differ only in their credentials give identical runs. |
| Properties.AtMostOneBuildWithoutReset | app/session_manager.py:46-54 | Without resets, a queue of generate jobs builds at most once, and only if no session was live, and closes nothing. |
| Properties.CloseErrorsSwallowed | app/session_manager.py:81-87 | Whether `close` raises never changes a run's states, calls or responses. |
| Properties.BuildsMinusCloses | app/session_manager.py:46-54 | From the initial state, builds minus closes is always 0 or 1, and it is 1 exactly when a session is live. |
| Properties.ResetIdempotent | app/session_manager.py:81-90 | A second reset leaves the state unchanged, makes no call and reports `True` again. |
| Properties.FreshGenerateScenario | app/session_manager.py:46-69 | The first generate of "hello" builds once with the job's credentials, calls `process_prompt("hello")` on that session, answers with mode "single", and leaves the session live. |
| Properties.ChainScenario | app/session_manager.py:63-69 | A generate of ["a", "b"] on a live session makes one `process_chain` call and answers with mode "chain". |
| Properties.ResetAbsentScenario | app/session_manager.py:79-90 | A reset with no session live calls nothing and reports `True`. |
| Properties.ProcessingFailureScenario | app/session_manager.py:60-74 | When `process_prompt` raises, the caller gets the error and the session is kept. The next generate reuses it without a build. |
| SessionManager.Future.Cancel | app/session_manager.py:68 | Cancelling succeeds exactly when the future holds no outcome yet, and it never changes the outcome. |
| SessionManager.Future.Complete | app/session_manager.py:69 | Completing a pending future stores the outcome. |
| SessionManager.Future.Deliver | app/session_manager.py:68-74 | The guarded write stores the outcome only if the future was not cancelled. A cancelled future is never written to, and the flag is unchanged. |
| SessionManager.Worker.constructor | app/session_manager.py:15-27 | A new worker has no session, no credentials, no builds or closes, and an empty queue. |
| SessionManager.Worker.SubmitGenerate | app/session_manager.py:97-121 | The worker's invariant is kept. Exactly one generate job, carrying the prompt, the credentials and a fresh future that is neither cancelled nor completed, is appended to the queue. The session state is untouched. |
| SessionManager.Worker.SubmitReset | app/session_manager.py:125-140 | The worker's invariant is kept. Exactly one reset job, carrying no payload, no credentials and a fresh future that is neither cancelled nor completed, is appended to the queue. The session state is untouched. |
| SessionManager.Worker.GenerateJob | app/session_manager.py:43-74 | The imperative generate branch leaves exactly the state, calls and outcome that `Generate` gives. |
| SessionManager.Worker.ResetJob | app/session_manager.py:79-87 | The imperative reset branch, whether `close` returns or raises, leaves exactly the state and calls that `ResetSession` gives. |
| SessionManager.Worker.Step | app/session_manager.py:31-92 | With a non-empty queue, the head job is removed and the state and calls are those `HandleJob` gives. The job's future receives the response unless it was cancelled, in which case it is left untouched. The worker's invariant is kept: every queued future is pending and distinct, and the unfinished count matches the queue. With an empty queue nothing changes. |
| SessionManager.Worker.WorkerLoop | app/session_manager.py:31-95 | The loop handles the first n jobs in queue order, where n is the smaller of the queue length and the number of library behaviours supplied. The queue loses exactly those jobs, and the state and calls are those `Run` gives for them. The worker's invariant is kept. |

## Left out

- Threads, `_stop_event` and the blocking `queue.Queue.get` (lines 16-19, 31-34) are not modelled. The loop is a sequence of steps; on an empty queue a step does nothing, where the real loop would wait.
- The asyncio bridge in `generate` and `reset` (`propagate_result`, `call_soon_threadsafe`, lines 102-114 and 131-134) is not modelled; it only moves results between threads. Unlike the generate bridge, reset's callback does not check whether the thread future was cancelled (lines 131-132).
- `llm_session.Automator` is not part of this model. Building a session, `process_prompt`, `process_chain` and `close` are opaque operations whose success or failure, and whose results, come from a `Behaviour` supplied for each job. The fixed provider name and `headless=False` are not recorded.
- `if bot:` (line 81) is taken to mean "a session is live"; a live `Automator` object that Python treats as false is not modelled.
- The outer `Critical Worker Error` handler (lines 94-95) is not modelled. It can only be reached by a job with no future, or whose future is already completed. The submit methods never make such a job: the worker's invariant keeps every queued future pending and distinct. For the same reason, the exception `set_result` raises on an already-completed future does not arise.
- WorkerLoop: what reaches each job's future is stated per job by `Worker.Step`, not collected over the whole loop.
- Logging throughout the file is left out.
- `app/main.py` and `app/models.py` are not part of this model. The HTTP routes call manager methods (`start_providers`, `workers`, a provider-keyed `generate`, `reset_provider`) that the manager does not define. From `app/models.py` the model takes only the payload shape: one prompt string or a list of prompts.
- A failed generation does not close or drop the session; it only hands the error to the caller (lines 71-74). Nothing about recovering from a crashed session is modelled, because the code has none.
- The file defines one worker; there is no provider registry, batched startup, unknown-provider check or startup probe, so none is modelled.
