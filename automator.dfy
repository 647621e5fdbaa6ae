/**
 * The browser-automation library as the worker sees it. Its code is not part of this
 * model: each of its calls is an oracle that either returns or raises, chosen by a
 * `Behaviour` value supplied from outside, and every call the worker makes is logged
 * as a `Call`.
 */
module Automator {
  import opened Wrappers
  import opened Jobs

  /**
   * A live `Automator` object. The n-th successful construction yields serial n, so two
   * handles are the same object exactly when they are equal.
   */
  datatype Session = Session(serial: nat, creds: Option<Creds>)

  /** How the library behaves during one job: whether each call it might receive returns or raises. */
  datatype Behaviour = Behaviour(
    construct: Option<Error>,          // `Automator(...)` raises this error, or returns a session
    prompt: Result<string, Error>,     // what `process_prompt` returns or raises
    chain: Result<seq<string>, Error>, // what `process_chain` returns or raises
    close: Option<Error>)              // `close()` raises this error, or returns

  /** One call into the library, as the worker issued it. */
  datatype Call =
    | Construct(creds: Option<Creds>)
    | ProcessPrompt(on: Session, prompt: string)
    | ProcessChain(on: Session, prompts: Payload)
    | Close(on: Session)
  {
    predicate IsProcess() { ProcessPrompt? || ProcessChain? }
  }
}
