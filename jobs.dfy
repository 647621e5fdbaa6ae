/** The jobs that travel through the worker's queue and the outcomes written back to their futures. */
module Jobs {
  import opened Wrappers

  /** The `type` tags the worker recognises. */
  const GENERATE := "generate"
  const RESET := "reset"

  /** The `status` and `mode` strings of a successful generation record. */
  const SUCCESS := "success"
  const SINGLE := "single"
  const CHAIN := "chain"

  /** Credentials are passed through to the automation library untouched. */
  type Creds = string

  /** An exception raised by the automation library. */
  datatype Error = Error(message: string)

  /** A job's `payload`: a string prompt, a list of prompts, or `None` (what a reset job carries). */
  datatype Payload = Text(prompt: string) | Prompts(prompts: seq<string>) | Nothing

  /** What the worker reads from a job dictionary: `type`, `payload` and `creds` (absent on reset jobs). */
  datatype Request = Request(kind: string, payload: Payload, creds: Option<Creds>)

  /** What `process_prompt` (one string) or `process_chain` (a list of strings) returns. */
  datatype Reply = Answer(text: string) | Answers(texts: seq<string>)

  /** A value put on a future: the generation record `{"status", "mode", "result"}` or reset's `True`. */
  datatype Value = Generated(status: string, mode: string, result: Reply) | Acknowledged(ok: bool)

  /** What a future ends up holding: `set_result(value)` or `set_exception(error)`. */
  datatype Outcome = Returned(value: Value) | Raised(error: Error)

  function Success(mode: string, result: Reply): Outcome
  {
    Returned(Generated(SUCCESS, mode, result))
  }
}
