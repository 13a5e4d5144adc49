/** The shapes of requests, log records and replies of the `/ai-multitool` endpoint. */
module Records {
  import opened Wrappers
  import opened Tasks

  /** The free-form `extra_params` mapping; its values are kept as strings here. */
  type Params = map<string, string>

  /** A validated request body. */
  datatype Request = Request(task: Task, input: string, extraParams: Option<Params>)

  /** An entry of the queries log. */
  datatype QueryRecord = QueryRecord(task: string, input: string, params: Option<Params>, timestamp: string)

  /** An entry of the responses log, and the body of a successful reply. */
  datatype ResponseRecord = ResponseRecord(status: string, task: string, input: string, output: string,
                                           cached: bool, timestamp: string)

  /**
   * An error record. The one written to the errors log carries the request's
   * input; the one returned to the caller has no `input` key (`None`).
   */
  datatype ErrorRecord = ErrorRecord(status: string, message: string, task: string, timestamp: string,
                                     input: Option<string>)

  /**
   * What a call to an external collaborator (image resolution or the generation
   * service) comes back with: some text, or an exception rendered as its message.
   */
  datatype Outcome = Produced(text: string) | Raised(message: string)

  datatype Body = Answer(response: ResponseRecord) | Problem(error: ErrorRecord)

  /** An HTTP reply: the status code and the JSON body. */
  datatype Reply = Reply(code: int, body: Body)
}
