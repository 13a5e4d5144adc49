/**
 * The request handler as the source runs it: three log files updated in place
 * by `append_json_log`, a left-to-right cache scan with an early return, and
 * the success and error paths. Each method is proved to do what the pure
 * pipeline in pipeline.dfy says.
 */
module Server {
  import opened Wrappers
  import opened Tasks
  import opened Prompts
  import opened CacheKeys
  import opened LogStore
  import opened Records
  import opened Pipeline

  class Multitool {
    /** The queries, responses and errors log files. */
    const queries: JsonLog<QueryRecord>
    const responses: JsonLog<ResponseRecord>
    const errors: JsonLog<ErrorRecord>
    /** The digest behind `sha256_hash`. */
    const digest: string -> string

    /** The three logs are three different files. */
    ghost predicate Valid()
      reads this
    {
      queries as object != responses as object &&
      responses as object != errors as object &&
      queries as object != errors as object
    }

    /** The three logs' contents as one value. */
    function State(): Logs
      reads queries, responses, errors
    {
      Logs(queries.content, responses.content, errors.content)
    }

    constructor (queries: JsonLog<QueryRecord>, responses: JsonLog<ResponseRecord>, errors: JsonLog<ErrorRecord>,
                 digest: string -> string)
      requires queries as object != responses as object && responses as object != errors as object &&
               queries as object != errors as object
      ensures Valid()
      ensures this.queries == queries && this.responses == responses && this.errors == errors
      ensures this.digest == digest
    {
      this.queries, this.responses, this.errors := queries, responses, errors;
      this.digest := digest;
    }

    /**
     * The cache check: scan the responses log from the start and return the first
     * entry whose own fingerprint is `want`, with `cached` set; an unparseable
     * log is a miss.
     */
    method LookUp(want: string) returns (hit: Option<ResponseRecord>)
      ensures hit == CacheLookup(responses.content, digest, want)
      ensures hit.Some? ==> hit.value.cached && Matches(hit.value, digest, want)
    {
      match responses.content {
        case Unparseable =>
          hit := None;
        case Entries(items) =>
          var i := 0;
          while i < |items|
            invariant 0 <= i <= |items|
            invariant forall j | 0 <= j < i :: !Matches(items[j], digest, want)
          {
            if Matches(items[i], digest, want) {
              return Some(items[i].(cached := true));
            }
            i := i + 1;
          }
          hit := None;
      }
    }

    /**
     * `ai_multitool`: answer from the cache if the responses log has the request,
     * otherwise resolve the input, generate, and log either the query and the
     * response or the error.
     */
    method Handle(req: Request, timestamp: string, image: Outcome, generate: string -> Outcome)
      returns (reply: Reply)
      requires Valid()
      modifies queries, responses, errors
      ensures State() == Serve(old(State()), digest, req, timestamp, image, generate).after
      ensures reply == Serve(old(State()), digest, req, timestamp, image, generate).reply
    {
      var want := Fingerprint(digest, Name(req.task), req.input);
      var hit := LookUp(want);
      if hit.Some? {
        return Reply(200, Answer(hit.value));
      }

      var inputData := Produced(req.input);
      if req.task == ImageCaption {
        inputData := image;
      }
      var output := inputData;
      if inputData.Produced? {
        output := generate(GeneratePrompt(Name(req.task), inputData.text));
      }

      match output {
        case Produced(text) =>
          var result := ResponseRecord("success", Name(req.task), req.input, text, false, timestamp);
          queries.Append(QueryRecord(Name(req.task), req.input, req.extraParams, timestamp));
          responses.Append(result);
          reply := Reply(200, Answer(result));
        case Raised(message) =>
          var error := ErrorRecord("error", message, Name(req.task), timestamp, None);
          errors.Append(error.(input := Some(req.input)));
          reply := Reply(500, Problem(error));
      }
    }
  }
}
