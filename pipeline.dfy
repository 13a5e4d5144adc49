/**
 * The request pipeline of `ai_multitool` as a function of the three logs:
 * fingerprint, cache scan over the responses log, and on a miss image
 * resolution, templating, generation and logging. The server class in
 * server.dfy runs the same steps imperatively and is proved equal to `Serve`.
 */
module Pipeline {
  import opened Wrappers
  import opened Tasks
  import opened Prompts
  import opened CacheKeys
  import opened LogStore
  import opened Records

  /** The three log files: queries, responses and errors. */
  datatype Logs = Logs(queries: Content<QueryRecord>, responses: Content<ResponseRecord>,
                       errors: Content<ErrorRecord>)

  /** The logs after a request, and the reply sent back. */
  datatype Served = Served(after: Logs, reply: Reply)

  /** A responses-log entry whose own fingerprint is the one looked for. */
  predicate Matches(item: ResponseRecord, digest: string -> string, want: string)
  {
    Fingerprint(digest, item.task, item.input) == want
  }

  /** The position of the earliest entry that matches, if any. */
  function FirstMatch(items: seq<ResponseRecord>, digest: string -> string, want: string): (r: Option<nat>)
    ensures r.Some? ==> r.value < |items| && Matches(items[r.value], digest, want)
    ensures r.Some? ==> forall j | 0 <= j < r.value :: !Matches(items[j], digest, want)
    ensures r.None? <==> forall j | 0 <= j < |items| :: !Matches(items[j], digest, want)
  {
    if items == [] then None
    else if Matches(items[0], digest, want) then Some(0)
    else match FirstMatch(items[1..], digest, want)
      case None => None
      case Some(k) => Some(k + 1)
  }

  /**
   * The cache lookup: the earliest matching entry with `cached` set; a log that
   * does not parse (the exception is swallowed) or has no match is a miss.
   */
  function CacheLookup(responses: Content<ResponseRecord>, digest: string -> string, want: string)
    : Option<ResponseRecord>
  {
    var items := Loaded(responses);
    match FirstMatch(items, digest, want)
    case None => None
    case Some(i) => Some(items[i].(cached := true))
  }

  /** The text substituted into the template: the resolved image path for image captions, else the input. */
  function Resolved(req: Request, image: Outcome): Outcome
  {
    if req.task == ImageCaption then image else Produced(req.input)
  }

  /** The generation step: resolve the input, build the prompt, call the generator. */
  function Generated(req: Request, image: Outcome, generate: string -> Outcome): Outcome
  {
    match Resolved(req, image)
    case Raised(m) => Raised(m)
    case Produced(data) => generate(GeneratePrompt(Name(req.task), data))
  }

  /** The response record a successful generation produces. */
  function FreshResponse(req: Request, output: string, timestamp: string): ResponseRecord
  {
    ResponseRecord("success", Name(req.task), req.input, output, false, timestamp)
  }

  /** The queries-log record of a successful request. */
  function QueryOf(req: Request, timestamp: string): QueryRecord
  {
    QueryRecord(Name(req.task), req.input, req.extraParams, timestamp)
  }

  /** The error record returned to the caller (no input). */
  function ErrorReply(req: Request, message: string, timestamp: string): ErrorRecord
  {
    ErrorRecord("error", message, Name(req.task), timestamp, None)
  }

  /**
   * One request. `digest` stands for SHA-256, `image` for what image resolution
   * gives (consulted only for image captions), `generate` for the generation
   * service. No other input is consulted.
   */
  function Serve(s: Logs, digest: string -> string, req: Request, timestamp: string,
                 image: Outcome, generate: string -> Outcome): Served
  {
    var want := Fingerprint(digest, Name(req.task), req.input);
    match CacheLookup(s.responses, digest, want)
    case Some(item) => Served(s, Reply(200, Answer(item)))
    case None =>
      match Generated(req, image, generate)
      case Produced(output) =>
        var result := FreshResponse(req, output, timestamp);
        Served(s.(queries := Appended(s.queries, QueryOf(req, timestamp)),
                  responses := Appended(s.responses, result)),
               Reply(200, Answer(result)))
      case Raised(message) =>
        var error := ErrorReply(req, message, timestamp);
        Served(s.(errors := Appended(s.errors, error.(input := Some(req.input)))),
               Reply(500, Problem(error)))
  }

  // ---------------------------------------------------------------------------
  // What one request does to the logs

  /** On a cache hit no log changes, and the earliest matching entry comes back with `cached` set. */
  lemma HitChangesNothing(s: Logs, digest: string -> string, req: Request, timestamp: string,
                          image: Outcome, generate: string -> Outcome)
    requires FirstMatch(Loaded(s.responses), digest, Fingerprint(digest, Name(req.task), req.input)).Some?
    ensures var i := FirstMatch(Loaded(s.responses), digest, Fingerprint(digest, Name(req.task), req.input)).value;
            var o := Serve(s, digest, req, timestamp, image, generate);
            o.after == s && o.reply == Reply(200, Answer(Loaded(s.responses)[i].(cached := true)))
  {
  }

  /**
   * A miss followed by a successful generation appends one query record and one
   * response record (not cached, carrying the request's own input) and leaves
   * the errors log as it was.
   */
  lemma MissThenSuccess(s: Logs, digest: string -> string, req: Request, timestamp: string,
                        image: Outcome, generate: string -> Outcome, output: string)
    requires CacheLookup(s.responses, digest, Fingerprint(digest, Name(req.task), req.input)).None?
    requires Generated(req, image, generate) == Produced(output)
    ensures var o := Serve(s, digest, req, timestamp, image, generate);
            var r := ResponseRecord("success", Name(req.task), req.input, output, false, timestamp);
            o.after.errors == s.errors &&
            Loaded(o.after.queries) == Loaded(s.queries) + [QueryRecord(Name(req.task), req.input, req.extraParams, timestamp)] &&
            Loaded(o.after.responses) == Loaded(s.responses) + [r] &&
            o.reply == Reply(200, Answer(r))
  {
  }

  /**
   * A miss followed by a failure (image resolution or generation) appends one
   * error record, with the input, to the errors log and nothing elsewhere; the
   * caller gets a 500 whose error record has no input.
   */
  lemma MissThenFailure(s: Logs, digest: string -> string, req: Request, timestamp: string,
                        image: Outcome, generate: string -> Outcome, message: string)
    requires CacheLookup(s.responses, digest, Fingerprint(digest, Name(req.task), req.input)).None?
    requires Generated(req, image, generate) == Raised(message)
    ensures var o := Serve(s, digest, req, timestamp, image, generate);
            o.after.queries == s.queries && o.after.responses == s.responses &&
            Loaded(o.after.errors) == Loaded(s.errors) + [ErrorRecord("error", message, Name(req.task), timestamp, Some(req.input))] &&
            o.reply == Reply(500, Problem(ErrorRecord("error", message, Name(req.task), timestamp, None)))
  {
  }

  /**
   * For image captions the template gets the resolved path, not the request's
   * input; a failed resolution fails the request without calling the generator.
   */
  lemma ImageCaptionUsesResolvedPath(req: Request, image: Outcome, generate: string -> Outcome)
    requires req.task == ImageCaption
    ensures image.Produced? ==> Generated(req, image, generate) == generate("Describe this image: " + image.text)
    ensures image.Raised? ==> Generated(req, image, generate) == image
  {
  }

  /** The other tasks template the request's input itself and ignore image resolution. */
  lemma TextTasksUseInput(req: Request, image: Outcome, generate: string -> Outcome)
    requires req.task != ImageCaption
    ensures Generated(req, image, generate) == generate(Templates[Name(req.task)] + req.input)
  {
    TaskHasTemplate(req.task, req.input);
  }

  /** Appending a matching entry to a log with no match makes that entry the first match. */
  lemma {:induction false} FirstMatchAppend(items: seq<ResponseRecord>, digest: string -> string, want: string, e: ResponseRecord)
    requires FirstMatch(items, digest, want).None?
    requires Matches(e, digest, want)
    ensures FirstMatch(items + [e], digest, want) == Some(|items|)
  {
    var all := items + [e];
    assert all[|items|] == e;
    forall j | 0 <= j < |items| ensures all[j] == items[j] && !Matches(all[j], digest, want) {
    }
  }

  /**
   * The cache round trip: after a miss and a successful generation, the same
   * request again is a hit that changes no log and returns the stored record,
   * marked cached, with the same output, whatever the collaborators would do.
   */
  lemma {:induction false} RepeatIsHit(s: Logs, digest: string -> string, req: Request, timestamp: string,
                                       image: Outcome, generate: string -> Outcome,
                                       timestamp2: string, image2: Outcome, generate2: string -> Outcome)
    requires CacheLookup(s.responses, digest, Fingerprint(digest, Name(req.task), req.input)).None?
    requires Generated(req, image, generate).Produced?
    ensures var first := Serve(s, digest, req, timestamp, image, generate);
            var second := Serve(first.after, digest, req, timestamp2, image2, generate2);
            first.reply.body.Answer? && !first.reply.body.response.cached &&
            second.after == first.after &&
            second.reply == Reply(200, Answer(first.reply.body.response.(cached := true))) &&
            second.reply.body.response.output == first.reply.body.response.output
  {
    var want := Fingerprint(digest, Name(req.task), req.input);
    var r := FreshResponse(req, Generated(req, image, generate).text, timestamp);
    var first := Serve(s, digest, req, timestamp, image, generate);
    assert Loaded(first.after.responses) == Loaded(s.responses) + [r];
    FirstMatchAppend(Loaded(s.responses), digest, want, r);
  }

  // ---------------------------------------------------------------------------
  // The cache key identifies the request

  /** The entry was stored for the same task and input as the request. */
  predicate SameRequest(item: ResponseRecord, req: Request)
  {
    item.task == Name(req.task) && item.input == req.input
  }

  /** Every entry of a responses log names a task of the enumeration, as every entry the handler writes does. */
  predicate TaskNamesOnly(items: seq<ResponseRecord>)
  {
    forall i | 0 <= i < |items| :: IsTaskName(items[i].task)
  }

  /** With a collision-free digest, an entry named by a task matches exactly when it is for the same request. */
  lemma {:induction false} MatchIsSameRequest(item: ResponseRecord, digest: string -> string, req: Request)
    requires Injective(digest)
    requires IsTaskName(item.task)
    ensures Matches(item, digest, Fingerprint(digest, Name(req.task), req.input)) <==> SameRequest(item, req)
  {
    var t :| Name(t) == item.task;
    FingerprintIdentifiesRequest(digest, t, item.input, req.task, req.input);
  }

  /**
   * With a collision-free digest and a responses log written by the handler,
   * the lookup misses exactly when no entry is for the same task and input,
   * and otherwise returns the earliest such entry, marked cached.
   */
  lemma {:induction false} CacheFindsEarliestSameRequest(responses: Content<ResponseRecord>, digest: string -> string, req: Request)
    requires Injective(digest)
    requires TaskNamesOnly(Loaded(responses))
    ensures var hit := CacheLookup(responses, digest, Fingerprint(digest, Name(req.task), req.input));
            var items := Loaded(responses);
            (hit.None? <==> forall j | 0 <= j < |items| :: !SameRequest(items[j], req)) &&
            (hit.Some? ==> exists i | 0 <= i < |items| ::
                             SameRequest(items[i], req) && hit.value == items[i].(cached := true) &&
                             forall j | 0 <= j < i :: !SameRequest(items[j], req))
  {
    var items := Loaded(responses);
    var want := Fingerprint(digest, Name(req.task), req.input);
    forall j | 0 <= j < |items|
      ensures Matches(items[j], digest, want) <==> SameRequest(items[j], req)
    {
      MatchIsSameRequest(items[j], digest, req);
    }
  }

  /** Serving a request keeps every responses-log entry named by a task. */
  lemma {:induction false} ServeKeepsTaskNames(s: Logs, digest: string -> string, req: Request, timestamp: string,
                                               image: Outcome, generate: string -> Outcome)
    requires TaskNamesOnly(Loaded(s.responses))
    ensures TaskNamesOnly(Loaded(Serve(s, digest, req, timestamp, image, generate).after.responses))
  {
    assert IsTaskName(Name(req.task));
  }

  // ---------------------------------------------------------------------------
  // A run of requests

  /** One call of the handler, with what its collaborators answer. */
  datatype Call = Call(req: Request, timestamp: string, image: Outcome, generate: string -> Outcome)

  /** The logs after serving the calls in order. */
  function ServeAll(s: Logs, digest: string -> string, calls: seq<Call>): Logs
    decreases |calls|
  {
    if calls == [] then s
    else
      var c := calls[0];
      ServeAll(Serve(s, digest, c.req, c.timestamp, c.image, c.generate).after, digest, calls[1..])
  }

  /** Two requests with the same task and input. */
  predicate SameKey(a: Request, b: Request)
  {
    a.task == b.task && a.input == b.input
  }

  /** The call's generation succeeds. */
  predicate Succeeds(c: Call)
  {
    Generated(c.req, c.image, c.generate).Produced?
  }

  /** The query records a run of successful calls appends, one per call, in call order. */
  function QueriesOf(calls: seq<Call>): (qs: seq<QueryRecord>)
    ensures |qs| == |calls|
    ensures forall i | 0 <= i < |calls| :: qs[i] == QueryOf(calls[i].req, calls[i].timestamp)
  {
    if calls == [] then [] else [QueryOf(calls[0].req, calls[0].timestamp)] + QueriesOf(calls[1..])
  }

  /** The response records a run of successful calls appends, one per call, in call order. */
  function ResponsesOf(calls: seq<Call>): (rs: seq<ResponseRecord>)
    requires forall i | 0 <= i < |calls| :: Succeeds(calls[i])
    ensures |rs| == |calls|
    ensures forall i | 0 <= i < |calls| ::
              SameRequest(rs[i], calls[i].req) && !rs[i].cached && rs[i].timestamp == calls[i].timestamp
  {
    if calls == [] then []
    else
      var c := calls[0];
      assert Succeeds(c);
      [FreshResponse(c.req, Generated(c.req, c.image, c.generate).text, c.timestamp)] + ResponsesOf(calls[1..])
  }

  /** None of the calls' requests has an entry in the responses log. */
  predicate NoneStored(items: seq<ResponseRecord>, calls: seq<Call>)
  {
    forall i, k | 0 <= i < |calls| && 0 <= k < |items| :: !SameRequest(items[k], calls[i].req)
  }

  /** No two calls are for the same task and input. */
  predicate DistinctKeys(calls: seq<Call>)
  {
    forall i, j | 0 <= i < j < |calls| :: !SameKey(calls[i].req, calls[j].req)
  }

  /** After the first call of a run is stored, the rest of the run is still distinct and not stored. */
  lemma {:induction false} RestStillFresh(items: seq<ResponseRecord>, calls: seq<Call>, r: ResponseRecord)
    requires calls != []
    requires DistinctKeys(calls) && NoneStored(items, calls)
    requires SameRequest(r, calls[0].req)
    ensures DistinctKeys(calls[1..]) && NoneStored(items + [r], calls[1..])
  {
    var rest := calls[1..];
    var all := items + [r];
    forall i, k | 0 <= i < |rest| && 0 <= k < |all| ensures !SameRequest(all[k], rest[i].req) {
      assert rest[i] == calls[i + 1];
      if k == |items| {
        assert !SameKey(calls[0].req, calls[i + 1].req);
      } else {
        assert all[k] == items[k];
      }
    }
    forall i, j | 0 <= i < j < |rest| ensures !SameKey(rest[i].req, rest[j].req) {
      assert rest[i] == calls[i + 1] && rest[j] == calls[j + 1];
    }
  }

  /** One successful call whose request is not stored yet: one query and one response appended. */
  lemma {:induction false} FreshCallStored(s: Logs, digest: string -> string, c: Call)
    requires Injective(digest)
    requires TaskNamesOnly(Loaded(s.responses))
    requires Succeeds(c)
    requires forall k | 0 <= k < |Loaded(s.responses)| :: !SameRequest(Loaded(s.responses)[k], c.req)
    ensures var s1 := Serve(s, digest, c.req, c.timestamp, c.image, c.generate).after;
            var output := Generated(c.req, c.image, c.generate).text;
            s1.errors == s.errors &&
            Loaded(s1.queries) == Loaded(s.queries) + [QueryOf(c.req, c.timestamp)] &&
            Loaded(s1.responses) == Loaded(s.responses) + [FreshResponse(c.req, output, c.timestamp)] &&
            TaskNamesOnly(Loaded(s1.responses))
  {
    CacheFindsEarliestSameRequest(s.responses, digest, c.req);
    MissThenSuccess(s, digest, c.req, c.timestamp, c.image, c.generate, Generated(c.req, c.image, c.generate).text);
    ServeKeepsTaskNames(s, digest, c.req, c.timestamp, c.image, c.generate);
  }

  /** The first call of a run, served: its two records appended, the rest of the run still fresh. */
  lemma {:induction false} FirstCallOfRun(s: Logs, digest: string -> string, calls: seq<Call>)
    requires calls != []
    requires Injective(digest)
    requires TaskNamesOnly(Loaded(s.responses))
    requires forall i | 0 <= i < |calls| :: Succeeds(calls[i])
    requires DistinctKeys(calls)
    requires NoneStored(Loaded(s.responses), calls)
    ensures var c := calls[0];
            var s1 := Serve(s, digest, c.req, c.timestamp, c.image, c.generate).after;
            var rest := calls[1..];
            s1.errors == s.errors && TaskNamesOnly(Loaded(s1.responses)) &&
            Loaded(s1.queries) == Loaded(s.queries) + [QueriesOf(calls)[0]] &&
            Loaded(s1.responses) == Loaded(s.responses) + [ResponsesOf(calls)[0]] &&
            (forall i | 0 <= i < |rest| :: Succeeds(rest[i])) &&
            DistinctKeys(rest) && NoneStored(Loaded(s1.responses), rest)
  {
    var c, rest := calls[0], calls[1..];
    assert Succeeds(c);
    var r := FreshResponse(c.req, Generated(c.req, c.image, c.generate).text, c.timestamp);
    FreshCallStored(s, digest, c);
    RestStillFresh(Loaded(s.responses), calls, r);
    forall i | 0 <= i < |rest| ensures Succeeds(rest[i]) {
      assert rest[i] == calls[i + 1];
    }
  }

  /**
   * Log growth: N successful requests with distinct keys, none cached before,
   * append exactly their N query records and N response records, in request
   * order, and leave the errors log alone.
   */
  lemma {:induction false} LogGrowth(s: Logs, digest: string -> string, calls: seq<Call>)
    requires Injective(digest)
    requires TaskNamesOnly(Loaded(s.responses))
    requires forall i | 0 <= i < |calls| :: Succeeds(calls[i])
    requires DistinctKeys(calls)
    requires NoneStored(Loaded(s.responses), calls)
    ensures var t := ServeAll(s, digest, calls);
            t.errors == s.errors &&
            Loaded(t.queries) == Loaded(s.queries) + QueriesOf(calls) &&
            Loaded(t.responses) == Loaded(s.responses) + ResponsesOf(calls)
    decreases |calls|
  {
    if calls == [] {
      assert Loaded(s.queries) + [] == Loaded(s.queries);
      assert Loaded(s.responses) + [] == Loaded(s.responses);
    } else {
      var c, rest := calls[0], calls[1..];
      var s1 := Serve(s, digest, c.req, c.timestamp, c.image, c.generate).after;
      FirstCallOfRun(s, digest, calls);
      LogGrowth(s1, digest, rest);
      ConcatFirst(Loaded(s.queries), QueriesOf(calls));
      ConcatFirst(Loaded(s.responses), ResponsesOf(calls));
    }
  }

  /** Moving the first element of a non-empty suffix across the concatenation. */
  lemma ConcatFirst<T>(a: seq<T>, b: seq<T>)
    requires b != []
    ensures (a + [b[0]]) + b[1..] == a + b
  {
    assert b == [b[0]] + b[1..];
  }

  /**
   * The end-to-end example: a tone-detection request on empty logs, with the
   * generator answering "Negative, sadness", is answered fresh and adds one
   * record to each of the queries and responses logs.
   */
  lemma ToneDetectorExample(digest: string -> string, timestamp: string, image: Outcome)
    ensures var req := Request(ToneDetector, "I'm absolutely devastated.", None);
            var o := Serve(Logs(Entries([]), Entries([]), Entries([])), digest, req, timestamp, image,
                           (prompt: string) => Produced("Negative, sadness"));
            o.reply == Reply(200, Answer(ResponseRecord("success", "tone_detector", "I'm absolutely devastated.",
                                                        "Negative, sadness", false, timestamp))) &&
            |Loaded(o.after.queries)| == 1 && |Loaded(o.after.responses)| == 1 &&
            o.after.errors == Entries([])
  {
  }
}
