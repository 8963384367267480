/** A client that pushes one JSON document to a remote indexing API with an
    HTTP PUT, retrying on failure, and reports the outcome through either a
    callback or a promise.

    The HTTP transport is not modelled. It is replaced by a caller-supplied
    sequence of outcomes: the k-th request issued for a document receives
    outcomes[k], and a request for which the sequence holds no outcome never
    completes. Timers are not modelled either: a scheduled retry is recorded
    as a Timer value, and the retry it schedules follows at once. */
module Push {
  import opened Strings

  datatype Option<+T> = None | Some(value: T)

  datatype Result<+T, +E> = Success(value: T) | Failure(error: E)

  // ---------------------------------------------------------------------------
  // Configuration as the caller passes it: every field may be absent.

  /** The `pushConfig` argument. It has both spellings of the API version key:
      the client reads `apiversion` and ignores `apiVersion`. */
  datatype PushConfig = PushConfig(
    organizationId: Option<string>,
    sourceId: Option<string>,
    pushApiKey: Option<string>,
    server: Option<string>,
    apiversion: Option<string>,
    apiVersion: Option<string>)

  /** The `retryOptions` argument. */
  datatype RetryOptions = RetryOptions(
    retry: Option<bool>,
    attempts: Option<int>,
    delay: Option<int>)

  /** JavaScript truthiness of an optional field: absent, "", 0 and false are falsy. */
  predicate StringTruthy(v: Option<string>) { v.Some? && v.value != "" }
  predicate IntTruthy(v: Option<int>) { v.Some? && v.value != 0 }
  predicate BoolTruthy(v: Option<bool>) { v.Some? && v.value }

  const DEFAULT_SERVER := "push.cloud.coveo.com"
  const DEFAULT_API_VERSION := "v1"
  const DEFAULT_ATTEMPTS := 5
  const DEFAULT_DELAY := 3000

  const MISSING_ORGANIZATION := "PushClient needs an organizationId in the pushConfig."
  const MISSING_SOURCE := "PushClient needs an sourceId in the pushConfig."
  const MISSING_API_KEY := "PushClient needs an pushApiKey in the pushConfig."

  /** The message the constructor throws, if any. The three required fields
      are checked in order, so the first falsy one decides the message. */
  function ConfigError(cfg: PushConfig): (r: Option<string>)
    ensures r == None <==>
      StringTruthy(cfg.organizationId) && StringTruthy(cfg.sourceId) && StringTruthy(cfg.pushApiKey)
    ensures !StringTruthy(cfg.organizationId) ==> r == Some(MISSING_ORGANIZATION)
    ensures StringTruthy(cfg.organizationId) && !StringTruthy(cfg.sourceId) ==> r == Some(MISSING_SOURCE)
    ensures StringTruthy(cfg.organizationId) && StringTruthy(cfg.sourceId) && !StringTruthy(cfg.pushApiKey)
      ==> r == Some(MISSING_API_KEY)
  {
    if !StringTruthy(cfg.organizationId) then Some(MISSING_ORGANIZATION)
    else if !StringTruthy(cfg.sourceId) then Some(MISSING_SOURCE)
    else if !StringTruthy(cfg.pushApiKey) then Some(MISSING_API_KEY)
    else None
  }

  /** `pushConfig.server || 'push.cloud.coveo.com'` */
  function ServerSetting(cfg: PushConfig): (r: string)
    ensures r != ""
    ensures StringTruthy(cfg.server) ==> r == cfg.server.value
    ensures !StringTruthy(cfg.server) ==> r == DEFAULT_SERVER
  {
    if StringTruthy(cfg.server) then cfg.server.value else DEFAULT_SERVER
  }

  /** `pushConfig.apiversion || 'v1'` */
  function ApiVersionSetting(cfg: PushConfig): (r: string)
    ensures r != ""
    ensures StringTruthy(cfg.apiversion) ==> r == cfg.apiversion.value
    ensures !StringTruthy(cfg.apiversion) ==> r == DEFAULT_API_VERSION
  {
    if StringTruthy(cfg.apiversion) then cfg.apiversion.value else DEFAULT_API_VERSION
  }

  /** `retryOptions.retry || true`: whatever the caller passes, retry is on. */
  function RetrySetting(opts: RetryOptions): (r: bool)
    ensures r
  {
    if BoolTruthy(opts.retry) then opts.retry.value else true
  }

  /** `retryOptions.attempts || 5`: an explicit 0 is replaced by the default. */
  function AttemptsSetting(opts: RetryOptions): (r: int)
    ensures r != 0
    ensures IntTruthy(opts.attempts) ==> r == opts.attempts.value
    ensures !IntTruthy(opts.attempts) ==> r == DEFAULT_ATTEMPTS
  {
    if IntTruthy(opts.attempts) then opts.attempts.value else DEFAULT_ATTEMPTS
  }

  /** `retryOptions.delay || 3000`: an explicit 0 is replaced by the default. */
  function DelaySetting(opts: RetryOptions): (r: int)
    ensures r != 0
    ensures IntTruthy(opts.delay) ==> r == opts.delay.value
    ensures !IntTruthy(opts.delay) ==> r == DEFAULT_DELAY
  {
    if IntTruthy(opts.delay) then opts.delay.value else DEFAULT_DELAY
  }

  /** The camel-case key `apiVersion` has no effect on the version used. */
  lemma ApiVersionKeyIgnored(cfg: PushConfig, v: Option<string>)
    ensures ApiVersionSetting(cfg.(apiVersion := v)) == ApiVersionSetting(cfg)
    ensures StringTruthy(v) && !StringTruthy(cfg.apiversion) ==>
      ApiVersionSetting(cfg.(apiVersion := v)) == DEFAULT_API_VERSION
  {
  }

  // ---------------------------------------------------------------------------
  // Documents and request descriptors.

  /** A document: its optional `documentId` and the rest of its fields, whose
      values are kept as JSON text. */
  datatype Document = Document(documentId: Option<string>, fields: map<string, string>)

  /** `JSON.stringify(document)`: the serialization is deterministic and its
      internals are not modelled, so the body is the document it serializes. */
  datatype Body = Stringified(document: Document)

  datatype Query = Query(documentId: Option<string>)

  /** The options passed to `request`; `verb` is its `method` option. */
  datatype RequestParams = RequestParams(
    url: string,
    qs: Query,
    verb: string,
    headers: map<string, string>,
    body: Body)

  /** Exactly a JSON content type and a bearer credential from which `key`
    can be read back. */
  predicate BearerJsonHeaders(headers: map<string, string>, key: string) {
    && headers.Keys == {"content-type", "Authorization"}
    && headers["content-type"] == "application/json"
    && |headers["Authorization"]| >= 7
    && headers["Authorization"][..7] == "Bearer "
    && headers["Authorization"][7..] == key
  }

  /** How a template literal renders `document.documentId`. */
  function IdText(id: Option<string>): (r: string)
    ensures id.Some? ==> r == id.value
    ensures id.None? ==> r == "undefined"
  {
    if id.Some? then id.value else "undefined"
  }

  // ---------------------------------------------------------------------------
  // What the transport answers and what a delivery does.

  /** The transport's answer to one request: `error` set, a `response` with its
      status code and body, or neither. */
  datatype Outcome = Error(message: string) | Response(statusCode: nat, body: string) | NoResponse

  /** A request issued by the attempt whose counter was `retryCount`. */
  datatype Request = Request(retryCount: int, params: RequestParams)

  /** A retry scheduled with `setTimeout`, carrying the counter the retry will use. */
  datatype Timer = Timer(retryCount: int, delay: int)

  /** How a promise created by one attempt settles. */
  datatype Settlement = Resolved(message: string) | RejectedWithError(error: string) | Rejected(reason: string)

  /** Everything one delivery does: the requests in the order issued, the
      retries scheduled, the reports made (callback invocations, or the
      settlement of each attempt's promise), and whether the last request is
      still awaiting an outcome. */
  datatype Run<R> = Run(requests: seq<Request>, timers: seq<Timer>, reports: seq<R>, pending: bool)

  /** The two calling conventions of `pushDocument`. */
  datatype Delivery = ByCallback(callbackRun: Run<Outcome>) | ByPromise(promiseRun: Run<Settlement>)

  /** An attempt issued `req`, scheduled `timer`, reported `reps`, and the
      retry went on as `rest`. */
  function Continued<R>(req: Request, timer: Timer, reps: seq<R>, rest: Run<R>): Run<R> {
    Run([req] + rest.requests, [timer] + rest.timers, reps + rest.reports, rest.pending)
  }

  /** `prefix` followed by `rest`: the run of a loop that has done `prefix`
      and has `rest` still to do. */
  function Splice<R>(prefix: Run<R>, rest: Run<R>): Run<R> {
    Run(prefix.requests + rest.requests, prefix.timers + rest.timers, prefix.reports + rest.reports, rest.pending)
  }

  lemma SpliceContinued<R>(prefix: Run<R>, req: Request, timer: Timer, reps: seq<R>, rest: Run<R>)
    ensures Splice(prefix, Continued(req, timer, reps, rest)) ==
      Splice(Run(prefix.requests + [req], prefix.timers + [timer], prefix.reports + reps, false), rest)
  {
    assert prefix.requests + ([req] + rest.requests) == prefix.requests + [req] + rest.requests;
    assert prefix.timers + ([timer] + rest.timers) == prefix.timers + [timer] + rest.timers;
    assert prefix.reports + (reps + rest.reports) == prefix.reports + reps + rest.reports;
  }

  lemma SpliceFinal<R>(prefix: Run<R>, req: Request, reps: seq<R>, pending: bool)
    ensures Splice(prefix, Run([req], [], reps, pending)) ==
      Run(prefix.requests + [req], prefix.timers, prefix.reports + reps, pending)
  {
    assert prefix.timers + [] == prefix.timers;
  }

  /** The settled promise the promise convention hands to its caller: the one
      created by the first attempt. */
  function Observed(run: Run<Settlement>): Option<Settlement> {
    if run.reports == [] then None else Some(run.reports[0])
  }

  /** The first index whose outcome is not a transport error, or |outcomes|. */
  function FirstNonError(outcomes: seq<Outcome>): (j: nat)
    ensures j <= |outcomes|
    ensures forall k :: 0 <= k < j ==> outcomes[k].Error?
    ensures j < |outcomes| ==> !outcomes[j].Error?
    decreases |outcomes|
  {
    if outcomes == [] || !outcomes[0].Error? then 0 else 1 + FirstNonError(outcomes[1..])
  }

  /** In the promise convention an attempt is retried after a transport error
      or a status other than 202. */
  predicate PromiseRetriable(o: Outcome)
    ensures o.Error? ==> PromiseRetriable(o)
    ensures o.Response? ==> (PromiseRetriable(o) <==> o.statusCode != 202)
    ensures o.NoResponse? ==> !PromiseRetriable(o)
  {
    o.Error? || (o.Response? && o.statusCode != 202)
  }

  /** The first index whose outcome ends the promise convention's retries, or |outcomes|. */
  function FirstPromiseStop(outcomes: seq<Outcome>): (j: nat)
    ensures j <= |outcomes|
    ensures forall k :: 0 <= k < j ==> PromiseRetriable(outcomes[k])
    ensures j < |outcomes| ==> !PromiseRetriable(outcomes[j])
    decreases |outcomes|
  {
    if outcomes == [] || !PromiseRetriable(outcomes[0]) then 0 else 1 + FirstPromiseStop(outcomes[1..])
  }

  function Min(a: int, b: int): int { if a <= b then a else b }

  /** How the promise of one attempt settles on `outcome`. */
  function Settle(document: Document, outcome: Outcome): (r: Settlement)
    ensures r.Resolved? <==> outcome.Response? && outcome.statusCode == 202
    ensures r.Resolved? ==> r.message == "Pushed document : " + IdText(document.documentId)
    ensures r.RejectedWithError? <==> outcome.Error?
    ensures r.RejectedWithError? ==> r.error == outcome.message
    ensures outcome.Response? && outcome.statusCode != 202 ==>
      r == Rejected(DecimalText(outcome.statusCode) + " : " + outcome.body)
    ensures outcome.NoResponse? ==> r == Rejected("Unknown error pushing the document.")
  {
    match outcome
    case Error(msg) => RejectedWithError(msg)
    case Response(status, body) =>
      if status != 202 then Rejected(DecimalText(status) + " : " + body)
      else Resolved("Pushed document : " + IdText(document.documentId))
    case NoResponse => Rejected("Unknown error pushing the document.")
  }

  /** An attempt of the promise convention retries exactly when its promise
      rejects for a reason other than the missing response. */
  lemma PromiseRetryRejects(document: Document, o: Outcome)
    ensures PromiseRetriable(o) <==>
      !Settle(document, o).Resolved? && Settle(document, o) != Rejected("Unknown error pushing the document.")
  {
    if o.Response? && o.statusCode != 202 {
      var text := DecimalText(o.statusCode) + " : " + o.body;
      assert IsDigit(text[0]);
      assert !IsDigit("Unknown error pushing the document."[0]);
    }
  }

  /** The rejection for an unexpected status names that status: two
      rejections with the same text came from the same status code. */
  lemma UnexpectedStatusIdentified(document: Document, s1: nat, b1: string, s2: nat, b2: string)
    requires s1 != 202 && s2 != 202
    requires Settle(document, Response(s1, b1)) == Settle(document, Response(s2, b2))
    ensures s1 == s2 && b1 == b2
  {
    var t1, t2 := DecimalText(s1), DecimalText(s2);
    var r1, r2 := t1 + " : " + b1, t2 + " : " + b2;
    assert r1 == r2;
    assert r1 == t1 + (" : " + b1) && r2 == t2 + (" : " + b2);
    LeadingDigitsOfNumber(t1, " : " + b1);
    LeadingDigitsOfNumber(t2, " : " + b2);
    assert t1 == r1[..|t1|] && t2 == r2[..|t1|];
    DecimalTextInjective(s1, s2);
    assert b1 == r1[|t1| + 3..] && b2 == r2[|t1| + 3..];
  }

  // ---------------------------------------------------------------------------

  class PushClient {
    const organizationId: string
    const sourceId: string
    const pushApiKey: string
    const server: string
    const apiVersion: string
    const retry: bool
    const retryAttempts: int
    const retryDelay: int

    /** The field assignments of the constructor, once validation has passed. */
    constructor (pushConfig: PushConfig, retryOptions: RetryOptions)
      requires ConfigError(pushConfig) == None
      ensures organizationId == pushConfig.organizationId.value
      ensures sourceId == pushConfig.sourceId.value
      ensures pushApiKey == pushConfig.pushApiKey.value
      ensures server == ServerSetting(pushConfig)
      ensures apiVersion == ApiVersionSetting(pushConfig)
      ensures retry == RetrySetting(retryOptions)
      ensures retryAttempts == AttemptsSetting(retryOptions)
      ensures retryDelay == DelaySetting(retryOptions)
    {
      organizationId := pushConfig.organizationId.value;
      sourceId := pushConfig.sourceId.value;
      pushApiKey := pushConfig.pushApiKey.value;
      server := ServerSetting(pushConfig);
      apiVersion := ApiVersionSetting(pushConfig);
      retry := RetrySetting(retryOptions);
      retryAttempts := AttemptsSetting(retryOptions);
      retryDelay := DelaySetting(retryOptions);
    }

    /** `new PushClient(pushConfig, retryOptions)`: throws the first missing
      required field's message, or builds a client with the defaults filled in. */
    static method New(pushConfig: PushConfig, retryOptions: RetryOptions) returns (r: Result<PushClient, string>)
      ensures r.Failure? <==> ConfigError(pushConfig).Some?
      ensures r.Failure? ==> r.error == ConfigError(pushConfig).value
      ensures r.Success? ==> fresh(r.value)
      ensures r.Success? ==>
        r.value.organizationId == pushConfig.organizationId.value &&
        r.value.sourceId == pushConfig.sourceId.value &&
        r.value.pushApiKey == pushConfig.pushApiKey.value &&
        r.value.server == ServerSetting(pushConfig) &&
        r.value.apiVersion == ApiVersionSetting(pushConfig) &&
        r.value.retry &&
        r.value.retryAttempts == AttemptsSetting(retryOptions) &&
        r.value.retryDelay == DelaySetting(retryOptions)
    {
      var err := ConfigError(pushConfig);
      if err.Some? {
        return Failure(err.value);
      }
      var client := new PushClient(pushConfig, retryOptions);
      return Success(client);
    }

    /** The request descriptor for `document`; it depends on nothing else. It
      carries the document's id and the document itself, the method, and the
      credential, which can be read back from the header. */
    function GetRequestParams(document: Document): (r: RequestParams)
      ensures r.qs.documentId == document.documentId
      ensures r.body.document == document
      ensures r.verb == "PUT"
      ensures BearerJsonHeaders(r.headers, pushApiKey)
    {
      RequestParams(
        "https://" + server + "/" + apiVersion + "/organizations/" + organizationId
          + "/sources/" + sourceId + "/documents",
        Query(document.documentId),
        "PUT",
        map["content-type" := "application/json", "Authorization" := "Bearer " + pushApiKey],
        Stringified(document))
    }

    /** The URL's path segments are the server, the version, the organization
      and the source, in that order, so each can be read back from the URL. */
    lemma {:induction false} RequestUrlSegments(document: Document)
      requires '/' !in server && '/' !in apiVersion && '/' !in organizationId && '/' !in sourceId
      ensures Split(GetRequestParams(document).url, '/') ==
        ["https:", "", server, apiVersion, "organizations", organizationId, "sources", sourceId, "documents"]
    {
      UrlPieces(server, apiVersion, organizationId, sourceId);
      SplitNine("https:", "", server, apiVersion, "organizations", organizationId, "sources", sourceId, "documents");
    }

    lemma UrlPieces(server: string, apiVersion: string, organizationId: string, sourceId: string)
      ensures "https://" + server + "/" + apiVersion + "/organizations/" + organizationId + "/sources/" + sourceId + "/documents"
        == "https:" + "/" + ("" + "/" + (server + "/" + (apiVersion + "/" + ("organizations" + "/" +
          (organizationId + "/" + ("sources" + "/" + (sourceId + "/" + "documents")))))))
    {
    }

    /** `pushDocumentRetry`'s decision: a retry is scheduled, with the configured
      delay, exactly when retry is on and the incremented counter is at most
      the configured number of attempts. */
    function RetryTimer(retryCount: int): (r: Option<Timer>)
      ensures r.Some? <==> retry && retryCount <= retryAttempts
      ensures r.Some? ==> r.value.retryCount == retryCount && r.value.delay == retryDelay
    {
      if retry && retryCount <= retryAttempts then Some(Timer(retryCount, retryDelay)) else None
    }

    /** How many requests a delivery starting at `retryCount` issues when every
      attempt fails: one, plus one per retry allowed. */
    function MaxRequests(retryCount: int): nat {
      if retry && retryCount < retryAttempts then retryAttempts - retryCount + 1 else 1
    }

    /** Every request of `run` carries the descriptor of the same, unmodified
      document, the k-th one with counter retryCount + k, and the k-th retry
      was scheduled with counter retryCount + k + 1 and the configured delay. */
    predicate SameRequestEachAttempt<R>(run: Run<R>, document: Document, retryCount: int) {
      (forall k :: 0 <= k < |run.requests| ==> run.requests[k] == Request(retryCount + k, GetRequestParams(document))) &&
      (forall k :: 0 <= k < |run.timers| ==> run.timers[k] == Timer(retryCount + k + 1, retryDelay))
    }

    lemma SameRequestContinued<R>(document: Document, retryCount: int, reps: seq<R>, rest: Run<R>)
      requires SameRequestEachAttempt(rest, document, retryCount + 1)
      ensures SameRequestEachAttempt(
        Continued(Request(retryCount, GetRequestParams(document)), Timer(retryCount + 1, retryDelay), reps, rest),
        document, retryCount)
    {
    }

    // -------------------------------------------------------------------------
    // Callback convention.

    /** What `pushDocumentCallback(document, callback, retryCount)` does when the
      transport answers with `outcomes`: a transport error schedules a retry
      while the budget lasts, and any answer without an error goes to the callback. */
    function CallbackDelivery(document: Document, outcomes: seq<Outcome>, retryCount: int): (r: Run<Outcome>)
      ensures 1 <= |r.requests| <= |outcomes| + 1
      ensures !r.pending ==> |r.requests| <= |outcomes|
      ensures |r.timers| == |r.requests| - 1
      ensures |r.reports| <= 1
      ensures r.pending ==> |r.requests| == |outcomes| + 1 && r.reports == []
      decreases |outcomes|
    {
      var req := Request(retryCount, GetRequestParams(document));
      if outcomes == [] then Run([req], [], [], true)
      else
        match outcomes[0]
        case Error(_) =>
          var timer := RetryTimer(retryCount + 1);
          if timer.Some? then Continued(req, timer.value, [], CallbackDelivery(document, outcomes[1..], retryCount + 1))
          else Run([req], [], [], false)
        case _ => Run([req], [], [outcomes[0]], false)
    }

    /** All attempts of the callback convention send the same descriptor, with
      consecutive counters. */
    lemma {:induction false} CallbackAttempts(document: Document, outcomes: seq<Outcome>, retryCount: int)
      ensures SameRequestEachAttempt(CallbackDelivery(document, outcomes, retryCount), document, retryCount)
      decreases |outcomes|
    {
      if outcomes != [] && outcomes[0].Error? && RetryTimer(retryCount + 1).Some? {
        CallbackAttempts(document, outcomes[1..], retryCount + 1);
        SameRequestContinued(document, retryCount, [], CallbackDelivery(document, outcomes[1..], retryCount + 1));
      }
    }

    /** The callback convention in full. With j the first attempt that is not a
      transport error, the client issues min(budget, j + 1) requests; the
      callback is invoked once, with outcome j, exactly when attempt j falls
      within the budget; otherwise it is never invoked. */
    lemma {:induction false} CallbackOutcome(document: Document, outcomes: seq<Outcome>, retryCount: int)
      ensures var r := CallbackDelivery(document, outcomes, retryCount);
        var j := FirstNonError(outcomes);
        var n := Min(MaxRequests(retryCount), j + 1);
        |r.requests| == n &&
        (r.reports == if n == j + 1 && j < |outcomes| then [outcomes[j]] else []) &&
        (r.pending <==> n == j + 1 && j == |outcomes|)
      decreases |outcomes|
    {
      if outcomes != [] && outcomes[0].Error? && retry && retryCount + 1 <= retryAttempts {
        CallbackOutcome(document, outcomes[1..], retryCount + 1);
        var rest := outcomes[1..];
        var sub := CallbackDelivery(document, rest, retryCount + 1);
        var req := Request(retryCount, GetRequestParams(document));
        assert CallbackDelivery(document, outcomes, retryCount) ==
          Continued(req, RetryTimer(retryCount + 1).value, [], sub);
        assert [] + sub.reports == sub.reports;
        assert FirstNonError(outcomes) == 1 + FirstNonError(rest);
        assert MaxRequests(retryCount) == 1 + MaxRequests(retryCount + 1);
        var j := FirstNonError(rest);
        assert j < |rest| ==> rest[j] == outcomes[j + 1];
      }
    }

    /** Under persistent transport errors the callback convention issues
      attempts + 1 requests, with counters 0 to attempts, and then stops
      without ever invoking the callback. */
    lemma CallbackPersistentFailure(document: Document, outcomes: seq<Outcome>)
      requires retry && retryAttempts >= 0
      requires |outcomes| >= retryAttempts + 1
      requires forall k :: 0 <= k < |outcomes| ==> outcomes[k].Error?
      ensures var r := CallbackDelivery(document, outcomes, 0);
        |r.requests| == retryAttempts + 1 &&
        (forall k :: 0 <= k < |r.requests| ==> r.requests[k].retryCount == k) &&
        r.reports == [] && !r.pending
    {
      CallbackOutcome(document, outcomes, 0);
      CallbackAttempts(document, outcomes, 0);
    }

    /** The loop that `pushDocumentCallback` and `pushDocumentRetry` form
      through the timer, starting from counter `retryCount`. */
    method PushDocumentCallback(document: Document, retryCount: int, outcomes: seq<Outcome>) returns (run: Run<Outcome>)
      ensures run == CallbackDelivery(document, outcomes, retryCount)
    {
      ghost var spec := CallbackDelivery(document, outcomes, retryCount);
      var count := retryCount;
      var i := 0;
      var requests: seq<Request> := [];
      var timers: seq<Timer> := [];
      var reports: seq<Outcome> := [];
      var pending := false;
      var done := false;
      assert Splice(Run(requests, timers, reports, false), spec) == spec;
      while !done
        invariant 0 <= i <= |outcomes|
        invariant !done ==> count == retryCount + i && !pending
        invariant !done ==> spec == Splice(Run(requests, timers, reports, false), CallbackDelivery(document, outcomes[i..], count))
        invariant done ==> spec == Run(requests, timers, reports, pending)
        decreases |outcomes| - i, if done then 0 else 1
      {
        var params := GetRequestParams(document);
        var req := Request(count, params);
        ghost var prefix := Run(requests, timers, reports, false);
        if i == |outcomes| {
          assert outcomes[i..] == [];
          SpliceFinal(prefix, req, [], true);
          requests, pending, done := requests + [req], true, true;
        } else {
          assert outcomes[i..][0] == outcomes[i] && outcomes[i..][1..] == outcomes[i + 1..];
          var outcome := outcomes[i];
          if outcome.Error? {
            count := count + 1;
            var timer := RetryTimer(count);
            i := i + 1;
            if timer.Some? {
              SpliceContinued(prefix, req, timer.value, [], CallbackDelivery(document, outcomes[i..], count));
              assert reports + [] == reports;
              requests, timers := requests + [req], timers + [timer.value];
            } else {
              SpliceFinal(prefix, req, [], false);
              requests, done := requests + [req], true;
            }
          } else {
            SpliceFinal(prefix, req, [outcome], false);
            requests, reports, done := requests + [req], reports + [outcome], true;
          }
        }
      }
      run := Run(requests, timers, reports, pending);
    }

    // -------------------------------------------------------------------------
    // Promise convention.

    /** What `pushDocumentPromise(document, retryCount)` and the retries it
      schedules do: every attempt's promise settles on its own outcome, and a
      transport error or a status other than 202 schedules a retry while the
      budget lasts. */
    function PromiseDelivery(document: Document, outcomes: seq<Outcome>, retryCount: int): (r: Run<Settlement>)
      ensures 1 <= |r.requests| <= |outcomes| + 1
      ensures !r.pending ==> |r.requests| <= |outcomes|
      ensures |r.timers| == |r.requests| - 1
      ensures |r.reports| == if r.pending then |r.requests| - 1 else |r.requests|
      ensures r.pending ==> |r.requests| == |outcomes| + 1
      decreases |outcomes|
    {
      var req := Request(retryCount, GetRequestParams(document));
      if outcomes == [] then Run([req], [], [], true)
      else
        var settlement := Settle(document, outcomes[0]);
        if PromiseRetriable(outcomes[0]) then
          var timer := RetryTimer(retryCount + 1);
          if timer.Some? then
            Continued(req, timer.value, [settlement], PromiseDelivery(document, outcomes[1..], retryCount + 1))
          else Run([req], [], [settlement], false)
        else Run([req], [], [settlement], false)
    }

    /** All attempts of the promise convention send the same descriptor, with
      consecutive counters, and the k-th attempt's promise settles on the k-th
      outcome. */
    lemma {:induction false} PromiseAttempts(document: Document, outcomes: seq<Outcome>, retryCount: int)
      ensures var r := PromiseDelivery(document, outcomes, retryCount);
        SameRequestEachAttempt(r, document, retryCount) &&
        |r.reports| <= |outcomes| &&
        forall k :: 0 <= k < |r.reports| ==> r.reports[k] == Settle(document, outcomes[k])
      decreases |outcomes|
    {
      if outcomes != [] && PromiseRetriable(outcomes[0]) && RetryTimer(retryCount + 1).Some? {
        var rest := PromiseDelivery(document, outcomes[1..], retryCount + 1);
        PromiseAttempts(document, outcomes[1..], retryCount + 1);
        SameRequestContinued(document, retryCount, [Settle(document, outcomes[0])], rest);
        assert forall k :: 1 <= k < |outcomes| ==> outcomes[1..][k - 1] == outcomes[k];
      }
    }

    /** The caller of the promise convention sees only how the first attempt
      went; the promises of the retries are discarded. */
    lemma PromiseSettlesOnFirstAttempt(document: Document, outcomes: seq<Outcome>, retryCount: int)
      ensures Observed(PromiseDelivery(document, outcomes, retryCount)) ==
        if outcomes == [] then None else Some(Settle(document, outcomes[0]))
    {
      PromiseAttempts(document, outcomes, retryCount);
    }

    /** Two transports that answer the first request alike, or both leave it
      unanswered, are indistinguishable to the caller of the promise convention, whatever
      they answer the retries. */
    lemma PromiseIgnoresRetries(document: Document, o1: seq<Outcome>, o2: seq<Outcome>, retryCount: int)
      requires (o1 == []) == (o2 == [])
      requires o1 != [] ==> o1[0] == o2[0]
      ensures Observed(PromiseDelivery(document, o1, retryCount)) == Observed(PromiseDelivery(document, o2, retryCount))
    {
      PromiseSettlesOnFirstAttempt(document, o1, retryCount);
      PromiseSettlesOnFirstAttempt(document, o2, retryCount);
    }

    /** The promise convention in full. With j the first attempt answered by a
      202 or by `NoResponse`, the client issues min(budget, j + 1) requests. */
    lemma {:induction false} PromiseOutcome(document: Document, outcomes: seq<Outcome>, retryCount: int)
      ensures var r := PromiseDelivery(document, outcomes, retryCount);
        var j := FirstPromiseStop(outcomes);
        var n := Min(MaxRequests(retryCount), j + 1);
        |r.requests| == n && (r.pending <==> n == j + 1 && j == |outcomes|)
      decreases |outcomes|
    {
      if outcomes != [] && PromiseRetriable(outcomes[0]) && retry && retryCount + 1 <= retryAttempts {
        PromiseOutcome(document, outcomes[1..], retryCount + 1);
        assert FirstPromiseStop(outcomes) == 1 + FirstPromiseStop(outcomes[1..]);
        assert MaxRequests(retryCount) == 1 + MaxRequests(retryCount + 1);
      }
    }

    /** Under persistent failure the promise convention issues attempts + 1
      requests, with counters 0 to attempts, while its caller saw the first
      failure only. */
    lemma PromisePersistentFailure(document: Document, outcomes: seq<Outcome>)
      requires retry && retryAttempts >= 0
      requires |outcomes| >= retryAttempts + 1
      requires forall k :: 0 <= k < |outcomes| ==> PromiseRetriable(outcomes[k])
      ensures var r := PromiseDelivery(document, outcomes, 0);
        |r.requests| == retryAttempts + 1 &&
        (forall k :: 0 <= k < |r.requests| ==> r.requests[k].retryCount == k) &&
        !r.pending &&
        Observed(r) == Some(Settle(document, outcomes[0])) &&
        !Observed(r).value.Resolved?
    {
      PromiseOutcome(document, outcomes, 0);
      PromiseAttempts(document, outcomes, 0);
      PromiseSettlesOnFirstAttempt(document, outcomes, 0);
    }

    /** A transport error followed by a 202: the caller's promise rejects with
      the error, yet a second request goes out and its promise resolves. */
    lemma PromiseRejectsThoughRetrySucceeds(document: Document, error: string, body: string)
      requires retry && retryAttempts >= 1
      ensures var r := PromiseDelivery(document, [Error(error), Response(202, body)], 0);
        Observed(r) == Some(RejectedWithError(error)) &&
        |r.requests| == 2 && r.requests[1] == Request(1, GetRequestParams(document)) &&
        r.timers == [Timer(1, retryDelay)] &&
        r.reports[1] == Resolved("Pushed document : " + IdText(document.documentId)) && !r.pending
    {
      PromiseOutcome(document, [Error(error), Response(202, body)], 0);
      assert FirstPromiseStop([Error(error), Response(202, body)]) == 1;
    }

    /** The loop that `pushDocumentPromise` and `pushDocumentRetry` form through
      the timer, starting from counter `retryCount`. */
    method PushDocumentPromise(document: Document, retryCount: int, outcomes: seq<Outcome>) returns (run: Run<Settlement>)
      ensures run == PromiseDelivery(document, outcomes, retryCount)
    {
      ghost var spec := PromiseDelivery(document, outcomes, retryCount);
      var count := retryCount;
      var i := 0;
      var requests: seq<Request> := [];
      var timers: seq<Timer> := [];
      var reports: seq<Settlement> := [];
      var pending := false;
      var done := false;
      assert Splice(Run(requests, timers, reports, false), spec) == spec;
      while !done
        invariant 0 <= i <= |outcomes|
        invariant !done ==> count == retryCount + i && !pending
        invariant !done ==> spec == Splice(Run(requests, timers, reports, false), PromiseDelivery(document, outcomes[i..], count))
        invariant done ==> spec == Run(requests, timers, reports, pending)
        decreases |outcomes| - i, if done then 0 else 1
      {
        var params := GetRequestParams(document);
        var req := Request(count, params);
        ghost var prefix := Run(requests, timers, reports, false);
        if i == |outcomes| {
          assert outcomes[i..] == [];
          SpliceFinal(prefix, req, [], true);
          assert reports + [] == reports;
          requests, pending, done := requests + [req], true, true;
        } else {
          assert outcomes[i..][0] == outcomes[i] && outcomes[i..][1..] == outcomes[i + 1..];
          var outcome := outcomes[i];
          var settlement := Settle(document, outcome);
          i := i + 1;
          if PromiseRetriable(outcome) {
            count := count + 1;
            var timer := RetryTimer(count);
            if timer.Some? {
              SpliceContinued(prefix, req, timer.value, [settlement], PromiseDelivery(document, outcomes[i..], count));
              requests, timers, reports := requests + [req], timers + [timer.value], reports + [settlement];
            } else {
              SpliceFinal(prefix, req, [settlement], false);
              requests, reports, done := requests + [req], reports + [settlement], true;
            }
          } else {
            SpliceFinal(prefix, req, [settlement], false);
            requests, reports, done := requests + [req], reports + [settlement], true;
          }
        }
      }
      run := Run(requests, timers, reports, pending);
    }

    // -------------------------------------------------------------------------

    /** `pushDocument(document, callback)`: the callback convention when a
      callback is given, the promise convention otherwise, both from counter 0. */
    method PushDocument(document: Document, hasCallback: bool, outcomes: seq<Outcome>) returns (d: Delivery)
      ensures d.ByCallback? <==> hasCallback
      ensures hasCallback ==> d.callbackRun == CallbackDelivery(document, outcomes, 0)
      ensures !hasCallback ==> d.promiseRun == PromiseDelivery(document, outcomes, 0)
    {
      if hasCallback {
        var run := PushDocumentCallback(document, 0, outcomes);
        return ByCallback(run);
      }
      var run := PushDocumentPromise(document, 0, outcomes);
      return ByPromise(run);
    }
  }
}
