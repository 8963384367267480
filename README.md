# Push client model

A Dafny model of `PushClient`, a small client that PUTs one JSON document to
the Coveo Push API and retries on failure. The model covers three parts:

- construction: which required fields are checked and in what order, and how
  JavaScript `||` fills in the defaults;
- the request descriptor built for a document;
- the retry state machine behind `pushDocument`, in both calling conventions.
  The callback convention takes a callback. The promise convention returns a
  promise.

The HTTP transport is a caller-supplied sequence of outcomes. The k-th request
issued for a document gets `outcomes[k]`. That outcome is `Error(message)`,
`Response(statusCode, body)`, or `NoResponse` (neither an error nor a
response). If the sequence has no entry
for a request, that request never completes. A delivery produces a `Run`,
which records:

- the requests issued, each with its attempt counter and descriptor;
- the retries scheduled, each with its counter and delay;
- the reports made: callback invocations, or the settlement of each attempt's
  promise;
- whether a request is still waiting for an answer.

A request is *answered* when the sequence has an entry for it, whatever that
entry is; `NoResponse` is an answer too.

The budget of a delivery is the number of requests it issues when every
attempt fails (`MaxRequests`). That is one request plus one per retry allowed.
From counter 0 with retry on, the budget is `attempts + 1` when `attempts` is
not negative.

Files:

- `pushclient.dfy`, module `Push`: the configuration and document datatypes,
  the functions that apply the defaults, and class `PushClient`. Its `const`
  fields are the ones the constructor assigns. The class holds the descriptor
  builder, the two delivery loops (`PushDocumentCallback`,
  `PushDocumentPromise`), the recursive functions that specify them
  (`CallbackDelivery`, `PromiseDelivery`), and the lemmas about them.
- `strings.dfy`, module `Strings`: how a template literal renders a status
  code, and `/`-splitting of URLs. The model uses these to show that the
  descriptor's URL and the rejection texts can be read back.

The model keeps these behaviours of `src/app/pushclient.js`:

- The API version is read from the key `apiversion` (line 14). The camel-case
  key `apiVersion` has no effect.
- Defaults apply whenever a value is falsy, not only when it is omitted
  (lines 13-18). An explicit `attempts: 0` gives 5 and `delay: 0` gives 3000.
- `retry || true` is always true (line 16), so retry cannot be switched off.
  Every `PushClient` has its retry flag on. `MaxRequests` and the lemmas
  `CallbackOutcome` and `PromiseOutcome` are stated for either value of the
  flag, but their disabled case is unreachable from a constructed client.
- In the callback convention (lines 46-51), the callback gets any outcome
  without a transport error, including `NoResponse`. No status code is
  checked.
- In the promise convention (lines 59-73), the promise settles on the first
  attempt only, even when that attempt schedules a retry. An outcome with neither an error
  nor a response rejects with `Unknown error pushing the document.` and
  schedules no retry.

## Model

| member | source | states |
|---|---|---|
| `Push.ConfigError` | src/app/pushclient.js:6-8 | construction fails exactly when `organizationId`, `sourceId` or `pushApiKey` is falsy; they are checked in that order, so the first falsy one decides the message |
| `Push.ServerSetting` | src/app/pushclient.js:13 | the server is the supplied one when truthy, otherwise `push.cloud.coveo.com` |
| `Push.ApiVersionSetting` | src/app/pushclient.js:14 | the version is `apiversion` when truthy, otherwise `v1` |
| `Push.ApiVersionKeyIgnored` | src/app/pushclient.js:14 | the camel-case key `apiVersion` never changes the version used |
| `Push.RetrySetting` | src/app/pushclient.js:16 | the retry flag is true for every input, `retry: false` included |
| `Push.AttemptsSetting` | src/app/pushclient.js:17 | the attempt bound is the supplied value when truthy, otherwise 5; it is never 0 |
| `Push.DelaySetting` | src/app/pushclient.js:18 | the delay is the supplied value when truthy, otherwise 3000; it is never 0 |
| `Push.PushClient.constructor` | src/app/pushclient.js:10-18 | once validation passes, the fields hold the three required values and the defaulted settings |
| `Push.PushClient.New` | src/app/pushclient.js:5-19 | `new PushClient(...)` throws the validation message exactly when validation fails; otherwise it yields a fresh client whose retry flag is on and whose settings are the defaulted ones |
| `Push.PushClient.GetRequestParams` | src/app/pushclient.js:21-32 | the descriptor carries the document id as query parameter, the serialized document as body, method PUT, exactly a JSON content type and a bearer header from which the API key can be read back |
| `Push.PushClient.RequestUrlSegments` | src/app/pushclient.js:23 | the URL's `/`-segments are `https:`, an empty segment from the `//`, the server, the version, `organizations`, the organization, `sources`, the source and `documents`, so each can be recovered when it contains no `/` |
| `Push.PushClient.RetryTimer` | src/app/pushclient.js:78-92 | a retry is scheduled exactly when retry is on and the incremented counter is at most the attempt bound; it carries that counter and the configured delay |
| `Push.PushClient.CallbackDelivery` | src/app/pushclient.js:42-53 | a callback delivery issues at least one request and at most one per outcome plus a pending one, schedules one retry fewer than it issues requests, and invokes the callback at most once, never while a request is pending |
| `Push.PushClient.CallbackAttempts` | src/app/pushclient.js:44 | every request of a callback delivery carries the same descriptor, built from the same document value; the k-th has counter k and the k-th retry carries counter k + 1 and the configured delay |
| `Push.PushClient.CallbackOutcome` | src/app/pushclient.js:45-52 | with j the first outcome that is not a transport error, exactly min(budget, j + 1) requests go out; the callback is invoked once, with outcome j whatever its status, iff attempt j is within the budget and answered; otherwise it is never invoked |
| `Push.PushClient.CallbackPersistentFailure` | src/app/pushclient.js:42-92 | under persistent transport errors exactly attempts + 1 requests go out, with counters 0 to attempts, nothing stays pending, and the callback is never invoked |
| `Push.PushClient.PushDocumentCallback` | src/app/pushclient.js:42-53 | the loop of attempts and retries computes exactly `CallbackDelivery` |
| `Push.IdText` | src/app/pushclient.js:70 | the rendered id is the id itself when present and `undefined` when absent |
| `Push.PromiseRetriable` | src/app/pushclient.js:59-68 | an attempt of the promise convention retries on every transport error and on every status but 202; an outcome with neither error nor response never retries |
| `Push.PromiseRetryRejects` | src/app/pushclient.js:59-73 | an attempt retries exactly when its promise rejects, with a transport error or an unexpected status, and not when it resolves or rejects for the missing response |
| `Push.Settle` | src/app/pushclient.js:58-74 | an attempt's promise resolves with `Pushed document : {id}` iff the status is 202; it rejects with the error iff there was a transport error, with `{status} : {body}` on any other status, and with `Unknown error pushing the document.` on `NoResponse` |
| `Strings.DecimalText` | src/app/pushclient.js:65 | a status code renders as a non-empty string of decimal digits with no leading zero |
| `Push.UnexpectedStatusIdentified` | src/app/pushclient.js:65-66 | two rejections for unexpected statuses with the same text come from the same status code and body |
| `Push.PushClient.PromiseDelivery` | src/app/pushclient.js:55-76 | a promise delivery issues at least one request and at most one per outcome plus a pending one; one retry fewer than requests is scheduled, and every answered attempt settles one promise |
| `Push.PushClient.PromiseAttempts` | src/app/pushclient.js:84-88 | every request of a promise delivery carries the same descriptor, built from the same document value, with consecutive counters, and the promise of attempt k settles on outcome k |
| `Push.PushClient.PromiseSettlesOnFirstAttempt` | src/app/pushclient.js:56-75 | the promise handed to the caller settles on the first outcome only, or never if the first request is never answered |
| `Push.PushClient.PromiseIgnoresRetries` | src/app/pushclient.js:87 | two transports that answer the first request alike, or both leave it unanswered, give the caller's promise the same value: the retries' promises are discarded |
| `Push.PushClient.PromiseOutcome` | src/app/pushclient.js:59-73 | with j the first outcome that is a 202 or `NoResponse`, exactly min(budget, j + 1) requests go out, and a request stays pending iff the outcomes ran out within the budget |
| `Push.PushClient.PromisePersistentFailure` | src/app/pushclient.js:55-92 | under persistent failure exactly attempts + 1 requests go out, with counters 0 to attempts, while the caller's promise rejects on the first failure |
| `Push.PushClient.PromiseRejectsThoughRetrySucceeds` | src/app/pushclient.js:59-70 | a transport error followed by a 202 rejects the caller's promise with the error, yet a second request with counter 1 goes out after one scheduled retry and its own promise resolves |
| `Push.PushClient.PushDocumentPromise` | src/app/pushclient.js:55-76 | the loop of attempts and retries computes exactly `PromiseDelivery` |
| `Push.PushClient.PushDocument` | src/app/pushclient.js:34-40 | the callback convention runs iff a callback is given, and both conventions start from counter 0 |
| `Strings.DecimalRoundTrip` | src/app/pushclient.js:65 | the decimal text of a status code reads back as that code |

## Left out

- The `request` library and the HTTPS transport are foreign I/O. A sequence of outcomes stands in for them.
- `setTimeout` and the clock are left out. A scheduled retry is a `Timer(counter, delay)` record, and the retry follows it at once.
- Promise scheduling is left out: the order in which `reject` and the timer run, and concurrent submissions of several documents. Only the fact that the retries' promises are discarded is modelled.
- `console.log` diagnostics (lines 43, 80-81) are left out. They have no effect on behaviour.
- `JSON.stringify` internals are left out. The body is `Stringified(document)`, which is deterministic by construction. A document's other fields are kept as JSON text.
- JavaScript values outside the modelled types are left out: `null`, `NaN`, non-string ids, and numeric strings for `attempts`. Truthiness covers absent, `""`, `0` and `false` only.
- A `pushConfig` or `retryOptions` that is not an object makes the JavaScript constructor raise a `TypeError`. The model always has both records.
- Push.PushClient.CallbackAttempts and Push.PushClient.PromiseAttempts: the document is an immutable value here. The code keeps a reference to the caller's object in the timer closure (lines 82-88) and reads it again through `getRequestParams` at each retry (lines 44, 57). A caller that changes or reuses that object before the delay has passed makes a retry send a different id and body; the model does not capture that aliasing.
- JavaScript numbers that are not integers are left out. `AttemptsSetting`, `DelaySetting` and `RetryTimer` work on integers. With `attempts: 2.5` counters 1 and 2 pass the bound, so three requests go out. With `attempts: Infinity` retries never end.
- Unhandled rejections are left out. The promises of the retries (line 87) have no handler, so each rejection among them is an unhandled rejection: Node prints a warning, and from Node 15 on it ends the process by default. The model keeps only the value the caller's promise settles with.
- Push.PushClient.PromiseOutcome and Push.PushClient.PromisePersistentFailure: their request counts assume the process survives the retries' rejections, as on Node before 15, with `--unhandled-rejections=warn`, or with an `unhandledRejection` handler. On a default Node 15 or later, a retry that rejects ends the process before the next timer fires, so a delivery whose first two attempts both fail stops after two requests.
- `body.document == document` in `GetRequestParams` holds because `Stringified` keeps the document whole. `JSON.stringify` is not injective. It loses key order. The model's `fields` may also hold a `documentId` key, which a JavaScript object cannot hold beside its own `documentId`.
- The callback's `error` argument in the non-error case, and response fields other than the status code and body, are left out. The callback receives the outcome itself.
- Push.PushClient.constructor: requires that validation passes, because the throwing path is modelled by `New`, which calls it. A Dafny constructor cannot fail.
