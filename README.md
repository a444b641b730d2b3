# winston-couchdb in Dafny

A model of `lib/winston-couchdb.js`, the winston transport that writes log
records to a CouchDB database, with proofs about it. The model covers the
five pieces of decision logic in that file:

- **Config** (`config.dfy`): how the `Couchdb` constructor turns its
  options into settings. This covers the defaults for `db`, `host` and
  `port`, the `secure` flag, and the legacy `user`/`pass` credentials.
  JavaScript truthiness, `||` and property reads are in `values.dfy`.
- **RecordWriter** (`record_writer.dfy`): what `log` saves, and how it
  turns the save's result into an event and a reply.
- **Provisioner** (`provisioner.dfy`) and the `Couchdb` class
  (`transport.dfy`): the one-shot `_ensureView` steps and the memoised
  client. The steps are exists, then create, then read the design
  document, then save it. The class holds the `_ensuredView` flag and the
  client. It talks to a mock database (`store.dfy`) that records every
  request. Whether a request fails is an input.
- **RangeQuery** (`range_query.dfy`): how `query` translates its options
  into view parameters, unwraps the rows, and deletes the unrequested keys
  of each document in place.
- **LiveTail** (`live_tail.dfy`): the `stream` change filter, the `since`
  sequence number and `destroy`. The stream is a state machine driven by
  the `info` reply, feed changes, feed errors and `destroy` calls.
  `TailStream` is the stream object whose handlers carry out its steps.

Callbacks run one after another in the model. Each asynchronous reply is
either an input of the method that issues the request, or a step of its
own (the `info` reply reaching `TailStream.OnInfo`).

Two behaviours of the code are easy to misread. The model follows the
code in both:

- For `order: 'desc'` the code puts `until` in `startkey` and `from` in
  `endkey` (lines 210-213), so a descending scan starts from the later
  bound. `RangeQuery.ScanMatchesWindow` shows that in either order the
  scan visits exactly the keys between `from` and `until`.
- Not every provisioning error is reported. The code drops the error of
  the design-document read and saves the document again (lines 134-138).

CouchDB includes both ends of a key range by default (`inclusive_end`).
`RangeQuery.InScan` therefore treats the range as closed at both ends.

## Model

| member | source | states |
|---|---|---|
| Values.Or | lib/winston-couchdb.js:30-32 | JavaScript `or` yields `a` when it is truthy and `b` otherwise, and is truthy iff either operand is |
| Values.Truthy | lib/winston-couchdb.js:30-37 | a value is falsy exactly when it is `undefined`, `null`, `false`, `0` or `""`. Every object and every `Date` is truthy |
| Values.Get | lib/winston-couchdb.js:275 | reading a key an object has yields its value, and any other read yields `undefined` |
| Config.Configure | lib/winston-couchdb.js:24-43 | `db` is `options.db`, else `options.database`, else `'winston'`. `host` defaults to `'localhost'` and `port` to 5984, so all three end up truthy. `secure` holds iff the host starts with `https:` in any case or `ssl`/`secure` is truthy. A truthy `user` replaces `auth` with `{username: user, password: pass, or '' when pass is falsy}`, otherwise `auth` is passed through |
| Config.LowerAscii | lib/winston-couchdb.js:34 | for the all-ASCII pattern `https:`, a character matches a pattern letter exactly when it is that letter in either ASCII case. Folding maps each ASCII capital to its lower-case letter and leaves every other character alone |
| Config.StartsWithIgnoringCase | lib/winston-couchdb.js:34 | the case-insensitive prefix test: the empty prefix always matches, and a match needs a long enough text whose first character agrees after folding. The full characterisation is `StartsWithIgnoringCaseAt` |
| Config.IsHttpsUrl | lib/winston-couchdb.js:34 | `/^https:/i` matches exactly a string host of at least six characters whose first five fold to `https` and whose sixth is `:` |
| Config.StartsWithIgnoringCaseAt | lib/winston-couchdb.js:34 | the recursive prefix test holds iff the text is at least as long as the prefix and agrees with it character by character after folding |
| Config.StartsWithIgnoringCaseFolds | lib/winston-couchdb.js:34 | two texts that differ only in the case of ASCII letters pass or fail the prefix test together |
| Config.HttpsHostIsSecure | lib/winston-couchdb.js:34 | a host starting with `https:` or `HTTPS:` makes the transport secure, whatever the other options are |
| Config.ConfigureDefaults | lib/winston-couchdb.js:25-34 | with no options the transport uses database `winston` on `localhost:5984`, with no credentials and no TLS |
| Config.ConfigureIdempotent | lib/winston-couchdb.js:30-42 | feeding the settings back in as options reproduces the same settings |
| RecordWriter.Params | lib/winston-couchdb.js:79-83 | the params keys are the metadata keys plus `timestamp`, `message` and `level`. Those three take the call's values. Every other metadata key keeps its value |
| RecordWriter.ParamsWithoutMetadata | lib/winston-couchdb.js:79-83 | absent metadata gives params with exactly the three keys of the call |
| RecordWriter.Log | lib/winston-couchdb.js:69-106 | silent mode saves nothing, emits nothing and replies `(null, true)`. Otherwise it saves exactly one indexable `{resource: 'log', params}` document. A failed save emits one `error` event and replies `(err, false)`. A successful save emits one `logged` event and replies `(null, true)`. `ok` holds iff there is no error |
| Store.Count | lib/winston-couchdb.js:124-157 | a request occurs in the trace as often as counted: zero times iff it is absent, and never more often than the trace is long |
| Store.CountAppend | lib/winston-couchdb.js:124-157 | counting requests distributes over concatenating traces |
| Provisioner.Provisioning | lib/winston-couchdb.js:123-160 | exists is asked first and no request is repeated. Create is issued iff exists succeeded and said the database is absent. An exists or create error goes to the continuation and ends the run. The design document is read iff those steps succeeded. It is saved iff the read failed or found nothing, and the read's error is not reported. The save's result is the run's result. Success leaves the database and the view in place, and nothing is deleted |
| Provisioner.DistinctCountsOnce | lib/winston-couchdb.js:123-160 | in a run without repeated requests each request occurs at most once |
| Provisioner.OnFirstUse | lib/winston-couchdb.js:119-121 | with the flag set `_ensureView` issues no request and reports no error. Without it, it runs the full provisioning |
| Provisioner.ProvisioningSettles | lib/winston-couchdb.js:123-139 | after a successful run, a later run against the same database only checks (exists, get) and changes nothing |
| Transport.ProvisioningUnfolds | lib/winston-couchdb.js:126-157 | a run that gets past the database check is that check followed by the design-document read and, when needed, the save |
| Transport.Couchdb.constructor | lib/winston-couchdb.js:24-43 | the settings are `Configure(options)`. The flag is unset, there is no client, no request has been made and nothing has been emitted |
| Transport.Couchdb.EnsureView | lib/winston-couchdb.js:114-121 | afterwards the flag is set. The requests issued are exactly those of `OnFirstUse` for the old flag, so none once the flag was set, and the error is that run's result. The store invariant holds: no request before the flag is set, and at most one exists, one create and one design save per instance |
| Transport.Couchdb.CheckDb | lib/winston-couchdb.js:123-130 | starting from an empty trace, the requests, the result and the new database state are exactly those of `Provisioning` |
| Transport.Couchdb.CheckView | lib/winston-couchdb.js:132-158 | it reads the design document and saves it iff the read failed or found nothing. The result is the save's result. The read's error is dropped |
| Transport.Couchdb.EnsureClient | lib/winston-couchdb.js:167-180 | the first access opens the client with the settings and starts provisioning (its requests are appended). Later accesses issue nothing |
| Transport.Couchdb.Log | lib/winston-couchdb.js:69-106 | the reply and the emitted events are those of `RecordWriter.Log`. Silent mode issues no request and does not touch the flag. Silent mode also leaves the stored documents and the database state alone. Otherwise the trace grows by the pending provisioning and one `SaveLog` of the document, the database and design-document state become those the provisioning leaves, and the document is stored iff the save succeeded |
| Transport.Couchdb.Query | lib/winston-couchdb.js:188-239 | a provisioning error is returned as is and the view is not queried. Otherwise one view request with `Translate(o)` is issued. The result is the shaped rows or the view's error. `query` runs at most twice, and twice exactly when the flag was not yet set. The database and design-document state become those the pending provisioning leaves |
| Transport.Couchdb.Stream | lib/winston-couchdb.js:246-264 | it returns a fresh stream that is not destroyed, has no feed and has emitted nothing. The trace grows by the pending provisioning and one `info` request, and the database and design-document state become those the provisioning leaves |
| RangeQuery.Translate | lib/winston-couchdb.js:208-217 | `limit` and `skip` are set only for non-zero `rows` and `start`. `desc` sets `descending` and puts `until` in `startkey` and `from` in `endkey`. Any other order leaves `descending` unset and puts `from` in `startkey` and `until` in `endkey`. An absent bound leaves its key unset |
| RangeQuery.ScanMatchesWindow | lib/winston-couchdb.js:208-217 | in either order the scan visits a key iff it lies between `from` and `until`, and it walks down iff the order is `desc` |
| RangeQuery.Unwrap | lib/winston-couchdb.js:222-225 | same length and order as the rows, and each element is its row's `params` |
| RangeQuery.Restrict | lib/winston-couchdb.js:228-234 | a key is kept iff the document has it and it is among the fields. Kept keys keep their values and no key is added |
| RangeQuery.Shape | lib/winston-couchdb.js:219-237 | one document per row. Without `fields` the documents are the unwrapped rows unchanged. With `fields` each is its row's params restricted to them |
| RangeQuery.Project | lib/winston-couchdb.js:227-235 | after the nested loops that delete keys in place, each array element is its old value restricted to the fields |
| RangeQuery.RestrictIdempotent | lib/winston-couchdb.js:227-235 | projecting a second time onto the same fields changes nothing |
| RangeQuery.WrittenRecordReadsBack | lib/winston-couchdb.js:79-237 | when the view answers with the document `log` saved, `query` hands back exactly its params, and with `fields: ['level']` only its level. The lemma works on `Shape` and does not go through `Couchdb.Query` or the store |
| LiveTail.Accepted | lib/winston-couchdb.js:275 | a change passes the filter exactly when `deleted` is falsy, `doc` is an object with a `params` key, and that `params` is truthy |
| LiveTail.Emitted | lib/winston-couchdb.js:274-278 | one change yields at most one payload, and exactly one iff it is not deleted and has a `doc` with truthy `params` |
| LiveTail.Logs | lib/winston-couchdb.js:274-278 | a stretch of the feed yields no more payloads than it has changes |
| LiveTail.LogsEmptyIffNoneAccepted | lib/winston-couchdb.js:275-276 | a stretch of the feed emits nothing iff none of its changes passes the filter |
| LiveTail.LogsAppend | lib/winston-couchdb.js:274-278 | the filter works change by change: the logs of two stretches are the first's followed by the second's |
| LiveTail.Since | lib/winston-couchdb.js:263 | `since` is null iff `start` is -1 or falsy, and `update_seq` otherwise |
| LiveTail.SinceIgnoresStartValue | lib/winston-couchdb.js:263 | any two starts other than -1 and falsy values resume from the same place |
| LiveTail.AfterDestroy | lib/winston-couchdb.js:253-260 | `destroy` always completes and leaves the stream destroyed with no running feed, whether the feed had started, was stopped or was never created. Nothing is emitted |
| LiveTail.Deliver | lib/winston-couchdb.js:274-282 | feed changes and errors leave the destroyed flag and the feed unchanged |
| LiveTail.StepAsWritten | lib/winston-couchdb.js:253-283 | the stream as written: a successful `info` reply subscribes from `Since(start, update_seq)` even when the stream was destroyed. Only `destroy` sets the flag and nothing resets it. Events are only appended |
| LiveTail.RunAsWritten | lib/winston-couchdb.js:253-283 | a run of the code as written: the stream ends destroyed iff it was destroyed already or a `destroy` call arrived, and events are only appended |
| LiveTail.Step | lib/winston-couchdb.js:253-283 | corrected, see ## Findings: before `destroy` a step is the code's own step (`StepAsWritten`). Once destroyed with the feed stopped, nothing changes, so a late `info` reply is dropped. The source has no such guard |
| LiveTail.NothingAfterDestroy | lib/winston-couchdb.js:253-283 | after `destroy`, whatever arrives, the stream stays destroyed and emits nothing more |
| LiveTail.QuietOnceDestroyed | lib/winston-couchdb.js:253-283 | a destroyed stream with a stopped feed ignores every sequence of inputs |
| LiveTail.RunningFeedEmitsLogs | lib/winston-couchdb.js:274-278 | while the feed runs, the stream emits as `log` exactly the filtered params of the delivered changes, in delivery order |
| LiveTail.TailFromNow | lib/winston-couchdb.js:262-278 | `start: -1` and a successful `info` reply subscribe from `null`, and every accepted change that follows is emitted |
| LiveTail.DestroyBeforeInfoStillEmits | lib/winston-couchdb.js:253-278 | as written, `destroy` before the `info` reply does not silence the stream: a later change is still emitted |
| LiveTail.TailStream.constructor | lib/winston-couchdb.js:246-251 | a new stream is not destroyed, has no feed and has emitted nothing |
| LiveTail.TailStream.OnInfo | lib/winston-couchdb.js:262-272 | corrected, see ## Findings: the `info` callback does what `Step` says. It reports the error, or subscribes from `Since(start, update_seq)`, unless the stream is already destroyed. The source has no `destroyed` guard here; `StepAsWritten` models the code as written |
| LiveTail.TailStream.OnChange | lib/winston-couchdb.js:274-278 | a change on the running feed emits its params iff it passes the filter (`Step` on a change) |
| LiveTail.TailStream.OnFeedError | lib/winston-couchdb.js:280-282 | a feed error is re-emitted as a stream error (`Step` on an error) |
| LiveTail.TailStream.Destroy | lib/winston-couchdb.js:253-260 | sets `destroyed`, stops a running feed and never fails |

## Left out

- The cradle connection and its HTTP requests (`exists`, `create`, `get`, `save`, `view`, `info`, `changes`) are foreign I/O. The mock database records each request, and its outcome is an input. The `changes` subscription appears as the stream's `Running` feed, not as a request in the trace. The cradle library is not part of this model.
- Asynchrony and interleaving are not modelled. Provisioning runs to completion inside the call that starts it. In the code, the first `log` save or `info` request goes out before the `exists` reply arrives. Two overlapping calls on one instance are not modelled either.
- Winston plumbing is left out: `Transport.call`, `util.inherits`, registration on `winston.transports`, and the inherited `normalizeQuery`. `query` takes options already normalised, and the `silent` flag is a constructor parameter.
- The option-less forms `query(callback)` and `stream()`, and the optional `log` callback, are not modelled. An absent callback means the reply is dropped, which the model does not show.
- The empty `Number.isNaN` block in `query` is left out because it does nothing.
- `cycle.decycle` and `common.clone` are library calls. Metadata is taken to be a flat, acyclic map, so the copy is the metadata itself. Metadata that is not an object is excluded by its type.
- `Date` and `toISOString` are left out. A timestamp is an `Instant`, and the view's key order is the order of instants. The ISO-8601 text itself is not modelled.
- The view's map function runs on the server. `RecordWriter.Indexable` states what it needs from a document.
- Numbers are unbounded integers: there is no NaN, no fractions and no float rounding.
- Objects are maps, so key order is not modelled. Object identity is not modelled beyond the array `Project` works on in place.
- LiveTail.TailStream.OnInfo: on an `info` error with a truthy `start` other than -1, the code reads `info.update_seq` of an undefined `info` before checking the error, and throws. The model only reports the error, and computes `since` only on the success path.
- Node.js throws when an `error` event is emitted with no listener. Events are modelled as an appended log, so this is not modelled.

## Findings

| source | as written | input that shows it | evidently intended | confidence | as-written member | corrected member |
|---|---|---|---|---|---|---|
| lib/winston-couchdb.js:253-272 | the `info` callback subscribes to the change feed without looking at `destroyed` | call `stream()`, then `destroy()` before the `info` reply arrives, then deliver a change with params | a destroyed stream stays silent: the late reply is dropped | medium, not executed | LiveTail.DestroyBeforeInfoStillEmits | LiveTail.NothingAfterDestroy |

`LiveTail.StepAsWritten` and `LiveTail.RunAsWritten` model the code as
written. `LiveTail.Step` and `LiveTail.Run` model the corrected behaviour,
and `LiveTail.TailStream` follows them.
