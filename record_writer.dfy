/** The record writer: what `log` saves and how it reports the save. */
module RecordWriter {
  import opened Values

  /** Metadata, after cycles are broken and it is copied: a flat map. */
  type Metadata = map<string, Value>

  /** A document as it is saved: `{resource: 'log', params}`. */
  datatype LogDocument = LogDocument(resource: string, params: Metadata)

  /** What the transport emits on itself. */
  datatype Event = ErrorEvent(error: Error) | Logged

  /** The arguments the continuation is called with: `(err, ok)`. */
  datatype Reply = Reply(error: Option<Error>, ok: bool)

  /** Everything one `log` call does, given what the save reported:
      the document it saves (if any), the events it emits, its reply. */
  datatype LogStep = LogStep(saved: Option<LogDocument>, events: seq<Event>, reply: Reply)

  const LogResource := "log"

  /** The keys `log` always sets on the parameters. */
  const ReservedKeys := {"timestamp", "message", "level"}

  /** The keys a metadata argument contributes; absent metadata contributes none. */
  function MetaKeys(meta: Option<Metadata>): set<string> {
    if meta.Some? then meta.value.Keys else {}
  }

  /** The `params` object: a copy of the metadata (or `{}` when there is none)
      with `timestamp`, `message` and `level` set from the call. */
  function Params(level: string, msg: string, meta: Option<Metadata>, now: Instant): (p: Metadata)
    ensures p.Keys == MetaKeys(meta) + ReservedKeys
    ensures p["timestamp"] == Date(now) && p["message"] == Str(msg) && p["level"] == Str(level)
    ensures forall k :: k in MetaKeys(meta) && k !in ReservedKeys ==> p[k] == meta.value[k]
  {
    var copy := if meta.Some? then meta.value else map[];
    copy["timestamp" := Date(now)]["message" := Str(msg)]["level" := Str(level)]
  }

  /** A document the timestamp view indexes: tagged as a log and carrying
      a `params.timestamp` that is an instant. */
  predicate Indexable(doc: LogDocument) {
    doc.resource == LogResource && "timestamp" in doc.params && doc.params["timestamp"].Date?
  }

  /** One call of `log`, given the error the save reported (`None` for success).
      In silent mode nothing is saved and the outcome does not look at `saveError`. */
  function Log(silent: bool, level: string, msg: string, meta: Option<Metadata>, now: Instant,
               saveError: Option<Error>): (s: LogStep)
    // silent mode: no save, no event, success
    ensures silent ==> s.saved.None? && s.events == [] && s.reply == Reply(None, true)
    // otherwise exactly one save, of an indexable log document carrying the call
    ensures !silent ==> s.saved == Some(LogDocument(LogResource, Params(level, msg, meta, now)))
    ensures s.saved.Some? ==> Indexable(s.saved.value)
    // a failed save: one 'error' event carrying the error, reply (err, false)
    ensures !silent && saveError.Some? ==>
              s.events == [ErrorEvent(saveError.value)] && s.reply == Reply(saveError, false)
    // a successful save: one 'logged' event, reply (null, true)
    ensures !silent && saveError.None? ==> s.events == [Logged] && s.reply == Reply(None, true)
    // the reply reports success exactly when it carries no error
    ensures s.reply.ok <==> s.reply.error.None?
  {
    if silent then
      LogStep(None, [], Reply(None, true))
    else
      var doc := LogDocument(LogResource, Params(level, msg, meta, now));
      match saveError
      case Some(err) => LogStep(Some(doc), [ErrorEvent(err)], Reply(Some(err), false))
      case None => LogStep(Some(doc), [Logged], Reply(None, true))
  }

  /** Without metadata the parameters hold exactly the three keys of the call. */
  lemma ParamsWithoutMetadata(level: string, msg: string, now: Instant)
    ensures Params(level, msg, None, now) ==
            map["timestamp" := Date(now), "message" := Str(msg), "level" := Str(level)]
  {
  }
}
