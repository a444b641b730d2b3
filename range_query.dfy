/** The range-query path of `query`: translating normalised query options
    into the view's range-scan parameters, unwrapping the rows the view
    returns, and projecting them onto the requested fields in place. */
module RangeQuery {
  import opened Values
  import opened RecordWriter

  /** Query options as they stand after normalisation. A count or offset of
      `0` is falsy and so means "not given"; `fields` is the requested
      projection, if any. */
  datatype QueryOptions = QueryOptions(
    rows: int,
    start: int,
    order: string,
    from: Option<Instant>,
    until: Option<Instant>,
    fields: Option<seq<string>>)

  /** The view parameters; `None` is a property left unset. */
  datatype ViewParams = ViewParams(
    limit: Option<int>,
    skip: Option<int>,
    descending: Option<bool>,
    startkey: Option<Instant>,
    endkey: Option<Instant>)

  /** The view's keys are the instants' ISO-8601 texts; ordering those is
      ordering the instants (see `Values.Instant`). */
  function Translate(o: QueryOptions): (p: ViewParams)
    // rows and start only when truthy: 0 means unset
    ensures p.limit == (if o.rows != 0 then Some(o.rows) else None)
    ensures p.skip == (if o.start != 0 then Some(o.start) else None)
    // descending order: descending scan, the later bound first
    ensures o.order == "desc" ==>
              p.descending == Some(true) && p.startkey == o.until && p.endkey == o.from
    // any other order: ascending scan, descending left unset
    ensures o.order != "desc" ==>
              p.descending.None? && p.startkey == o.from && p.endkey == o.until
  {
    var limit := if o.rows != 0 then Some(o.rows) else None;
    var skip := if o.start != 0 then Some(o.start) else None;
    if o.order == "desc" then
      ViewParams(limit, skip, Some(true), o.until, o.from)
    else
      ViewParams(limit, skip, None, o.from, o.until)
  }

  predicate Descending(p: ViewParams) {
    p.descending == Some(true)
  }

  /** The keys a scan with parameters `p` visits: from `startkey` to
      `endkey`, both included, walking up or down as `descending` says. */
  predicate InScan(p: ViewParams, k: Instant) {
    var lo := if Descending(p) then p.endkey else p.startkey;
    var hi := if Descending(p) then p.startkey else p.endkey;
    (lo.None? || NotAfter(lo.value, k)) && (hi.None? || NotAfter(k, hi.value))
  }

  /** The time window the options ask for: not before `from`, not after `until`. */
  predicate InWindow(o: QueryOptions, k: Instant) {
    (o.from.None? || NotAfter(o.from.value, k)) && (o.until.None? || NotAfter(k, o.until.value))
  }

  /** Whatever the order, the translated scan visits exactly the keys of the
      requested window, walking down exactly when the order is `desc`. */
  lemma ScanMatchesWindow(o: QueryOptions, k: Instant)
    ensures InScan(Translate(o), k) <==> InWindow(o, k)
    ensures Descending(Translate(o)) <==> o.order == "desc"
  {
  }

  /** The rows of the view are the stored log documents; each becomes its
      `params`. */
  function Unwrap(rows: seq<LogDocument>): (docs: seq<Metadata>)
    ensures |docs| == |rows|
    ensures forall i :: 0 <= i < |rows| ==> docs[i] == rows[i].params
  {
    seq(|rows|, i requires 0 <= i < |rows| => rows[i].params)
  }

  /** A document with every key outside `fields` removed. */
  function Restrict(doc: Metadata, fields: seq<string>): (r: Metadata)
    ensures forall k :: k in r <==> k in doc && k in fields
    ensures forall k :: k in r ==> r[k] == doc[k]
  {
    map k | k in doc && k in fields :: doc[k]
  }

  /** The documents a successful query hands to its continuation. */
  function Shape(rows: seq<LogDocument>, fields: Option<seq<string>>): (docs: seq<Metadata>)
    ensures |docs| == |rows|
    ensures fields.None? ==> docs == Unwrap(rows)
    ensures fields.Some? ==> forall i :: 0 <= i < |rows| ==> docs[i] == Restrict(rows[i].params, fields.value)
  {
    match fields
    case None => Unwrap(rows)
    case Some(fs) => seq(|rows|, i requires 0 <= i < |rows| => Restrict(rows[i].params, fs))
  }

  /** `doc` with the keys still to be visited kept provisionally. */
  function KeptSoFar(doc: Metadata, toVisit: set<string>, fields: seq<string>): Metadata {
    map k | k in doc && (k in toVisit || k in fields) :: doc[k]
  }

  /** The nested `forEach` loops of `query`: every key of every document
      that is not among `fields` is deleted, in place. */
  method Project(docs: array<Metadata>, fields: seq<string>)
    modifies docs
    ensures forall i :: 0 <= i < docs.Length ==> docs[i] == Restrict(old(docs[i]), fields)
  {
    for i := 0 to docs.Length
      invariant forall j :: 0 <= j < i ==> docs[j] == Restrict(old(docs[j]), fields)
      invariant forall j :: i <= j < docs.Length ==> docs[j] == old(docs[j])
    {
      ghost var doc := docs[i];
      var keys := docs[i].Keys;
      assert docs[i] == KeptSoFar(doc, keys, fields);
      while keys != {}
        invariant keys <= doc.Keys
        invariant docs[i] == KeptSoFar(doc, keys, fields)
        invariant forall j :: i < j < docs.Length ==> docs[j] == old(docs[j])
        invariant forall j :: 0 <= j < i ==> docs[j] == Restrict(old(docs[j]), fields)
        decreases keys
      {
        var key :| key in keys;
        if key !in fields {
          docs[i] := docs[i] - {key};
        }
        keys := keys - {key};
        assert docs[i] == KeptSoFar(doc, keys, fields);
      }
      assert docs[i] == Restrict(doc, fields);
    }
  }

  /** Projecting twice onto the same fields changes nothing the second time. */
  lemma RestrictIdempotent(doc: Metadata, fields: seq<string>)
    ensures Restrict(Restrict(doc, fields), fields) == Restrict(doc, fields)
  {
  }

  /** A record written by `log` reads back through the view: unprojected it
      is exactly the saved parameters, projected onto `level` it is just the
      level. */
  lemma WrittenRecordReadsBack(level: string, msg: string, meta: Option<Metadata>, now: Instant)
    ensures var doc := RecordWriter.Log(false, level, msg, meta, now, None).saved.value;
            && Shape([doc], None) == [Params(level, msg, meta, now)]
            && Shape([doc], Some(["level"])) == [map["level" := Str(level)]]
  {
    var doc := RecordWriter.Log(false, level, msg, meta, now, None).saved.value;
    assert Restrict(doc.params, ["level"]) == map["level" := Str(level)];
  }
}
