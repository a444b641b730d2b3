/** The `Couchdb` transport object: its fixed settings, the one-shot
    `_ensuredView` flag, the memoised client, and the operations `log`,
    `query` and `stream` built on them. */
module Transport {
  import opened Values
  import opened Config
  import opened RecordWriter
  import opened RangeQuery
  import opened Store
  import opened Provisioner
  import opened LiveTail

  /** What the memoised client is opened with. */
  datatype Connection = Connection(host: Value, port: Value, secure: bool, auth: Value, db: Value)

  function ConnectionOf(c: Settings): Connection {
    Connection(c.host, c.port, c.secure, c.auth, c.db)
  }

  /** Appending a request outside provisioning keeps the invariant. */
  lemma OtherRequestKeepsInvariant(calls: seq<StoreCall>, c: StoreCall)
    requires c !in {Exists, Create, SaveDesign}
    requires Count(calls, Exists) <= 1 && Count(calls, Create) <= 1 && Count(calls, SaveDesign) <= 1
    ensures Count(calls + [c], Exists) <= 1 && Count(calls + [c], Create) <= 1 && Count(calls + [c], SaveDesign) <= 1
  {
    CountAppend(calls, [c], Exists);
    CountAppend(calls, [c], Create);
    CountAppend(calls, [c], SaveDesign);
  }

  /** A trace without repetitions keeps the invariant's bounds. */
  lemma DistinctRequestsKeepInvariant(calls: seq<StoreCall>)
    requires Distinct(calls)
    ensures Count(calls, Exists) <= 1 && Count(calls, Create) <= 1 && Count(calls, SaveDesign) <= 1
  {
    DistinctCountsOnce(calls, Exists);
    DistinctCountsOnce(calls, Create);
    DistinctCountsOnce(calls, SaveDesign);
  }

  /** A run that gets past the database check is that check followed by the view steps. */
  lemma ProvisioningUnfolds(dbExists: bool, designPresent: bool, io: ProvisionFaults, checked: seq<StoreCall>)
    requires ReachesGet(dbExists, io)
    requires checked == if dbExists then [Exists] else [Exists, Create]
    ensures var p := Provisioning(dbExists, designPresent, io);
            var saves := io.getFault.Some? || !designPresent;
            && p.calls == checked + (if saves then [GetDesign, SaveDesign] else [GetDesign])
            && p.result == (if saves then io.saveFault else None)
            && p.dbExists
            && p.designPresent == (designPresent || (saves && io.saveFault.None?))
  {
  }

  class Couchdb {
    const settings: Settings
    const silent: bool
    /** The database this instance talks to. */
    const store: MockStore
    var ensuredView: bool
    var client: Option<Connection>
    /** The `error` and `logged` events emitted so far. */
    var events: seq<Event>

    /** No request reaches the database before the one-shot flag is set, and
        over the instance's lifetime the database is checked, created and
        given its design document at most once each. */
    ghost predicate StoreInvariant()
      reads this, store
    {
      && (!ensuredView ==> store.calls == [])
      && Count(store.calls, Exists) <= 1
      && Count(store.calls, Create) <= 1
      && Count(store.calls, SaveDesign) <= 1
    }

    /** The memoised client, once it exists, is opened with the
        instance's settings. */
    ghost predicate ClientOk()
      reads this
    {
      client.Some? ==> client.value == ConnectionOf(settings)
    }

    /** The store invariant, the client's settings, and: the client exists
        exactly once the flag is set. */
    ghost predicate Valid()
      reads this, store
    {
      StoreInvariant() && ClientOk() && (ensuredView <==> client.Some?)
    }

    /** What a call of `_ensureView` would do to the database now. */
    ghost function Pending(io: ProvisionFaults): Provision
      reads this, store
    {
      OnFirstUse(ensuredView, store.dbExists, store.designDocPresent, io)
    }

    constructor (options: Options, silent: bool, dbExists: bool, designDocPresent: bool)
      ensures Valid()
      ensures settings == Configure(options) && this.silent == silent
      ensures fresh(store) && store.dbExists == dbExists && store.designDocPresent == designDocPresent
      ensures store.calls == [] && store.logDocs == []
      ensures !ensuredView && client.None? && events == []
    {
      settings := Configure(options);
      this.silent := silent;
      store := new MockStore(dbExists, designDocPresent);
      ensuredView := false;
      client := None;
      events := [];
    }

    /** `_ensureView`: a no-op once the flag is set; otherwise it sets the
        flag before any request and runs the provisioning steps. The flag is
        never reset, even when a step fails. */
    method EnsureView(io: ProvisionFaults) returns (err: Option<Error>)
      requires StoreInvariant() && ClientOk() && (ensuredView ==> client.Some?)
      modifies this, store
      decreases if ensuredView then 0 else 4
      ensures Valid() && ensuredView
      ensures events == old(events) && store.logDocs == old(store.logDocs)
      ensures var p := old(Pending(io));
              && store.calls == old(store.calls) + p.calls
              && err == p.result
              && store.dbExists == p.dbExists
              && store.designDocPresent == p.designPresent
    {
      if ensuredView {
        return None;
      }
      ensuredView := true;
      err := CheckDb(io);
    }

    /** `checkDB`: ask whether the database exists, create it if it does
        not, then go on to `checkView`. */
    method CheckDb(io: ProvisionFaults) returns (err: Option<Error>)
      requires StoreInvariant() && ClientOk() && ensuredView && store.calls == []
      modifies this, store
      decreases 3
      ensures Valid()
      ensures events == old(events) && store.logDocs == old(store.logDocs)
      ensures var p := Provisioning(old(store.dbExists), old(store.designDocPresent), io);
              && store.calls == p.calls
              && err == p.result
              && store.dbExists == p.dbExists
              && store.designDocPresent == p.designPresent
    {
      ghost var dbWas, designWas := store.dbExists, store.designDocPresent;
      EnsureClient(io);
      var present := store.CheckExists(io.existsFault);
      if present.Failure? {
        return Some(present.error);
      }
      assert store.calls == [Exists];
      if !present.value {
        DistinctRequestsKeepInvariant(store.calls);
        EnsureClient(io);
        err := store.CreateDb(io.createFault);
        if err.Some? {
          return;
        }
        assert store.calls == [Exists, Create];
      }
      DistinctRequestsKeepInvariant(store.calls);
      ghost var checked := store.calls;
      err := CheckView(io);
      ProvisioningUnfolds(dbWas, designWas, io, checked);
    }

    /** `checkView` and `save`: read the design document, and save it when
        the read failed or came back empty. The read's error is dropped; the
        save's result is passed on. */
    method CheckView(io: ProvisionFaults) returns (err: Option<Error>)
      requires Valid() && ensuredView && store.dbExists
      requires store.calls == [Exists] || store.calls == [Exists, Create]
      modifies this, store
      decreases 2
      ensures Valid()
      ensures events == old(events) && store.logDocs == old(store.logDocs) && store.dbExists
      ensures var saves := io.getFault.Some? || !old(store.designDocPresent);
              && store.calls == old(store.calls) + (if saves then [GetDesign, SaveDesign] else [GetDesign])
              && err == (if saves then io.saveFault else None)
              && store.designDocPresent == (old(store.designDocPresent) || (saves && io.saveFault.None?))
    {
      EnsureClient(io);
      var design := store.GetDesignDoc(io.getFault);
      if design.Success? && design.value {
        return None;
      }
      DistinctRequestsKeepInvariant(store.calls);
      EnsureClient(io);
      err := store.SaveDesignDoc(io.saveFault);
      DistinctRequestsKeepInvariant(store.calls);
    }

    /** `_ensureClient`, the `client` getter: opens the client on first
        access, and that first access starts provisioning. */
    method EnsureClient(io: ProvisionFaults)
      requires StoreInvariant() && ClientOk() && (client.Some? ==> ensuredView)
      modifies this, store
      decreases (if ensuredView then 0 else 4) + (if client.Some? then 0 else 1)
      ensures Valid() && ensuredView
      ensures events == old(events) && store.logDocs == old(store.logDocs)
      ensures var p := old(Pending(io));
              && store.calls == old(store.calls) + p.calls
              && store.dbExists == p.dbExists
              && store.designDocPresent == p.designPresent
    {
      if client.Some? {
        return;
      }
      client := Some(ConnectionOf(settings));
      var ignored := EnsureView(io);
    }

    /** `log`: in silent mode reply at once without touching the database;
        otherwise save one document and report its outcome. */
    method Log(level: string, msg: string, meta: Option<Metadata>, now: Instant,
               saveFault: Option<Error>, io: ProvisionFaults) returns (reply: Reply)
      requires Valid()
      modifies this, store
      ensures Valid()
      ensures var step := RecordWriter.Log(silent, level, msg, meta, now, saveFault);
              reply == step.reply && events == old(events) + step.events
      ensures silent ==> store.calls == old(store.calls) && ensuredView == old(ensuredView)
      ensures silent ==> store.logDocs == old(store.logDocs) && store.dbExists == old(store.dbExists)
                         && store.designDocPresent == old(store.designDocPresent)
      ensures !silent ==> store.dbExists == old(Pending(io)).dbExists
                          && store.designDocPresent == old(Pending(io)).designPresent
      ensures !silent ==>
                var doc := LogDocument(LogResource, Params(level, msg, meta, now));
                && store.calls == old(store.calls) + old(Pending(io)).calls + [SaveLog(doc)]
                && store.logDocs == old(store.logDocs) + (if saveFault.None? then [doc] else [])
    {
      if silent {
        return Reply(None, true);
      }
      var params := Params(level, msg, meta, now);
      var doc := LogDocument(LogResource, params);
      EnsureClient(io);
      OtherRequestKeepsInvariant(store.calls, SaveLog(doc));
      var err := store.SaveLogDoc(doc, saveFault);
      if err.Some? {
        events := events + [ErrorEvent(err.value)];
        return Reply(err, false);
      }
      events := events + [Logged];
      reply := Reply(None, true);
    }

    /** `query`: provision first if the flag is not set (re-invoking itself
        once provisioning succeeds), then scan the view with the translated
        parameters and shape the rows. `runs` counts the invocations. */
    method Query(o: QueryOptions, io: ProvisionFaults, answer: Result<seq<LogDocument>, Error>)
      returns (r: Result<seq<Metadata>, Error>, runs: nat)
      requires Valid()
      modifies this, store
      decreases if ensuredView then 0 else 1
      ensures Valid()
      ensures events == old(events) && store.logDocs == old(store.logDocs)
      ensures runs <= 2
      ensures store.dbExists == old(Pending(io)).dbExists
              && store.designDocPresent == old(Pending(io)).designPresent
      ensures var p := old(Pending(io));
              p.result.Some? ==>
                r == Failure(p.result.value) && store.calls == old(store.calls) + p.calls && runs == 1
      ensures var p := old(Pending(io));
              p.result.None? ==>
                && store.calls == old(store.calls) + p.calls + [View(Translate(o))]
                && r == (if answer.Success? then Success(Shape(answer.value, o.fields)) else Failure(answer.error))
                && runs == (if old(ensuredView) then 1 else 2)
    {
      if !ensuredView {
        var err := EnsureView(io);
        if err.Some? {
          return Failure(err.value), 1;
        }
        var again;
        r, again := Query(o, io, answer);
        return r, again + 1;
      }
      var params := Translate(o);
      EnsureClient(io);
      OtherRequestKeepsInvariant(store.calls, View(params));
      var rows := store.QueryView(params, answer);
      if rows.Failure? {
        return Failure(rows.error), 1;
      }
      var docs := Unwrap(rows.value);
      if o.fields.Some? {
        var projected := new Metadata[|docs|](i requires 0 <= i < |docs| => docs[i]);
        Project(projected, o.fields.value);
        assert projected[..] == Shape(rows.value, o.fields);
        docs := projected[..];
      }
      return Success(docs), 1;
    }

    /** `stream`: create the stream, then ask the database for its update
        sequence; the reply reaches the stream later (`TailStream.OnInfo`). */
    method Stream(start: Value, io: ProvisionFaults) returns (s: TailStream)
      requires Valid()
      modifies this, store
      ensures Valid()
      ensures fresh(s) && s.start == start && s.State() == Fresh
      ensures events == old(events) && store.logDocs == old(store.logDocs)
      ensures store.calls == old(store.calls) + old(Pending(io)).calls + [Info]
      ensures store.dbExists == old(Pending(io)).dbExists
              && store.designDocPresent == old(Pending(io)).designPresent
    {
      s := new TailStream(start);
      EnsureClient(io);
      OtherRequestKeepsInvariant(store.calls, Info);
      store.RequestInfo();
    }
  }
}
