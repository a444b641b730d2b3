/** A stand-in for the CouchDB database the transport talks to. It keeps
    the little state the transport's decisions depend on (does the database
    exist, is the design document there), the log documents saved so far,
    and the trace of every request issued to it. Whether a request fails is
    an input of each request (its `fault`). */
module Store {
  import opened Values
  import opened RecordWriter
  import opened RangeQuery

  /** A request issued to the database. */
  datatype StoreCall =
    | Exists
    | Create
    | GetDesign
    | SaveDesign
    | SaveLog(doc: LogDocument)
    | View(params: ViewParams)
    | Info

  /** How many times `c` occurs in the trace `calls`. */
  function Count(calls: seq<StoreCall>, c: StoreCall): (n: nat)
    ensures n <= |calls|
    ensures n == 0 <==> c !in calls
  {
    if calls == [] then 0
    else (if calls[0] == c then 1 else 0) + Count(calls[1..], c)
  }

  /** Counting distributes over the concatenation of traces. */
  lemma {:induction false} CountAppend(a: seq<StoreCall>, b: seq<StoreCall>, c: StoreCall)
    ensures Count(a + b, c) == Count(a, c) + Count(b, c)
  {
    if a != [] {
      assert (a + b)[1..] == a[1..] + b;
      CountAppend(a[1..], b, c);
    } else {
      assert a + b == b;
    }
  }

  class MockStore {
    var dbExists: bool
    var designDocPresent: bool
    var logDocs: seq<LogDocument>
    var calls: seq<StoreCall>

    constructor (dbExists: bool, designDocPresent: bool)
      ensures this.dbExists == dbExists && this.designDocPresent == designDocPresent
      ensures logDocs == [] && calls == []
    {
      this.dbExists := dbExists;
      this.designDocPresent := designDocPresent;
      logDocs := [];
      calls := [];
    }

    /** `exists`: whether the database exists. */
    method CheckExists(fault: Option<Error>) returns (r: Result<bool, Error>)
      modifies this
      ensures calls == old(calls) + [Exists]
      ensures r == (if fault.Some? then Failure(fault.value) else Success(dbExists))
      ensures dbExists == old(dbExists) && designDocPresent == old(designDocPresent) && logDocs == old(logDocs)
    {
      calls := calls + [Exists];
      r := if fault.Some? then Failure(fault.value) else Success(dbExists);
    }

    /** `create`: create the database. */
    method CreateDb(fault: Option<Error>) returns (err: Option<Error>)
      modifies this
      ensures calls == old(calls) + [Create] && err == fault
      ensures dbExists == (old(dbExists) || fault.None?)
      ensures designDocPresent == old(designDocPresent) && logDocs == old(logDocs)
    {
      calls := calls + [Create];
      if fault.None? { dbExists := true; }
      err := fault;
    }

    /** `get('_design/Logs')`: `Success(true)` when the document came back;
        a missing document is reported as `NotFound`, as CouchDB does. */
    method GetDesignDoc(fault: Option<Error>) returns (r: Result<bool, Error>)
      modifies this
      ensures calls == old(calls) + [GetDesign]
      ensures r == (if fault.Some? then Failure(fault.value)
                    else if designDocPresent then Success(true) else Failure(NotFound))
      ensures dbExists == old(dbExists) && designDocPresent == old(designDocPresent) && logDocs == old(logDocs)
    {
      calls := calls + [GetDesign];
      r := if fault.Some? then Failure(fault.value)
           else if designDocPresent then Success(true) else Failure(NotFound);
    }

    /** `save('_design/Logs', ...)`: store the design document with the view. */
    method SaveDesignDoc(fault: Option<Error>) returns (err: Option<Error>)
      modifies this
      ensures calls == old(calls) + [SaveDesign] && err == fault
      ensures designDocPresent == (old(designDocPresent) || fault.None?)
      ensures dbExists == old(dbExists) && logDocs == old(logDocs)
    {
      calls := calls + [SaveDesign];
      if fault.None? { designDocPresent := true; }
      err := fault;
    }

    /** `save(doc)`: store a log document. */
    method SaveLogDoc(doc: LogDocument, fault: Option<Error>) returns (err: Option<Error>)
      modifies this
      ensures calls == old(calls) + [SaveLog(doc)] && err == fault
      ensures logDocs == old(logDocs) + (if fault.None? then [doc] else [])
      ensures dbExists == old(dbExists) && designDocPresent == old(designDocPresent)
    {
      calls := calls + [SaveLog(doc)];
      if fault.None? { logDocs := logDocs + [doc]; }
      err := fault;
    }

    /** `view('Logs/byTimestamp', params)`: the rows are whatever the server
        answers, handed in as `answer`. */
    method QueryView(params: ViewParams, answer: Result<seq<LogDocument>, Error>)
      returns (r: Result<seq<LogDocument>, Error>)
      modifies this
      ensures calls == old(calls) + [View(params)] && r == answer
      ensures dbExists == old(dbExists) && designDocPresent == old(designDocPresent) && logDocs == old(logDocs)
    {
      calls := calls + [View(params)];
      r := answer;
    }

    /** `info()`: ask for the database's current update sequence. The reply
        reaches the requester later, as a step of its own. */
    method RequestInfo()
      modifies this
      ensures calls == old(calls) + [Info]
      ensures dbExists == old(dbExists) && designDocPresent == old(designDocPresent) && logDocs == old(logDocs)
    {
      calls := calls + [Info];
    }
  }
}
