/** What one provisioning run of `_ensureView` does to the database:
    check that it exists, create it if it does not, look for the
    `_design/Logs` document, and save it if it could not be read. */
module Provisioner {
  import opened Values
  import opened Store

  /** The errors the four provisioning requests report (`None`: success). */
  datatype ProvisionFaults = ProvisionFaults(
    existsFault: Option<Error>,
    createFault: Option<Error>,
    getFault: Option<Error>,
    saveFault: Option<Error>)

  /** A provisioning run: the requests issued in order, the error passed to
      the continuation, and the database state afterwards. */
  datatype Provision = Provision(
    calls: seq<StoreCall>,
    result: Option<Error>,
    dbExists: bool,
    designPresent: bool)

  /** The run gets as far as reading the design document: the existence
      check succeeded and, if the database was missing, creating it did too. */
  predicate ReachesGet(dbExists: bool, io: ProvisionFaults) {
    io.existsFault.None? && (dbExists || io.createFault.None?)
  }

  /** The design document is (re)saved: it was reached and the read failed,
      for a missing document or any other reason. */
  predicate SavesDesign(dbExists: bool, designPresent: bool, io: ProvisionFaults) {
    ReachesGet(dbExists, io) && (io.getFault.Some? || !designPresent)
  }

  /** No request occurs twice in `calls`. */
  predicate Distinct(calls: seq<StoreCall>) {
    forall i, j :: 0 <= i < j < |calls| ==> calls[i] != calls[j]
  }

  /** A request occurs at most once in a trace without repetitions. */
  lemma {:induction false} DistinctCountsOnce(calls: seq<StoreCall>, c: StoreCall)
    requires Distinct(calls)
    ensures Count(calls, c) <= 1
  {
    if calls != [] {
      assert Distinct(calls[1..]) by {
        forall i, j | 0 <= i < j < |calls[1..]| ensures calls[1..][i] != calls[1..][j] {
          assert calls[1..][i] == calls[i + 1] && calls[1..][j] == calls[j + 1];
        }
      }
      DistinctCountsOnce(calls[1..], c);
      if calls[0] == c {
        assert c !in calls[1..] by {
          forall i | 0 <= i < |calls[1..]| ensures calls[1..][i] != c {
            assert calls[1..][i] == calls[i + 1];
          }
        }
      }
    }
  }

  /** One provisioning run against a database in state (`dbExists`, `designPresent`). */
  function Provisioning(dbExists: bool, designPresent: bool, io: ProvisionFaults): (p: Provision)
    // the existence check comes first, and every step is issued at most once
    ensures |p.calls| >= 1 && p.calls[0] == Exists
    ensures Distinct(p.calls)
    // the database is created only when it was reported absent
    ensures Create in p.calls <==> io.existsFault.None? && !dbExists
    // an exists error goes to the continuation and stops the run
    ensures io.existsFault.Some? ==> p.calls == [Exists] && p.result == io.existsFault
    // a create error goes to the continuation and stops the run
    ensures Create in p.calls && io.createFault.Some? ==>
              p.calls == [Exists, Create] && p.result == io.createFault
    // the design document is saved only when the read failed; that failure is not reported
    ensures GetDesign in p.calls <==> ReachesGet(dbExists, io)
    ensures SaveDesign in p.calls <==> SavesDesign(dbExists, designPresent, io)
    ensures ReachesGet(dbExists, io) && !SavesDesign(dbExists, designPresent, io) ==> p.result.None?
    // the save's result is the run's result
    ensures SaveDesign in p.calls ==> p.result == io.saveFault
    // a run that reports success leaves database and view in place
    ensures p.result.None? ==> p.dbExists && p.designPresent
    // nothing is ever deleted
    ensures (dbExists ==> p.dbExists) && (designPresent ==> p.designPresent)
  {
    if io.existsFault.Some? then
      Provision([Exists], io.existsFault, dbExists, designPresent)
    else if !dbExists && io.createFault.Some? then
      Provision([Exists, Create], io.createFault, dbExists, designPresent)
    else if io.getFault.None? && designPresent then
      Provision(if dbExists then [Exists, GetDesign] else [Exists, Create, GetDesign], None, true, true)
    else
      Provision(if dbExists then [Exists, GetDesign, SaveDesign] else [Exists, Create, GetDesign, SaveDesign],
                io.saveFault, true, designPresent || io.saveFault.None?)
  }

  /** What a call of `_ensureView` does given the one-shot flag: nothing at all
      once the flag is set, a full provisioning run otherwise. */
  function OnFirstUse(ensured: bool, dbExists: bool, designPresent: bool, io: ProvisionFaults): (p: Provision)
    ensures ensured ==> p.calls == [] && p.result.None? && p.dbExists == dbExists && p.designPresent == designPresent
    ensures !ensured ==> p == Provisioning(dbExists, designPresent, io)
  {
    if ensured then Provision([], None, dbExists, designPresent) else Provisioning(dbExists, designPresent, io)
  }

  /** Provisioning is idempotent on the database: after a successful run a
      second run (by a new transport instance) only checks, and changes nothing. */
  lemma ProvisioningSettles(dbExists: bool, designPresent: bool, io: ProvisionFaults, io2: ProvisionFaults)
    requires Provisioning(dbExists, designPresent, io).result.None?
    requires io2.existsFault.None? && io2.getFault.None?
    ensures var p := Provisioning(dbExists, designPresent, io);
            Provisioning(p.dbExists, p.designPresent, io2) == Provision([Exists, GetDesign], None, true, true)
  {
  }
}
