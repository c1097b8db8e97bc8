/** The first-generation Azure ledger, azure_billing/db.py: no billing period, every
    BilledHost row ever written counts as billed, and marking hosts saves nothing. */
module AzureDbV1 {
  import opened Wrappers
  import opened Calendar
  import opened HostQuery
  import opened Records

  /** A BilledHost row of this schema. */
  datatype V1BilledHost = V1BilledHost(hostName: string, billedDate: Timestamp)

  /** The billing data this generation records: the host list itself, not its join. */
  datatype V1BillingData = V1BillingData(
    hosts: seq<string>,
    dimension: string,
    managedAppId: string,
    resourceId: Option<string>,
    plan: Option<string>,
    usageEventId: string)

  /** Every name in the BilledHost table (`BilledHost.objects.all()`). */
  function BilledNames(rows: seq<V1BilledHost>): set<string> {
    set i | 0 <= i < |rows| :: rows[i].hostName
  }

  /** The row `recordBillingInstance` (db.py:78-92) saves: the hosts joined with commas
      and their number as the quantity. */
  function V1RecordRow(data: V1BillingData, now: Timestamp): (r: BillingRecord)
    ensures r.billedDate == now && r.dimension == data.dimension && r.managedAppId == data.managedAppId
    ensures r.resourceId == data.resourceId && r.plan == data.plan && r.usageEventId == data.usageEventId
    ensures r.quantity == |data.hosts|
    ensures |data.hosts| >= 1 && (forall i :: 0 <= i < |data.hosts| ==> ',' !in data.hosts[i]) ==>
      Split(r.hosts, ',') == data.hosts
  {
    var r := BillingRecord(now, Join(data.hosts, ','), data.dimension, |data.hosts|, data.managedAppId,
                           data.resourceId, data.plan, data.usageEventId);
    if |data.hosts| >= 1 && (forall i :: 0 <= i < |data.hosts| ==> ',' !in data.hosts[i]) then
      SplitJoin(data.hosts, ',');
      r
    else
      r
  }

  /** A host that ran again after it was billed is still not reported: the branch of
      db.py:59-62 that notices it does nothing. */
  lemma ReexecutedHostNotReported(executions: seq<Execution>, rows: seq<V1BilledHost>, i: int, j: int)
    requires 0 <= i < |executions| && 0 <= j < |rows|
    requires executions[i].hostName == rows[j].hostName && Before(rows[j].billedDate, executions[i].modified)
    ensures executions[i].hostName !in WithoutNames(DedupNames(AllNames(executions)), BilledNames(rows))
  {
  }

  /** The first-generation Azure billing database. */
  class V1Ledger {
    var billed: seq<V1BilledHost>
    var records: seq<BillingRecord>

    /** An empty database. */
    constructor ()
      ensures billed == [] && records == []
    {
      billed := [];
      records := [];
    }

    /** `getUnbilledHosts` (db.py:40-66): each executed host once, minus every host with
        a BilledHost row, whenever it ran. */
    method GetUnbilledHosts(executions: seq<Execution>) returns (newHosts: seq<string>)
      ensures newHosts == WithoutNames(DedupNames(AllNames(executions)), BilledNames(billed))
      ensures Distinct(newHosts)
      ensures forall x :: x in newHosts <==>
        (exists i :: 0 <= i < |executions| && executions[i].hostName == x) && x !in BilledNames(billed)
    {
      var executed := DedupNames(AllNames(executions));
      newHosts := CollectNewHosts(executed, BilledNames(billed));
      forall x | x in newHosts
        ensures exists i :: 0 <= i < |executions| && executions[i].hostName == x
      {
        var i :| 0 <= i < |executions| && AllNames(executions)[i] == x;
      }
    }

    /** `markHostsBilled` (db.py:69-75): builds a row per host but saves none. */
    method MarkHostsBilled(hosts: seq<string>, now: Timestamp)
      ensures billed == old(billed)
    {
      var i := 0;
      while i < |hosts|
        invariant 0 <= i <= |hosts|
      {
        var row := V1BilledHost(hosts[i], now);
        i := i + 1;
      }
    }

    /** `recordBillingInstance` (db.py:78-92). */
    method RecordBillingInstance(data: V1BillingData, now: Timestamp)
      modifies this`records
      ensures records == old(records) + [V1RecordRow(data, now)]
    {
      records := records + [V1RecordRow(data, now)];
    }
  }
}
