/** The Azure-only ledger, azure_billing/db/db.py: an install date, a stored rollover
    date that ends the current billing period, the BilledHost and BillingRecord tables. */
module AzureDb {
  import opened Wrappers
  import opened Calendar
  import opened HostQuery
  import opened Records

  /** A BilledHost row; `billedDate` is nullable in this schema. */
  datatype AzureBilledHost = AzureBilledHost(hostName: string, billedDate: Option<Timestamp>, rolloverDate: Option<Timestamp>)

  predicate IsOpen(row: AzureBilledHost) {
    row.rolloverDate.None?
  }

  /** Names of the rows not yet rolled over. */
  function OpenHostNames(rows: seq<AzureBilledHost>): set<string> {
    set i | 0 <= i < |rows| && IsOpen(rows[i]) :: rows[i].hostName
  }

  /** The rollover date `getRolloverDate` computes (db.py:52-63): the first of the month
      after `current` moved to the install day, clamped to that month's last day, with
      the time of day of `current`. */
  function NextRolloverDate(current: Timestamp, install: Timestamp): (r: Timestamp)
    ensures MonthIndex(r.date) == MonthIndex(current.date) + 1
    ensures r.date.day == Min(install.date.day, DaysInMonth(r.date.year, r.date.month))
    ensures r.seconds == current.seconds
  {
    var next := AddMonths(FirstOfMonth(current.date), 1);
    var daysNextMonth := DaysInMonth(next.year, next.month);
    var day := if install.date.day > daysNextMonth then daysNextMonth else install.date.day;
    DateTime(Date(next.year, next.month, day), current.seconds)
  }

  /** `checkRolloverNeeded` (db.py:86-91): today's date is on or after the rollover date.
      The time of day is ignored: a rollover is due from the start of its day. */
  function CheckRolloverNeeded(rollover: Timestamp, now: Timestamp): (due: bool)
    ensures due <==> !Before(DateTime(now.date, EndOfDay), rollover)
    ensures !Before(now, rollover) ==> due
    ensures MonthIndex(now.date) < MonthIndex(rollover.date) ==> !due
    ensures MonthIndex(now.date) > MonthIndex(rollover.date) ==> due
  {
    !DateBefore(now.date, rollover.date)
  }

  /** The computed rollover date is later than `current` and, because it is never in the
      month of `current`, no check made in that month asks for a rollover. */
  lemma NoPrematureRollover(current: Timestamp, install: Timestamp, now: Timestamp)
    requires MonthIndex(now.date) <= MonthIndex(current.date)
    ensures Before(current, NextRolloverDate(current, install))
    ensures !CheckRolloverNeeded(NextRolloverDate(current, install), now)
  {
    var r := NextRolloverDate(current, install);
    MonthIndexOrder(current, r);
    MonthIndexOrder(now, r);
  }

  /** In the month after `current`, a rollover is due exactly from the computed day on;
      in any later month it is always due. */
  lemma RolloverDueFromComputedDay(current: Timestamp, install: Timestamp, now: Timestamp)
    requires MonthIndex(now.date) > MonthIndex(current.date)
    ensures MonthIndex(now.date) == MonthIndex(current.date) + 1 ==>
      (CheckRolloverNeeded(NextRolloverDate(current, install), now) <==> now.date.day >= Min(install.date.day, DaysInMonth(now.date.year, now.date.month)))
    ensures MonthIndex(now.date) > MonthIndex(current.date) + 1 ==> CheckRolloverNeeded(NextRolloverDate(current, install), now)
  {
    var r := NextRolloverDate(current, install);
    if MonthIndex(now.date) > MonthIndex(current.date) + 1 {
      MonthIndexOrder(r, now);
    } else {
      assert now.date.year == r.date.year && now.date.month == r.date.month;
    }
  }

  /** azure_billing/tests/testBilling.py:193-217: with today 2022-01-15 the rollover
      date is in February on the install day, or on the 28th for install days past it. */
  lemma RolloverSpecialExample(d: int)
    requires 1 <= d <= 31
    ensures NextRolloverDate(DateTime(Date(2022, 1, 15), 0), DateTime(Date(2022, 1, d), 0)).date
      == Date(2022, 2, if d <= 28 then d else 28)
  {
    var r := NextRolloverDate(DateTime(Date(2022, 1, 15), 0), DateTime(Date(2022, 1, d), 0));
    assert r.date.year == 2022 && r.date.month == 2;
  }

  /** azure_billing/tests/testBilling.py:108-113: after the rollover on 2022-02-07 for an
      install on the first, the next rollover date is 2022-03-01. */
  lemma RolloverExampleMarch()
    ensures NextRolloverDate(DateTime(Date(2022, 2, 7), 0), DateTime(Date(2022, 1, 1), 0)).date == Date(2022, 3, 1)
  {
    var r := NextRolloverDate(DateTime(Date(2022, 2, 7), 0), DateTime(Date(2022, 1, 1), 0));
    assert r.date.year == 2022 && r.date.month == 3;
  }

  /** The bulk update of `rollover` (db.py:98-100): open rows that have a billed date get
      `rollover_date = now`; open rows never billed stay open. */
  function CloseBilledRows(rows: seq<AzureBilledHost>, now: Timestamp): (r: seq<AzureBilledHost>)
    ensures |r| == |rows|
    ensures forall i :: 0 <= i < |rows| ==>
      r[i] == if IsOpen(rows[i]) && rows[i].billedDate.Some? then rows[i].(rolloverDate := Some(now)) else rows[i]
  {
    seq(|rows|, i requires 0 <= i < |rows| =>
      if IsOpen(rows[i]) && rows[i].billedDate.Some? then rows[i].(rolloverDate := Some(now)) else rows[i])
  }

  /** After a rollover the open rows are exactly the open rows that were never billed:
      a billed host is counted afresh, one still waiting to be billed is kept. */
  lemma CloseBilledRowsKeepsUnbilled(rows: seq<AzureBilledHost>, now: Timestamp)
    ensures forall i :: 0 <= i < |rows| ==>
      (IsOpen(CloseBilledRows(rows, now)[i]) <==> IsOpen(rows[i]) && rows[i].billedDate.None?)
    ensures forall i :: 0 <= i < |rows| ==>
      CloseBilledRows(rows, now)[i].hostName == rows[i].hostName && CloseBilledRows(rows, now)[i].billedDate == rows[i].billedDate
    ensures OpenHostNames(CloseBilledRows(rows, now)) ==
      set i | 0 <= i < |rows| && IsOpen(rows[i]) && rows[i].billedDate.None? :: rows[i].hostName
  {
    var r := CloseBilledRows(rows, now);
    forall x | x in OpenHostNames(r)
      ensures x in set i | 0 <= i < |rows| && IsOpen(rows[i]) && rows[i].billedDate.None? :: rows[i].hostName
    {
      var i :| 0 <= i < |r| && IsOpen(r[i]) && r[i].hostName == x;
      assert IsOpen(rows[i]) && rows[i].billedDate.None?;
    }
  }

  /** The rows `markHostsBilled` saves (db.py:127-133). */
  function NewRows(hosts: seq<string>, now: Timestamp): (rows: seq<AzureBilledHost>)
    ensures |rows| == |hosts|
    ensures forall i :: 0 <= i < |hosts| ==> rows[i] == AzureBilledHost(hosts[i], Some(now), None)
  {
    seq(|hosts|, i requires 0 <= i < |hosts| => AzureBilledHost(hosts[i], Some(now), None))
  }

  /** Marked hosts are open rows with a billed date, so the next rollover closes them. */
  lemma MarkedHostsClosedByRollover(rows: seq<AzureBilledHost>, hosts: seq<string>, now: Timestamp, later: Timestamp)
    ensures forall h :: h in hosts ==> h in OpenHostNames(rows + NewRows(hosts, now))
    ensures forall i :: |rows| <= i < |rows| + |hosts| ==> !IsOpen(CloseBilledRows(rows + NewRows(hosts, now), later)[i])
  {
    var all := rows + NewRows(hosts, now);
    forall h | h in hosts ensures h in OpenHostNames(all) {
      var j :| 0 <= j < |hosts| && hosts[j] == h;
      assert all[|rows| + j].hostName == h && IsOpen(all[|rows| + j]);
    }
  }

  /** `getUnbilledHosts` is called with the rollover date, the END of the current period.
      While that date has not been reached and no execution is later than `now`, the
      query finds nothing, whatever was executed in the period. */
  lemma NothingUnbilledBeforeRolloverDate(executions: seq<Execution>, rollover: Timestamp, now: Timestamp, billed: set<string>)
    requires !CheckRolloverNeeded(rollover, now)
    requires forall i :: 0 <= i < |executions| ==> !Before(now, executions[i].modified)
    ensures UnbilledNames(executions, rollover, billed) == []
  {
  }

  /** The Azure billing database. */
  class AzureLedger {
    var installDate: Option<Timestamp>
    var rolloverDate: Option<Timestamp>
    var billed: seq<AzureBilledHost>
    var records: seq<BillingRecord>

    /** An empty database. */
    constructor ()
      ensures installDate == None && rolloverDate == None && billed == [] && records == []
    {
      installDate := None;
      rolloverDate := None;
      billed := [];
      records := [];
    }

    /** `getInstallDate` (db.py:74-83): the stored install date, created as `now` (time
        of day included) when absent. */
    method GetInstallDate(now: Timestamp) returns (d: Timestamp)
      modifies this`installDate
      ensures old(installDate).Some? ==> d == old(installDate).value && installDate == old(installDate)
      ensures old(installDate).None? ==> d == now && installDate == Some(now)
    {
      if installDate.None? {
        installDate := Some(now);
      }
      d := installDate.value;
    }

    /** `getRolloverDate` (db.py:47-71): seeds the install date, then returns the stored
        rollover date, or stores and returns the one computed from `current`. */
    method GetRolloverDate(current: Timestamp, now: Timestamp) returns (rd: Timestamp)
      modifies this`installDate, this`rolloverDate
      ensures installDate == Some(if old(installDate).Some? then old(installDate).value else now)
      ensures old(rolloverDate).Some? ==> rd == old(rolloverDate).value
      ensures old(rolloverDate).None? ==> rd == NextRolloverDate(current, installDate.value)
      ensures rolloverDate == Some(rd)
    {
      var install := GetInstallDate(now);
      var computed := NextRolloverDate(current, install);
      if rolloverDate.None? {
        rolloverDate := Some(computed);
      }
      rd := rolloverDate.value;
    }

    /** `rollover` (db.py:94-100): forget the rollover date and close the billed rows. */
    method Rollover(now: Timestamp)
      modifies this`rolloverDate, this`billed
      ensures rolloverDate == None
      ensures billed == CloseBilledRows(old(billed), now)
    {
      rolloverDate := None;
      billed := CloseBilledRows(billed, now);
    }

    /** `getUnbilledHosts` (db.py:103-124). */
    method GetUnbilledHosts(executions: seq<Execution>, start: DateTime) returns (newHosts: seq<string>)
      ensures newHosts == UnbilledNames(executions, start, OpenHostNames(billed))
      ensures Distinct(newHosts)
      ensures forall x :: x in newHosts <==> ExecutedAfter(executions, start, x) && x !in OpenHostNames(billed)
    {
      var executed := DedupNames(NamesExecutedAfter(executions, start));
      newHosts := CollectNewHosts(executed, OpenHostNames(billed));
    }

    /** `markHostsBilled` (db.py:127-133). */
    method MarkHostsBilled(hosts: seq<string>, now: Timestamp)
      modifies this`billed
      ensures billed == old(billed) + NewRows(hosts, now)
    {
      var i := 0;
      while i < |hosts|
        invariant 0 <= i <= |hosts|
        invariant billed == old(billed) + NewRows(hosts[..i], now)
      {
        billed := billed + [AzureBilledHost(hosts[i], Some(now), None)];
        i := i + 1;
      }
      assert hosts[..|hosts|] == hosts;
    }

    /** `recordBillingInstance` (db.py:136-150). */
    method RecordBillingInstance(data: BillingData, now: Timestamp)
      modifies this`records
      ensures records == old(records) + [RecordRow(data, now)]
    {
      records := records + [RecordRow(data, now)];
    }
  }
}
