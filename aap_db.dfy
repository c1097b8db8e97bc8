/** The current ledger, aap_billing/db/db.py: date settings, billing-period rollover,
    the BilledHost and BillingRecord tables, and the write-once base-quantity store. */
module AapDb {
  import opened Wrappers
  import opened Calendar
  import opened AapPeriod
  import opened HostQuery
  import opened Records

  /** The names of the DateSetting rows (`DateSettingEnum`). */
  datatype DateSettingKey = InstallDate | PeriodStart | PeriodEnd | LastRunDate

  /** A BilledHost row: a host counted in a period, `reported` when it was sent to the
      marketplace, and `rolloverDate` set once its period has been closed. */
  datatype BilledHost = BilledHost(hostName: string, billedDate: Timestamp, reported: bool, rolloverDate: Option<Timestamp>)

  predicate IsOpen(row: BilledHost) {
    row.rolloverDate.None?
  }

  /** Names of the rows still open (`BilledHost.objects.filter(rollover_date__isnull=True)`). */
  function OpenHostNames(rows: seq<BilledHost>): set<string> {
    set i | 0 <= i < |rows| && IsOpen(rows[i]) :: rows[i].hostName
  }

  /** `getProcessedHostCount`: the number of open rows. It counts rows, not distinct
      names, and takes no notice of the period start it is given. */
  function ProcessedHostCount(rows: seq<BilledHost>): (n: nat)
    ensures n <= |rows|
    ensures n == 0 <==> OpenHostNames(rows) == {}
  {
    if rows == [] then 0
    else
      var init := rows[..|rows| - 1];
      var last := rows[|rows| - 1];
      assert OpenHostNames(rows) == OpenHostNames(init) + (if IsOpen(last) then {last.hostName} else {}) by {
        assert forall i :: 0 <= i < |init| ==> rows[i] == init[i];
      }
      ProcessedHostCount(init) + (if IsOpen(last) then 1 else 0)
  }

  /** The rows `markHostsBilled` saves: one open row per host, billed at `now`. */
  function NewRows(hosts: seq<string>, now: Timestamp, reported: bool): (rows: seq<BilledHost>)
    ensures |rows| == |hosts|
    ensures forall i :: 0 <= i < |hosts| ==> rows[i] == BilledHost(hosts[i], now, reported, None)
  {
    seq(|hosts|, i requires 0 <= i < |hosts| => BilledHost(hosts[i], now, reported, None))
  }

  /** The bulk update of db.py:110: every open row gets `rollover_date = now`. */
  function CloseOpenRows(rows: seq<BilledHost>, now: Timestamp): (r: seq<BilledHost>)
    ensures |r| == |rows|
    ensures forall i :: 0 <= i < |rows| ==>
      r[i] == if IsOpen(rows[i]) then rows[i].(rolloverDate := Some(now)) else rows[i]
  {
    seq(|rows|, i requires 0 <= i < |rows| =>
      if IsOpen(rows[i]) then rows[i].(rolloverDate := Some(now)) else rows[i])
  }

  /** Closing the period keeps every row, leaves closed rows as they were, stamps the
      open ones with `now`, and leaves no row open. */
  lemma CloseOpenRowsClosesPeriod(rows: seq<BilledHost>, now: Timestamp)
    ensures |CloseOpenRows(rows, now)| == |rows|
    ensures forall i :: 0 <= i < |rows| && !IsOpen(rows[i]) ==> CloseOpenRows(rows, now)[i] == rows[i]
    ensures forall i :: 0 <= i < |rows| && IsOpen(rows[i]) ==>
      var r := CloseOpenRows(rows, now)[i];
      r.hostName == rows[i].hostName && r.billedDate == rows[i].billedDate &&
      r.reported == rows[i].reported && r.rolloverDate == Some(now)
    ensures OpenHostNames(CloseOpenRows(rows, now)) == {}
    ensures ProcessedHostCount(CloseOpenRows(rows, now)) == 0
  {
  }

  /** Marking hosts adds one to the processed count per host. */
  lemma {:induction false} ProcessedCountAfterMarking(rows: seq<BilledHost>, hosts: seq<string>, now: Timestamp, reported: bool)
    ensures ProcessedHostCount(rows + NewRows(hosts, now, reported)) == ProcessedHostCount(rows) + |hosts|
    decreases |hosts|
  {
    if hosts != [] {
      var init := hosts[..|hosts| - 1];
      ProcessedCountAfterMarking(rows, init, now, reported);
      var all := rows + NewRows(hosts, now, reported);
      assert all[..|all| - 1] == rows + NewRows(init, now, reported);
      assert IsOpen(all[|all| - 1]);
    } else {
      assert rows + NewRows(hosts, now, reported) == rows;
    }
  }

  /** After `markHostsBilled(hosts)`, every one of `hosts` has an open row, so
      `getUnbilledHosts` for any start returns none of them. */
  lemma MarkedHostsAreNotUnbilled(rows: seq<BilledHost>, hosts: seq<string>, now: Timestamp, reported: bool,
                                  executions: seq<Execution>, start: DateTime)
    ensures OpenHostNames(rows + NewRows(hosts, now, reported)) == OpenHostNames(rows) + set h | h in hosts
    ensures forall h :: h in hosts ==> h !in UnbilledNames(executions, start, OpenHostNames(rows + NewRows(hosts, now, reported)))
  {
    var all := rows + NewRows(hosts, now, reported);
    forall h | h in hosts ensures h in OpenHostNames(all) {
      var j :| 0 <= j < |hosts| && hosts[j] == h;
      assert all[|rows| + j].hostName == h && IsOpen(all[|rows| + j]);
    }
    forall x | x in OpenHostNames(all) ensures x in OpenHostNames(rows) || x in hosts {
      var i :| 0 <= i < |all| && IsOpen(all[i]) && all[i].hostName == x;
      if i >= |rows| {
        assert x == hosts[i - |rows|];
      } else {
        assert all[i] == rows[i];
      }
    }
    forall x | x in OpenHostNames(rows) ensures x in OpenHostNames(all) {
      var i :| 0 <= i < |rows| && IsOpen(rows[i]) && rows[i].hostName == x;
      assert all[i] == rows[i];
    }
  }

  /** The date settings once `getDate(INSTALL_DATE)` has run in anniversary mode: the
      install date is seeded with midnight of `now` when absent. AWS mode never reads it. */
  function SeededDates(dates: map<DateSettingKey, Timestamp>, mode: BillingInterface, now: Timestamp): (r: map<DateSettingKey, Timestamp>)
    ensures mode == Azure ==> InstallDate in r
    ensures forall k :: k in dates ==> k in r && r[k] == dates[k]
    ensures forall k :: k in r && k !in dates ==> k == InstallDate && r[k] == Midnight(now)
  {
    if mode == Azure && InstallDate !in dates then dates[InstallDate := Midnight(now)] else dates
  }

  /** The period `calcBillingPeriod` returns given the stored settings. */
  function CurrentPeriod(mode: BillingInterface, dates: map<DateSettingKey, Timestamp>, now: Timestamp): (p: Period)
    ensures mode == Azure ==> p == AnniversaryPeriod(SeededDates(dates, mode, now)[InstallDate], now)
    ensures mode == Aws ==> p == AwsPeriod(now)
    ensures mode == Aws || InstallDate !in dates ==> !Before(now, p.start) && !Before(p.end, now)
  {
    var install := if InstallDate in dates then dates[InstallDate] else Midnight(now);
    CalcBillingPeriod(mode, install, now)
  }

  /** The DateSetting and BilledHost tables together. */
  datatype Tables = Tables(dates: map<DateSettingKey, Timestamp>, billed: seq<BilledHost>)

  /** `rolloverIfNeeded` given the period it computed: when the stored PERIOD_START differs
      from `p.start` (an absent one counts as different), close every open row and store
      `p`; otherwise change nothing. */
  function RolloverWith(t: Tables, p: Period, now: Timestamp): (r: Tables)
    ensures PeriodStart in r.dates && r.dates[PeriodStart] == p.start
    ensures PeriodStart in t.dates && t.dates[PeriodStart] == p.start ==> r == t
    ensures !(PeriodStart in t.dates && t.dates[PeriodStart] == p.start) ==>
      r.billed == CloseOpenRows(t.billed, now) && r.dates == t.dates[PeriodStart := p.start][PeriodEnd := p.end]
  {
    if PeriodStart in t.dates && t.dates[PeriodStart] == p.start then t
    else Tables(t.dates[PeriodStart := p.start][PeriodEnd := p.end], CloseOpenRows(t.billed, now))
  }

  /** `rolloverIfNeeded` for the configured interface at time `now`. */
  function Rollover(t: Tables, mode: BillingInterface, now: Timestamp): (r: Tables)
    ensures PeriodStart in r.dates && r.dates[PeriodStart] == CurrentPeriod(mode, t.dates, now).start
    ensures mode == Azure ==> InstallDate in r.dates
    ensures r.billed == t.billed || r.billed == CloseOpenRows(t.billed, now)
    ensures forall k :: k in t.dates && k != PeriodStart && k != PeriodEnd ==> k in r.dates && r.dates[k] == t.dates[k]
  {
    RolloverWith(Tables(SeededDates(t.dates, mode, now), t.billed), CurrentPeriod(mode, t.dates, now), now)
  }

  /** An immediate second rollover changes nothing. */
  lemma RolloverIdempotent(t: Tables, mode: BillingInterface, now: Timestamp)
    ensures Rollover(Rollover(t, mode, now), mode, now) == Rollover(t, mode, now)
  {
    var r := Rollover(t, mode, now);
    assert SeededDates(r.dates, mode, now) == r.dates;
    assert CurrentPeriod(mode, r.dates, now) == CurrentPeriod(mode, t.dates, now);
  }

  /** After a rollover the install date is seeded and the stored period is the one
      `calcBillingPeriod` computes, so computing it again gives the same period. */
  lemma RolloverStoresCurrentPeriod(t: Tables, mode: BillingInterface, now: Timestamp)
    ensures var r := Rollover(t, mode, now);
            SeededDates(r.dates, mode, now) == r.dates &&
            CurrentPeriod(mode, r.dates, now) == CurrentPeriod(mode, t.dates, now) &&
            PeriodStart in r.dates && r.dates[PeriodStart] == CurrentPeriod(mode, t.dates, now).start
  {
    var r := Rollover(t, mode, now);
    assert SeededDates(r.dates, mode, now) == r.dates;
  }

  /** A rollover deletes no row and never reopens or restamps a closed one. */
  lemma RolloverKeepsRows(t: Tables, mode: BillingInterface, now: Timestamp)
    ensures |Rollover(t, mode, now).billed| == |t.billed|
    ensures forall i :: 0 <= i < |t.billed| && !IsOpen(t.billed[i]) ==> Rollover(t, mode, now).billed[i] == t.billed[i]
    ensures forall i :: 0 <= i < |t.billed| ==> Rollover(t, mode, now).billed[i].hostName == t.billed[i].hostName
  {
  }

  /** Hosts marked billed in a period stay billed for the rest of it: a later rollover in
      the same AWS calendar month closes none of their rows. */
  lemma AwsRolloverStableWithinMonth(t: Tables, hosts: seq<string>, a: Timestamp, b: Timestamp)
    requires a.date.year == b.date.year && a.date.month == b.date.month
    ensures var t1 := Rollover(t, Aws, a);
            var t2 := Tables(t1.dates, t1.billed + NewRows(hosts, a, true));
            Rollover(t2, Aws, b) == t2
  {
    AwsPeriodStableWithinMonth(a, b);
  }

  /** With the as-written AWS period, a second run on the same day at another time finds
      a different period start and closes the rows the first run had just marked, so the
      same hosts are billed again. */
  lemma AwsAsWrittenReopensBilledHosts(t: Tables, hosts: seq<string>, a: Timestamp, b: Timestamp)
    requires a.date == b.date && a.seconds != b.seconds
    ensures var t1 := RolloverWith(t, AwsPeriodAsWritten(a), a);
            var t2 := Tables(t1.dates, t1.billed + NewRows(hosts, a, true));
            var t3 := RolloverWith(t2, AwsPeriodAsWritten(b), b);
            ProcessedHostCount(t2.billed) >= |hosts| && ProcessedHostCount(t3.billed) == 0
  {
    var t1 := RolloverWith(t, AwsPeriodAsWritten(a), a);
    var t2 := Tables(t1.dates, t1.billed + NewRows(hosts, a, true));
    ProcessedCountAfterMarking(t1.billed, hosts, a, true);
    AwsStartDependsOnTimeOfDay(a, b);
    CloseOpenRowsClosesPeriod(t2.billed, b);
  }

  /** The BaseQuantity table, keyed by (offer id, plan id). */
  type BaseQuantities = map<(string, string), int>

  /** The store and the outcome after one `recordBaseQuantity` call. */
  datatype BaseQuantityWrite = BaseQuantityWrite(store: BaseQuantities, outcome: Outcome<string>)

  function AlreadySetMessage(offerId: string, planId: string): string {
    "Attempting to set base quantity for offer [" + offerId + "] and plan [" + planId + "] when already set"
  }

  /** `getBaseQuantity`: the stored quantity, or None when the pair was never recorded. */
  function LookupBaseQuantity(store: BaseQuantities, offerId: string, planId: string): (r: Option<int>)
    ensures r.None? <==> (offerId, planId) !in store
    ensures r.Some? ==> r.value == store[(offerId, planId)]
  {
    if (offerId, planId) in store then Some(store[(offerId, planId)]) else None
  }

  /** `recordBaseQuantity` as written (db.py:186-195): `update_or_create` stores the new
      value first, then the RuntimeError is raised when the row already existed. */
  function BaseQuantityWriteAsWritten(store: BaseQuantities, offerId: string, planId: string, quantity: int): (w: BaseQuantityWrite)
    ensures w.outcome.Fail? <==> (offerId, planId) in store
    ensures LookupBaseQuantity(w.store, offerId, planId) == Some(quantity)
    ensures forall k :: k != (offerId, planId) ==> (k in w.store <==> k in store) && (k in store ==> w.store[k] == store[k])
  {
    var key := (offerId, planId);
    BaseQuantityWrite(store[key := quantity], if key in store then Fail(AlreadySetMessage(offerId, planId)) else Pass)
  }

  /** The as-written store loses the recorded quantity: a second write that is refused
      (as at aap_billing/tests/test_billing.py:359-360) still replaces the stored value. */
  lemma AsWrittenOverwritesBeforeRaising()
    ensures var w := BaseQuantityWriteAsWritten(map[("bhavensttest", "plan7") := 0], "bhavensttest", "plan7", 99);
            w.outcome.Fail? && LookupBaseQuantity(w.store, "bhavensttest", "plan7") == Some(99)
  {
  }

  /** Write-once `recordBaseQuantity`: a second write for a recorded pair is refused and
      leaves the store as it was. */
  function BaseQuantityWriteOnce(store: BaseQuantities, offerId: string, planId: string, quantity: int): (w: BaseQuantityWrite)
    ensures w.outcome.Fail? <==> (offerId, planId) in store
    ensures w.outcome.Fail? ==> w.store == store
    ensures w.outcome.Pass? ==> LookupBaseQuantity(w.store, offerId, planId) == Some(quantity)
    ensures forall k :: k != (offerId, planId) ==> (k in w.store <==> k in store) && (k in store ==> w.store[k] == store[k])
  {
    var key := (offerId, planId);
    if key in store then BaseQuantityWrite(store, Fail(AlreadySetMessage(offerId, planId)))
    else BaseQuantityWrite(store[key := quantity], Pass)
  }

  /** A sequence of `recordBaseQuantity` calls, each as (offer id, plan id, quantity). */
  function ApplyWrites(store: BaseQuantities, writes: seq<(string, string, int)>): BaseQuantities
    decreases |writes|
  {
    if writes == [] then store
    else ApplyWrites(BaseQuantityWriteOnce(store, writes[0].0, writes[0].1, writes[0].2).store, writes[1..])
  }

  /** Once recorded, a base quantity never changes, whatever is written afterwards. */
  lemma {:induction false} RecordedBaseQuantityIsImmutable(store: BaseQuantities, writes: seq<(string, string, int)>, offerId: string, planId: string)
    requires (offerId, planId) in store
    ensures LookupBaseQuantity(ApplyWrites(store, writes), offerId, planId) == LookupBaseQuantity(store, offerId, planId)
    decreases |writes|
  {
    if writes != [] {
      var next := BaseQuantityWriteOnce(store, writes[0].0, writes[0].1, writes[0].2).store;
      RecordedBaseQuantityIsImmutable(next, writes[1..], offerId, planId);
    }
  }

  /** aap_billing/tests/test_billing.py:353-358: record ("offer", "plan") = 10, read it
      back; ("offer", "plan2") was never recorded. */
  lemma BaseQuantityExample()
    ensures var w := BaseQuantityWriteOnce(map[], "offer", "plan", 10);
            w.outcome.Pass? && LookupBaseQuantity(w.store, "offer", "plan") == Some(10) &&
            LookupBaseQuantity(w.store, "offer", "plan2") == None
  {
  }

  /** The billing database of aap_billing: the DateSetting, BilledHost, BillingRecord and
      BaseQuantity tables. */
  class Ledger {
    var dates: map<DateSettingKey, Timestamp>
    var billed: seq<BilledHost>
    var records: seq<BillingRecord>
    var baseQuantities: BaseQuantities

    /** An empty database. */
    constructor ()
      ensures dates == map[] && billed == [] && records == [] && baseQuantities == map[]
    {
      dates := map[];
      billed := [];
      records := [];
      baseQuantities := map[];
    }

    /** `getDate` (db.py:51-66): the stored value; a missing install date is seeded with
        midnight of `now` and returned; any other missing setting is None. */
    method GetDate(key: DateSettingKey, now: Timestamp) returns (r: Option<Timestamp>)
      modifies this`dates
      ensures key in old(dates) ==> r == Some(old(dates)[key]) && dates == old(dates)
      ensures key !in old(dates) && key == InstallDate ==>
        r == Some(Midnight(now)) && dates == old(dates)[InstallDate := Midnight(now)]
      ensures key !in old(dates) && key != InstallDate ==> r == None && dates == old(dates)
    {
      if key in dates {
        r := Some(dates[key]);
      } else if key == InstallDate {
        var install := Midnight(now);
        SetDate(InstallDate, install);
        r := Some(install);
      } else {
        r := None;
      }
    }

    /** `setDate` (db.py:71-78): `update_or_create` of the named setting. */
    method SetDate(key: DateSettingKey, value: Timestamp)
      modifies this`dates
      ensures dates == old(dates)[key := value]
    {
      dates := dates[key := value];
    }

    /** `calcBillingPeriod` (db.py:81-100): the calendar month in AWS mode, without
        touching the settings; otherwise the anniversary period of the (possibly just
        seeded) install date. */
    method CalcBillingPeriod(mode: BillingInterface, now: Timestamp) returns (p: Period)
      modifies this`dates
      ensures dates == SeededDates(old(dates), mode, now)
      ensures p == CurrentPeriod(mode, old(dates), now)
    {
      if mode == Aws {
        p := AwsPeriod(now);
        return;
      }
      var install := GetDate(InstallDate, now);
      p := CalcAnniversaryPeriod(install.value, now);
    }

    /** `rolloverIfNeeded` (db.py:103-113). */
    method RolloverIfNeeded(mode: BillingInterface, now: Timestamp)
      modifies this`dates, this`billed
      ensures Tables(dates, billed) == Rollover(Tables(old(dates), old(billed)), mode, now)
    {
      var p := CalcBillingPeriod(mode, now);
      var stored := GetDate(PeriodStart, now);
      if stored != Some(p.start) {
        billed := CloseOpenRows(billed, now);
        SetDate(PeriodStart, p.start);
        SetDate(PeriodEnd, p.end);
      }
    }

    /** `getUnbilledHosts` (db.py:121-137): executed hosts with no open billed row. */
    method GetUnbilledHosts(executions: seq<Execution>, start: DateTime) returns (newHosts: seq<string>)
      ensures newHosts == UnbilledNames(executions, start, OpenHostNames(billed))
      ensures Distinct(newHosts)
      ensures forall x :: x in newHosts <==> ExecutedAfter(executions, start, x) && x !in OpenHostNames(billed)
    {
      var executed := DedupNames(NamesExecutedAfter(executions, start));
      newHosts := CollectNewHosts(executed, OpenHostNames(billed));
    }

    /** `markHostsBilled` (db.py:140-147): save one open row per host. */
    method MarkHostsBilled(hosts: seq<string>, reported: bool, now: Timestamp)
      modifies this`billed
      ensures billed == old(billed) + NewRows(hosts, now, reported)
    {
      var i := 0;
      while i < |hosts|
        invariant 0 <= i <= |hosts|
        invariant billed == old(billed) + NewRows(hosts[..i], now, reported)
      {
        billed := billed + [BilledHost(hosts[i], now, reported, None)];
        i := i + 1;
      }
      assert hosts[..|hosts|] == hosts;
    }

    /** `recordBillingInstance` (db.py:150-164): append one BillingRecord row. */
    method RecordBillingInstance(data: BillingData, now: Timestamp)
      modifies this`records
      ensures records == old(records) + [RecordRow(data, now)]
    {
      records := records + [RecordRow(data, now)];
    }

    /** `recordLastRunDateTime` (db.py:167-172). */
    method RecordLastRunDateTime(now: Timestamp)
      modifies this`dates
      ensures dates == old(dates)[LastRunDate := now]
    {
      SetDate(LastRunDate, now);
    }

    /** `getBaseQuantity` (db.py:175-183). */
    function GetBaseQuantity(offerId: string, planId: string): (r: Option<int>)
      reads this
      ensures r.Some? <==> (offerId, planId) in baseQuantities
      ensures r.Some? ==> r.value == baseQuantities[(offerId, planId)]
    {
      LookupBaseQuantity(baseQuantities, offerId, planId)
    }

    /** `recordBaseQuantity` as written (db.py:186-195): the value is replaced even when
        the call then fails. */
    method RecordBaseQuantityAsWritten(offerId: string, planId: string, quantity: int) returns (outcome: Outcome<string>)
      modifies this`baseQuantities
      ensures BaseQuantityWrite(baseQuantities, outcome) == BaseQuantityWriteAsWritten(old(baseQuantities), offerId, planId, quantity)
    {
      var created := (offerId, planId) !in baseQuantities;
      baseQuantities := baseQuantities[(offerId, planId) := quantity];
      outcome := if created then Pass else Fail(AlreadySetMessage(offerId, planId));
    }

    /** Write-once `recordBaseQuantity`: refuses, without writing, a pair already recorded. */
    method RecordBaseQuantity(offerId: string, planId: string, quantity: int) returns (outcome: Outcome<string>)
      modifies this`baseQuantities
      ensures BaseQuantityWrite(baseQuantities, outcome) == BaseQuantityWriteOnce(old(baseQuantities), offerId, planId, quantity)
    {
      if (offerId, planId) in baseQuantities {
        outcome := Fail(AlreadySetMessage(offerId, planId));
      } else {
        baseQuantities := baseQuantities[(offerId, planId) := quantity];
        outcome := Pass;
      }
    }
  }
}
