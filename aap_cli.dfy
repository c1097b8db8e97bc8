/** One run of the billing connector, aap_billing/cli.py: roll the period over if
    needed, find the hosts not yet billed in the current period, send one usage event for
    them, record it and mark the hosts billed. */
module AapCli {
  import opened Wrappers
  import opened Calendar
  import opened AapPeriod
  import opened HostQuery
  import opened Records
  import opened AapDb
  import opened AzApi

  /** How a run ended: nothing to bill, billed, or ended by a failed Azure call (the process exits). */
  datatype RunOutcome = NothingToBill | Billed(record: BillingData) | Ended

  /** `main` (cli.py:38-59) against `ledger` and the metering client `cache`, at time
      `now`, over the job-host summary rows `executions` (in query order). */
  method Run(ledger: Ledger, cache: MetadataCache, mode: BillingInterface, executions: seq<Execution>, now: Timestamp,
             dimension: string, env: AzureEnv, post: UsagePayload -> Fetched<string>)
    returns (unbilled: seq<string>, outcome: RunOutcome)
    modifies ledger, cache
    ensures var t := Rollover(Tables(old(ledger.dates), old(ledger.billed)), mode, now);
            var start := CurrentPeriod(mode, old(ledger.dates), now).start;
            ledger.dates == t.dates &&
            PeriodStart in ledger.dates && ledger.dates[PeriodStart] == start &&
            unbilled == UnbilledNames(executions, start, OpenHostNames(t.billed))
    ensures var t := Rollover(Tables(old(ledger.dates), old(ledger.billed)), mode, now);
            var metered := PegResult(if old(cache.cached).Some? then Got(old(cache.cached).value) else LoadMetadata(env),
                                     dimension, unbilled, now, post);
            (unbilled == [] ==> outcome == NothingToBill) &&
            (unbilled != [] && metered.Aborted? ==> outcome == Ended) &&
            (unbilled != [] && metered.Got? ==> outcome == Billed(metered.value)) &&
            (outcome.Billed? ==> ledger.records == old(ledger.records) + [RecordRow(outcome.record, now)] &&
                                 ledger.billed == t.billed + NewRows(unbilled, now, true)) &&
            (!outcome.Billed? ==> ledger.records == old(ledger.records) && ledger.billed == t.billed)
    ensures outcome.Billed? ==> outcome.record.quantity == |unbilled| && |unbilled| >= 1
    ensures !outcome.Ended? ==> forall x :: ExecutedAfter(executions, ledger.dates[PeriodStart], x) ==> x in OpenHostNames(ledger.billed)
    ensures ledger.baseQuantities == old(ledger.baseQuantities)
    ensures unbilled == [] || old(cache.cached).Some? ==> cache.cached == old(cache.cached)
    ensures unbilled != [] && old(cache.cached).None? ==>
      cache.cached == (if LoadMetadata(env).Got? then Some(LoadMetadata(env).value) else None)
  {
    ledger.RolloverIfNeeded(mode, now);
    ghost var t := Tables(ledger.dates, ledger.billed);
    RolloverStoresCurrentPeriod(Tables(old(ledger.dates), old(ledger.billed)), mode, now);
    var period := ledger.CalcBillingPeriod(mode, now);
    unbilled := ledger.GetUnbilledHosts(executions, period.start);
    if unbilled == [] {
      outcome := NothingToBill;
      return;
    }
    var metered := cache.PegBillingCounter(dimension, unbilled, now, env, post);
    if metered.Aborted? {
      outcome := Ended;
      return;
    }
    ledger.RecordBillingInstance(metered.value, now);
    ledger.MarkHostsBilled(unbilled, true, now);
    MarkedHostsAreNotUnbilled(t.billed, unbilled, now, true, executions, period.start);
    outcome := Billed(metered.value);
  }
}
