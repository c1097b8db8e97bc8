/** One run of the Azure-only connector, azure_billing/cli.py: read the rollover date,
    bill the hosts found against it, then roll over when the date has been reached. */
module AzureCli {
  import opened Wrappers
  import opened Calendar
  import opened HostQuery
  import opened Records
  import opened AzureDb

  /** How a run ended: nothing to bill, billed, or ended by a failed Azure call (the
      process exits before the rollover check). */
  datatype AzureRunOutcome = NoHosts | Billed(record: BillingData) | Ended

  /** `main` (azure_billing/cli.py:38-68) at time `now`; `meter` is the marketplace call
      made for the unbilled hosts. */
  method Run(ledger: AzureLedger, executions: seq<Execution>, now: Timestamp, meter: seq<string> -> Fetched<BillingData>)
    returns (rolloverDate: Timestamp, unbilled: seq<string>, outcome: AzureRunOutcome)
    modifies ledger
    ensures old(ledger.rolloverDate).Some? ==> rolloverDate == old(ledger.rolloverDate).value
    ensures ledger.installDate == Some(if old(ledger.installDate).Some? then old(ledger.installDate).value else now)
    ensures old(ledger.rolloverDate).None? ==> rolloverDate == NextRolloverDate(now, ledger.installDate.value)
    ensures unbilled == UnbilledNames(executions, rolloverDate, OpenHostNames(old(ledger.billed)))
    ensures unbilled == [] ==> outcome == NoHosts
    ensures unbilled != [] ==> (outcome == Ended <==> meter(unbilled).Aborted?)
    ensures outcome.Billed? ==> (outcome.record == meter(unbilled).value &&
      ledger.records == old(ledger.records) + [RecordRow(outcome.record, now)])
    ensures !outcome.Billed? ==> ledger.records == old(ledger.records)
    ensures var marked := if outcome.Billed? then old(ledger.billed) + NewRows(unbilled, now) else old(ledger.billed);
            if !outcome.Ended? && CheckRolloverNeeded(rolloverDate, now)
            then ledger.rolloverDate == None && ledger.billed == CloseBilledRows(marked, now)
            else ledger.rolloverDate == Some(rolloverDate) && ledger.billed == marked
    ensures !CheckRolloverNeeded(rolloverDate, now) && (forall i :: 0 <= i < |executions| ==> !Before(now, executions[i].modified)) ==>
      unbilled == [] && outcome == NoHosts
  {
    rolloverDate := ledger.GetRolloverDate(now, now);
    unbilled := ledger.GetUnbilledHosts(executions, rolloverDate);
    if !CheckRolloverNeeded(rolloverDate, now) && (forall i :: 0 <= i < |executions| ==> !Before(now, executions[i].modified)) {
      NothingUnbilledBeforeRolloverDate(executions, rolloverDate, now, OpenHostNames(old(ledger.billed)));
    }
    if unbilled == [] {
      outcome := NoHosts;
    } else {
      var metered := meter(unbilled);
      if metered.Aborted? {
        outcome := Ended;
        return;
      }
      ledger.RecordBillingInstance(metered.value, now);
      ledger.MarkHostsBilled(unbilled, now);
      outcome := Billed(metered.value);
    }
    if CheckRolloverNeeded(rolloverDate, now) {
      ledger.Rollover(now);
    }
  }
}
