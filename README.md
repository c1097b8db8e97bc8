# Ansible Automation Platform billing ledger, modelled in Dafny

The billing connector for Ansible Automation Platform runs periodically inside a
marketplace deployment. On each run it counts the managed hosts that automation jobs
ran against, reports the hosts not yet billed in the current billing period to the
marketplace metering service, and records the report in its own database. This project
models the core of that connector and proves properties of the model:

- the **billing period**: anniversary periods stepped by whole months from the install
  date (month addition clamps the day, as dateutil's `relativedelta` does), or calendar
  months in AWS mode (the source starts them at now's time of day on the first; the
  ledger uses the midnight-to-23:59:59 month, see Findings below);
- the **period rollover**, which closes every open `BilledHost` row when the period changes;
- the **ledger tables**: date settings, `BilledHost`, `BillingRecord` and the write-once
  base-quantity store, as classes whose methods update them;
- the **unbilled-host query** shared by all three ledger generations: distinct executed
  host names, in query order, without the names that have an open billed row (any billed
  row, and no start filter, in the first generation);
- the Azure-only ledger with its stored **rollover date**, and the first-generation
  ledger whose marking of billed hosts saves nothing;
- the **plans file** lookup of an offer's base quantity;
- the **Azure metering client**: token choice with fallback to the pod identity, the
  metadata read off the managed application, the once-per-process metadata cache, and the
  usage event and billing record built for a list of hosts;
- one **run** of each command-line entry point, over the ledger classes.

Clocks, the network, the Django ORM and files are not modelled as effects: the current
time is a parameter `now`, every HTTP call is given as its outcome (`Fetched.Aborted`
stands for a call that ends the process), the job-host summary table is a sequence of
`Execution` rows in the order the query returns them, and reading the plans file is
given as `CannotOpen`, `InvalidJson` or the parsed offers.

Two properties of the source that are proved and worth knowing, though not reported as
findings:

- An anniversary period contains `now` when the install date is at midnight, which is how
  `getDate` seeds it, and `now` is not before the install date
  (`AapPeriod.AnniversaryPeriodContainsNow`). With an install time later in the day, a
  `now` earlier in the day on a boundary date falls after the end of the period computed
  for it (`AapPeriod.AnniversaryGapAfterMidnightInstall`).
- The Azure-only command line queries unbilled hosts modified after the rollover date,
  which ends the current period. While that date has not been reached, the run bills no
  host, whatever ran in the period (`AzureDb.NothingUnbilledBeforeRolloverDate` and the last
  postcondition of `AzureCli.Run`).

Files: `wrappers.dfy` (Option, Outcome, Fetched), `calendar.dfy` (dates and month
arithmetic), `aap_period.dfy` (billing periods), `host_query.dfy` (the unbilled-host
query), `records.dfy` (billing records, comma join and split), `aap_db.dfy`,
`azure_db.dfy` and `azure_db_v1.dfy` (the three ledgers), `plan_file_loader.dfy`,
`azapi.dfy`, `aap_cli.dfy` and `azure_cli.dfy`.

## Model

| member | source | states |
|---|---|---|
| Calendar.DaysInMonth | azure_billing/db/db.py:58 | a month has 28 to 31 days; February has 29 exactly in leap years |
| Calendar.AddMonths | aap_billing/db/db.py:96-98 | adding k months moves the month index by exactly k and keeps the day unless the target month is shorter, when it becomes that month's last day |
| Calendar.PrevDay | aap_billing/db/db.py:98 | the day before d is earlier than d and the next day after it is d |
| Calendar.PrevDayOfNextDay | aap_billing/db/db.py:98 | stepping one day forward then one back returns to the same date |
| Calendar.PrevDayIsLatestEarlierDate | aap_billing/db/db.py:98 | no date lies strictly between the day before d and d |
| Calendar.Midnight | aap_billing/db/db.py:61 | `replace(hour=0, minute=0, second=0)`: the same date at 00:00:00, never after the given time |
| Calendar.FirstOfMonth | aap_billing/db/db.py:87 | `replace(day=1)` on the date: the same month, day 1, not after the given date |
| Calendar.NextDay | aap_billing/db/db.py:98 | the following calendar day: later than d, the next day of the same month, or the 1st of the next month after a month's last day |
| Calendar.AddMonthsIncreasing | aap_billing/db/db.py:94-96 | month addition is strictly increasing in the number of months, so the boundaries the loop steps through are increasing |
| AapPeriod.Boundary | aap_billing/db/db.py:96 | the k-th monthly boundary lies exactly k months after the install month |
| AapPeriod.BoundaryZero | aap_billing/db/db.py:92 | the 0-th boundary is the install date itself, the loop's first check date |
| AapPeriod.Offset | aap_billing/db/db.py:92-96 | the offset the loop stops at: 0 exactly when now precedes the install date; its boundary is after now; the boundary before it is not |
| AapPeriod.OffsetIsFirstBoundaryAfterNow | aap_billing/db/db.py:94-96 | every boundary after now has an index at least the offset, so the offset is the first such index |
| AapPeriod.OffsetUnique | aap_billing/db/db.py:94-96 | the offset is the only positive index whose boundary is after now while the previous one is not |
| AapPeriod.PeriodStartIsLatestBoundary | aap_billing/db/db.py:97 | when now is not before the install date, the period start is the latest monthly boundary at or before now |
| AapPeriod.AnniversaryPeriod | aap_billing/db/db.py:91-100 | from the install date on, the period start is not after now; now is before the next period's start (the day after the end, at the install time of day), which lies one month after this start; before the install date the period ends the day before it |
| AapPeriod.CalcAnniversaryPeriod | aap_billing/db/db.py:91-100 | the loop over check dates terminates and returns the anniversary period: start at boundary offset-1, end 23:59:59 on the day before boundary offset |
| AapPeriod.AnniversaryPeriodContainsNow | aap_billing/db/db.py:59-61 | for an install date at midnight, as seeded, and now not before it, the computed period contains now |
| AapPeriod.AnniversaryPeriodsAreContiguous | aap_billing/db/db.py:97-98 | the day after a period's end is the next boundary date: periods neither overlap nor skip a day |
| AapPeriod.AnniversaryGapAfterMidnightInstall | aap_billing/db/db.py:94-99 | install 2022-01-01 10:00, now 2022-02-01 09:00: now falls after the end of the period computed for it |
| AapPeriod.AwsPeriodAsWritten | aap_billing/db/db.py:86-89 | the AWS period as written: the first to the last day of now's month, both ends at now's time of day, containing now |
| AapPeriod.AwsStartDependsOnTimeOfDay | aap_billing/db/db.py:87 | as written, two times on the same day compute different AWS period starts |
| AapPeriod.AwsPeriodIsCalendarMonth | aap_billing/db/db.py:86-89 | the corrected AWS period runs from the first to the last day of now's month and contains now |
| AapPeriod.AwsPeriodStableWithinMonth | aap_billing/db/db.py:86-89 | every time in the same calendar month gets the same corrected AWS period |
| AapPeriod.CalcBillingPeriod | aap_billing/db/db.py:81-100 | the period for the configured interface: in AWS mode the calendar month of now (the corrected one, see Findings), containing now; in anniversary mode it contains now for a midnight install not after now, and now always precedes the next period's start |
| AapPeriod.AnniversaryPeriodBetween | aap_billing/db/db.py:94-99 | the period is read off the two boundaries that bracket now |
| AapPeriod.AnniversaryExampleMidMonth | aap_billing/tests/test_billing.py:203-225 | install 2021-12-15, today 2022-01-15: period 2022-01-15 to 2022-02-14 |
| AapPeriod.AnniversaryExampleFirstOfMonth | aap_billing/tests/test_billing.py:203-225 | install 2021-12-01, today 2022-01-15: period 2022-01-01 to 2022-01-31 |
| AapPeriod.AnniversaryExampleEndOfMonth | aap_billing/tests/test_billing.py:203-225 | install 2021-12-31, today 2022-01-15: period 2021-12-31 to 2022-01-30 |
| AapPeriod.AnniversaryExampleFebruary | aap_billing/tests/test_billing.py:254-275 | install 2021-12-01, today 2022-02-15: period 2022-02-01 to 2022-02-28 |
| AapPeriod.AnniversaryExampleShortMonth | aap_billing/tests/test_billing.py:254-275 | install 2021-12-31, today 2022-02-15: period 2022-01-31 to 2022-02-27 |
| AapPeriod.AwsPeriodExamples | aap_billing/tests/test_billing.py:227-300 | AWS periods for 2022-01-15 and 2022-02-15 are January and February, whatever the install date |
| HostQuery.DedupNames | aap_billing/db/db.py:126-131 | the dict keys built from the names: each name exactly once, the same set of names, ordered by each name's first occurrence (dict insertion order) |
| HostQuery.NamesExecutedAfter | aap_billing/db/db.py:130 | a name is listed exactly when some execution of it was modified strictly after the start |
| HostQuery.AllNames | azure_billing/db.py:46-51 | one name per execution, in query order |
| HostQuery.WithoutNames | aap_billing/db/db.py:133-136 | a key is kept exactly when it is not billed; distinct keys stay distinct and keep their relative order |
| HostQuery.UnbilledNames | aap_billing/db/db.py:121-137 | the unbilled hosts are distinct, a name is among them exactly when it ran after the start and has no open billed row, and they come in the order of each name's first execution after the start in the query |
| HostQuery.CollectNewHosts | aap_billing/db/db.py:133-136 | the append loop returns the executed names without the billed ones, order kept |
| Records.Join | aap_billing/azure/azapi.py:214 | `",".join(hosts)`: empty for no hosts; otherwise the hosts' total length plus one separator between neighbours, beginning with the first host |
| Records.Split | aap_billing/azure/azapi.py:214 | reference inverse of the comma join, used only to state the round trip (the source never splits): always at least one piece |
| Records.SplitNoSeparator | aap_billing/azure/azapi.py:214 | reference inverse of the comma join (the source never splits): a host name without a comma splits to itself |
| Records.SplitAtSeparator | aap_billing/azure/azapi.py:214 | reference inverse of the comma join (the source never splits): splitting at the first comma peels off the piece before it |
| Records.SplitJoin | aap_billing/azure/azapi.py:214 | the comma-joined host list of a billing record splits back into the host list, for a non-empty list of comma-free names |
| AapDb.ProcessedHostCount | aap_billing/db/db.py:116-118 | the processed count is at most the number of rows and is zero exactly when no row is open |
| AapDb.NewRows | aap_billing/db/db.py:145-147 | one open row per host, in order, billed at now with the reported flag |
| AapDb.CloseOpenRows | aap_billing/db/db.py:110 | every open row gets rollover date now; closed rows are unchanged; no row is added or removed |
| AapDb.CloseOpenRowsClosesPeriod | aap_billing/db/db.py:110 | after the bulk update no row is open and the processed count is zero, with names, billed dates and flags kept |
| AapDb.ProcessedCountAfterMarking | aap_billing/db/db.py:116-118 | marking n hosts raises the processed count by exactly n |
| AapDb.MarkedHostsAreNotUnbilled | aap_billing/db/db.py:140-147 | after marking, the open names are the old ones plus the marked hosts, and no marked host is returned as unbilled for any start |
| AapDb.SeededDates | aap_billing/db/db.py:59-64 | in anniversary mode the install date is present afterwards; stored settings are kept; only a missing install date is added, at midnight of now |
| AapDb.CurrentPeriod | aap_billing/db/db.py:81-100 | the period computed from the stored settings: the anniversary period of the install date `getDate` seeds, or the corrected AWS month; for a fresh install or in AWS mode it contains now |
| AapDb.RolloverWith | aap_billing/db/db.py:103-113 | the stored period start equals the computed one afterwards; a matching stored start changes nothing; otherwise open rows are closed and start and end are stored |
| AapDb.Rollover | aap_billing/db/db.py:103-113 | afterwards the stored period start is the computed one and, in anniversary mode, an install date is stored; the BilledHost table is either unchanged or has every open row closed; settings other than the period are kept |
| AapDb.RolloverIdempotent | aap_billing/db/db.py:103-113 | a second rollover at the same time changes nothing |
| AapDb.RolloverStoresCurrentPeriod | aap_billing/db/db.py:103-113 | after a rollover the stored period start is the period computed for now, and computing it again gives the same period |
| AapDb.RolloverKeepsRows | aap_billing/db/db.py:110 | a rollover deletes no row, keeps every host name and leaves closed rows untouched |
| AapDb.AwsRolloverStableWithinMonth | aap_billing/db/db.py:103-113 | in AWS mode, hosts marked after a rollover stay open at any later rollover in the same month |
| AapDb.AwsAsWrittenReopensBilledHosts | aap_billing/db/db.py:86-89 | as written, a second run on the same day at another time closes the rows just marked, so the processed count drops to zero |
| AapDb.LookupBaseQuantity | aap_billing/db/db.py:175-183 | None exactly when the pair was never recorded, otherwise the stored quantity |
| AapDb.BaseQuantityWriteAsWritten | aap_billing/db/db.py:186-195 | as written: the call fails exactly when the pair was recorded, yet the store holds the new quantity afterwards in both cases; other pairs are untouched |
| AapDb.AsWrittenOverwritesBeforeRaising | aap_billing/db/db.py:186-194 | as written, a refused second write of ("bhavensttest", "plan7") still replaces 0 by 99 |
| AapDb.BaseQuantityWriteOnce | aap_billing/db/db.py:186-195 | a write fails exactly when the pair is already recorded, and then changes nothing; a successful write stores the quantity; other pairs are untouched |
| AapDb.RecordedBaseQuantityIsImmutable | aap_billing/db/db.py:186-195 | once recorded, a base quantity never changes, whatever sequence of writes follows |
| AapDb.BaseQuantityExample | aap_billing/tests/test_billing.py:353-358 | record ("offer", "plan") = 10, read back 10; ("offer", "plan2") has none |
| AapDb.Ledger.constructor | aap_billing/billing/models.py:4-72 | a new database has no settings, rows, records or base quantities |
| AapDb.Ledger.GetDate | aap_billing/db/db.py:51-66 | a stored setting is returned unchanged; a missing install date is stored and returned as midnight of now; any other missing setting is None |
| AapDb.Ledger.SetDate | aap_billing/db/db.py:71-78 | the setting is created or replaced with the value, the others are kept |
| AapDb.Ledger.CalcBillingPeriod | aap_billing/db/db.py:81-100 | returns the period of the configured interface for now (in AWS mode the corrected midnight-to-23:59:59 month, see Findings); only anniversary mode seeds the install date |
| AapDb.Ledger.RolloverIfNeeded | aap_billing/db/db.py:103-113 | the settings and BilledHost table afterwards are the rollover of the old ones |
| AapDb.Ledger.GetUnbilledHosts | aap_billing/db/db.py:121-137 | returns distinct names, exactly those executed after the start without an open billed row, in query order |
| AapDb.Ledger.MarkHostsBilled | aap_billing/db/db.py:140-147 | appends one open row per host, in order, and changes no existing row |
| AapDb.Ledger.RecordBillingInstance | aap_billing/db/db.py:150-164 | appends one record carrying the billing data, billed at now |
| AapDb.Ledger.RecordLastRunDateTime | aap_billing/db/db.py:167-172 | stores now as the last run date, other settings kept |
| AapDb.Ledger.GetBaseQuantity | aap_billing/db/db.py:175-183 | the stored quantity for the pair, and None exactly when the pair was never recorded |
| AapDb.Ledger.RecordBaseQuantityAsWritten | aap_billing/db/db.py:186-195 | the store afterwards holds the new quantity even when the call fails because the pair existed |
| AapDb.Ledger.RecordBaseQuantity | aap_billing/db/db.py:186-195 | the write-once store: an existing pair is refused with the source's message and nothing is written |
| AzureDb.NextRolloverDate | azure_billing/db/db.py:52-63 | the computed rollover date is in the month after current, on the install day clamped to that month's length, at current's time of day |
| AzureDb.CheckRolloverNeeded | azure_billing/db/db.py:86-91 | due exactly when the rollover time is not after 23:59:59 today, so the time of day is ignored; always due once the rollover time has passed, never in an earlier month, always in a later one |
| AzureDb.NoPrematureRollover | azure_billing/db/db.py:53-55 | the rollover date is after current, and no check in current's month or earlier asks for a rollover |
| AzureDb.RolloverDueFromComputedDay | azure_billing/db/db.py:86-91 | in the next month a rollover is due exactly from the computed day on; in any later month always |
| AzureDb.RolloverSpecialExample | azure_billing/tests/testBilling.py:193-217 | today 2022-01-15, install day d: the rollover date is 2022-02-d, or 2022-02-28 for d past 28 |
| AzureDb.RolloverExampleMarch | azure_billing/tests/testBilling.py:108-113 | after the 2022-02-07 rollover for an install on the first, the next rollover date is 2022-03-01 |
| AzureDb.CloseBilledRows | azure_billing/db/db.py:98-100 | open rows with a billed date get rollover date now; every other row is unchanged |
| AzureDb.CloseBilledRowsKeepsUnbilled | azure_billing/db/db.py:96-100 | after a rollover the open rows are exactly the open rows never billed |
| AzureDb.NewRows | azure_billing/db/db.py:131-133 | one open row per host with billed date now |
| AzureDb.MarkedHostsClosedByRollover | azure_billing/db/db.py:127-133 | marked hosts are open, and the next rollover closes every row just marked |
| AzureDb.NothingUnbilledBeforeRolloverDate | azure_billing/db/db.py:103-115 | querying with a rollover date not yet reached returns no host when no execution is later than now |
| AzureDb.AzureLedger.constructor | azure_billing/db/db.py:7-12 | a new database has no install date, rollover date, rows or records |
| AzureDb.AzureLedger.GetInstallDate | azure_billing/db/db.py:74-83 | a stored install date is returned unchanged; otherwise now, time of day included, is stored and returned |
| AzureDb.AzureLedger.GetRolloverDate | azure_billing/db/db.py:47-71 | seeds the install date; returns the stored rollover date, or stores and returns the one computed from current |
| AzureDb.AzureLedger.Rollover | azure_billing/db/db.py:94-100 | the rollover date is deleted and the billed open rows are closed |
| AzureDb.AzureLedger.GetUnbilledHosts | azure_billing/db/db.py:103-124 | returns distinct names, exactly those executed after the start without an open billed row, in query order |
| AzureDb.AzureLedger.MarkHostsBilled | azure_billing/db/db.py:127-133 | appends one open row per host billed at now |
| AzureDb.AzureLedger.RecordBillingInstance | azure_billing/db/db.py:136-150 | appends one record carrying the billing data, billed at now |
| AzureDbV1.V1RecordRow | azure_billing/db.py:78-92 | the quantity is the number of hosts and the stored host string splits back into the host list |
| AzureDbV1.ReexecutedHostNotReported | azure_billing/db.py:56-62 | a host that ran again after its billed date is still not reported |
| AzureDbV1.V1Ledger.constructor | azure_billing/billing/models.py:4-56 | a new database has no rows or records |
| AzureDbV1.V1Ledger.GetUnbilledHosts | azure_billing/db.py:40-66 | returns distinct names, exactly the executed hosts with no BilledHost row at all |
| AzureDbV1.V1Ledger.MarkHostsBilled | azure_billing/db.py:69-75 | the BilledHost table is unchanged: nothing is saved |
| AzureDbV1.V1Ledger.RecordBillingInstance | azure_billing/db.py:78-92 | appends the record built from the host list |
| PlanFileLoader.FindInPlans | aap_billing/utils/plan_file_loader.py:22-24 | None exactly when no plan has the id; otherwise the quantity of the first plan with it |
| PlanFileLoader.FirstOfferWithPlan | aap_billing/utils/plan_file_loader.py:20-23 | the position of the first offer with the offer id that lists the plan, or the list length when none does |
| PlanFileLoader.FindInOffers | aap_billing/utils/plan_file_loader.py:20-24 | the plan's quantity in the first offer with the id that lists the plan; an offer with the id but not the plan does not stop the search |
| PlanFileLoader.FetchBaseQuantity | aap_billing/utils/plan_file_loader.py:4-24 | None when the file cannot be opened or parsed, or exactly when no offer lists the pair; otherwise the quantity of the first listed plan in the first offer (in document order) that has the pair |
| PlanFileLoader.ExampleLookups | aap_billing/tests/test_billing.py:79-81 | the test plans file gives 0 for ("bhavensttest", "plan7") and nothing for unlisted pairs |
| PlanFileLoader.SearchContinuesPastOfferWithoutPlan | aap_billing/utils/plan_file_loader.py:20-24 | a repeated offer id without the plan does not hide a later offer that has it |
| AzApi.StripPreviewSuffix | aap_billing/azure/azapi.py:130-135 | a text ending in "-preview" loses exactly that suffix; any other text is returned unchanged |
| AzApi.StripPreviewSuffixOfPreview | aap_billing/azure/azapi.py:130-135 | the preview offer id of an offer maps back to the offer id |
| AzApi.StripPreviewSuffixRemovesOne | aap_billing/azure/azapi.py:130-135 | only one suffix is removed |
| AzApi.ExtractAppMetadata | aap_billing/azure/azapi.py:149-152 | kind is copied; plan and offer ids are present exactly when the plan is; the offer id is the product with a trailing "-preview" stripped; the resource id is the usage id when present |
| AzApi.WorkloadTokenAsWritten | aap_billing/azure/azapi.py:47-76 | as written: a missing token file or a failed token request ends the run; missing variables or no token in the response give None; an issued token is returned |
| AzApi.WorkloadToken | aap_billing/azure/azapi.py:47-76 | missing configuration or a missing token in the response yields no token; only a failed token request ends the run |
| AzApi.WorkloadTokenAsWrittenDiffers | aap_billing/azure/azapi.py:52-62 | the as-written and the corrected token step differ on a missing token file and nowhere else |
| AzApi.ChooseToken | aap_billing/azure/azapi.py:167-170 | a missing or empty workload token is replaced by the pod-identity outcome; any other is used |
| AzApi.LoadMetadataWith | aap_billing/azure/azapi.py:167-177 | loading succeeds exactly when every call succeeds, and the metadata holds the chosen token, the app id and the extracted app metadata |
| AzApi.LoadMetadata | aap_billing/azure/azapi.py:167-179 | the corrected load: a failed token request ends it; a non-empty workload token is used, otherwise the pod-identity token; the app id and app metadata come from the last two calls |
| AzApi.LoadMetadataAsWritten | aap_billing/azure/azapi.py:58-62 | as written: a missing token file ends the load; in every other case it agrees with the corrected load |
| AzApi.AsWrittenAbortsWithoutTokenFile | aap_billing/azure/azapi.py:58-62 | with no token file and a working pod identity, the as-written load ends the run while the corrected one uses the pod-identity token |
| AzApi.UsagePayloadFor | aap_billing/azure/azapi.py:187-192 | the usage event reports one unit per host, for the app's resource and plan |
| AzApi.BillingRecordFor | aap_billing/azure/azapi.py:208-217 | the record's quantity is the number of hosts, its ids come from the metadata and event, and its host string splits back into the hosts |
| AzApi.RecordMatchesPayload | aap_billing/azure/azapi.py:186-217 | the record stores the quantity, resource, plan and dimension that were sent |
| AzApi.PegResult | aap_billing/azure/azapi.py:194-217 | no record without metadata; with it, a record exactly when the event is accepted, built from the accepted event id |
| AzApi.MetadataCache.constructor | aap_billing/azure/azapi.py:18-19 | nothing is loaded at first |
| AzApi.MetadataCache.GetManAppIdAndMetadata | aap_billing/azure/azapi.py:157-179 | cached metadata is returned without any call; otherwise it is loaded, and kept when the load succeeds |
| AzApi.MetadataCache.PegBillingCounter | aap_billing/azure/azapi.py:182-217 | the result is that of posting the usage event with cached or freshly loaded metadata; a loaded cache stays as it was, an empty one holds the loaded metadata when the load succeeded |
| AapCli.Run | aap_billing/cli.py:38-59 | rollover first; unbilled hosts against the stored period start; no call when none; a failed call records nothing and marks nothing; otherwise one record and one open row per host, after which every host that ran in the period has an open billed row; base quantities are untouched; the metadata cache is loaded only when there are hosts to bill |
| AzureCli.Run | azure_billing/cli.py:38-68 | rollover date read or computed first; hosts queried against it; billed, recorded and marked unless none or the call failed; rollover exactly when the date is reached and the run was not ended; nothing billed before the date is reached |

## Left out

- The Django ORM, its database routing (`BillingRouter`) and migrations: tables are fields of the ledger classes; concurrent runs against one database are not modelled.
- Logging, `argparse` options and `django.setup()` in both command lines.
- Time zones and microseconds: timestamps are UTC to the second. The default argument `current_date=datetime.now(timezone.utc)` is evaluated once per process; the model passes the same `now` to every step of a run, including the database's `Now()`.
- `getDate` and `setDate` reject a name that is not a `DateSettingEnum` with a log line; the model's key type admits only valid names.
- `getProcessedHostCount` ignores its `startDate` argument; the model has no such parameter.
- `fetchBaseQuantity`: a parsed file missing `offers`, `id`, `plans` or `base_quantity` raises `KeyError`; the model assumes that structure and takes the quantity as an integer.
- `azapi.py`: the URLs and headers of each request and the dependence of later requests on earlier answers are not modelled; each call is an outcome in `AzureEnv`. `effectiveStartTime` uses the local clock; the model passes `now`.
- The Azure-only command line calls azure_billing/azure/azapi.py, which is not part of this model; its metering call is the function parameter `meter`.
- Tests in aap_billing/tests/test_billing.py also call `getHostsToBill`, `markHostsSeen`, `cli.determineBaseQuantity` and a host-alias count that are not in the modelled aap_billing/db/db.py; they are not part of this model.
- AapPeriod.CalcBillingPeriod, AapDb.CurrentPeriod, AapDb.Rollover, AapDb.Ledger.CalcBillingPeriod, AapDb.Ledger.RolloverIfNeeded: in AWS mode these use the corrected period `AapPeriod.AwsPeriod` (midnight of the first to 23:59:59 of the last day), not the as-written `current_date.replace(day=1)` of aap_billing/db/db.py:86-89, which keeps now's time of day; so the model does not capture the source's rollover on every AWS run, which is proved separately in `AapDb.AwsAsWrittenReopensBilledHosts`.
- AapCli.Run: uses the corrected AWS period and the corrected token step, so in AWS mode it does not close the rows of the previous run of the same month, and with the token file missing it bills through the pod identity where the source ends the run.
- AzApi.MetadataCache.GetManAppIdAndMetadata, AzApi.MetadataCache.PegBillingCounter: load through the corrected `AzApi.LoadMetadata`, in which a missing federated token file falls back to the pod identity; the as-written load (`AzApi.LoadMetadataAsWritten`) ends the run there and is modelled beside it only.
- The exit code of `sys.exit(1)` and the text of error messages other than the base-quantity one.

## Findings

| source | as written | input that shows it | evidently intended | confidence | as-written member | corrected member |
|---|---|---|---|---|---|---|
| aap_billing/db/db.py:190-194 | `update_or_create` stores the new base quantity, then raises `RuntimeError` because the row existed | ("bhavensttest", "plan7") stored as 0, then a write of 99: the call raises, yet 99 is stored | a base quantity is written once; a refused write leaves the stored value | high, not executed | AapDb.AsWrittenOverwritesBeforeRaising | AapDb.BaseQuantityWriteOnce |
| aap_billing/azure/azapi.py:60 | `except KeyError or FileNotFoundError` evaluates to `except KeyError`, so a missing federated token file escapes | all workload-identity variables set, token file absent, pod identity available: the run ends with `FileNotFoundError` | catch both errors, return None and fall back to the pod identity | high, not executed | AzApi.AsWrittenAbortsWithoutTokenFile | AzApi.WorkloadToken |
| aap_billing/db/db.py:86-89 | the AWS period start `current_date.replace(day=1)` keeps the time of day, so the start compared at db.py:107 differs on every run | runs at 09:00 and 10:00 on the same day: the second run closes the rows the first had marked, and those hosts are billed again | the period starts at midnight of the first of the month and ends at 23:59:59 of its last day | medium, not executed | AapDb.AwsAsWrittenReopensBilledHosts | AapDb.AwsRolloverStableWithinMonth |
