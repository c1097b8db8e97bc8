/** The Azure marketplace client of aap_billing/azure/azapi.py: how the access token is
    chosen, what is read from the managed application, the once-per-process metadata
    cache, and the usage event and billing record built for a list of hosts. Every HTTP
    call is given to the model as its outcome; `Aborted` stands for a call that ends the
    process (`sys.exit(1)` or an uncaught exception). */
module AzApi {
  import opened Wrappers
  import opened Calendar
  import opened Records

  const PreviewSuffix: string := "-preview"

  /** `_stripPreviewSuffix` (azapi.py:130-135). */
  function StripPreviewSuffix(text: string): (r: string)
    ensures |text| >= |PreviewSuffix| && text[|text| - |PreviewSuffix|..] == PreviewSuffix ==>
      r + PreviewSuffix == text
    ensures !(|text| >= |PreviewSuffix| && text[|text| - |PreviewSuffix|..] == PreviewSuffix) ==> r == text
  {
    if |text| >= |PreviewSuffix| && text[|text| - |PreviewSuffix|..] == PreviewSuffix then
      assert text[..|text| - |PreviewSuffix|] + text[|text| - |PreviewSuffix|..] == text;
      text[..|text| - |PreviewSuffix|]
    else text
  }

  /** The preview offer id maps back to the offer id it was made from. */
  lemma StripPreviewSuffixOfPreview(offer: string)
    ensures StripPreviewSuffix(offer + PreviewSuffix) == offer
  {
    var t := offer + PreviewSuffix;
    assert t[|t| - |PreviewSuffix|..] == PreviewSuffix;
    assert t[..|t| - |PreviewSuffix|] == offer;
  }

  /** Only one suffix is removed. */
  lemma StripPreviewSuffixRemovesOne()
    ensures StripPreviewSuffix("aap-preview-preview") == "aap-preview"
    ensures StripPreviewSuffix("aap") == "aap"
  {
    StripPreviewSuffixOfPreview("aap-preview");
  }

  /** The `plan` object of a managed application. */
  datatype PlanField = PlanField(name: string, product: string)

  /** The parts of the managed application JSON that are read: `kind`, the optional
      `plan`, and the optional `properties.billingDetails.resourceUsageId`. */
  datatype ManagedAppResponse = ManagedAppResponse(kind: string, plan: Option<PlanField>, resourceUsageId: Option<string>)

  /** The metadata read off the managed application. */
  datatype AppMetadata = AppMetadata(kind: string, planId: Option<string>, offerId: Option<string>, resourceId: Option<string>)

  /** The extraction of `_fetchManagedAppMetadata` (azapi.py:138-154). */
  function ExtractAppMetadata(j: ManagedAppResponse): (m: AppMetadata)
    ensures m.kind == j.kind
    ensures m.planId.Some? <==> j.plan.Some?
    ensures m.offerId.Some? <==> j.plan.Some?
    ensures j.plan.Some? ==> m.planId.value == j.plan.value.name
    ensures j.plan.Some? ==> m.offerId == Some(StripPreviewSuffix(j.plan.value.product))
    ensures m.resourceId == j.resourceUsageId
  {
    AppMetadata(
      j.kind,
      if j.plan.Some? then Some(j.plan.value.name) else None,
      if j.plan.Some? then Some(StripPreviewSuffix(j.plan.value.product)) else None,
      j.resourceUsageId)
  }

  /** How `_fetchWorkloadIdentityAccessToken` (azapi.py:47-76) went: an environment
      variable was missing, the token file named by one was missing, the token request
      failed, the response had no access token, or a token was issued. */
  datatype WorkloadAttempt = EnvVarMissing | TokenFileMissing | RequestFailed | NoAccessToken | Issued(token: string)

  /** The workload-identity token as written: `except KeyError or FileNotFoundError`
      evaluates to `except KeyError`, so a missing token file is not caught and ends the
      process instead of returning None. */
  function WorkloadTokenAsWritten(a: WorkloadAttempt): (r: Fetched<Option<string>>)
    ensures r.Aborted? <==> a.TokenFileMissing? || a.RequestFailed?
    ensures a.EnvVarMissing? || a.NoAccessToken? ==> r == Got(None)
    ensures a.Issued? ==> r == Got(Some(a.token))
  {
    match a
    case EnvVarMissing => Got(None)
    case TokenFileMissing => Aborted
    case RequestFailed => Aborted
    case NoAccessToken => Got(None)
    case Issued(t) => Got(Some(t))
  }

  /** The workload-identity token with both exceptions caught: any missing configuration
      means "no token" and lets the caller fall back to the pod identity. */
  function WorkloadToken(a: WorkloadAttempt): (r: Fetched<Option<string>>)
    ensures a.EnvVarMissing? || a.TokenFileMissing? || a.NoAccessToken? ==> r == Got(None)
    ensures a.Issued? ==> r == Got(Some(a.token))
    ensures r.Aborted? <==> a.RequestFailed?
  {
    match a
    case EnvVarMissing => Got(None)
    case TokenFileMissing => Got(None)
    case RequestFailed => Aborted
    case NoAccessToken => Got(None)
    case Issued(t) => Got(Some(t))
  }

  /** The two differ on a missing token file and nowhere else. */
  lemma WorkloadTokenAsWrittenDiffers(a: WorkloadAttempt)
    ensures WorkloadTokenAsWritten(a) != WorkloadToken(a) <==> a.TokenFileMissing?
  {
  }

  /** `if not token:` fall back to the pod-identity (MSI) token: a missing or empty
      workload token is replaced, any other is used. */
  function ChooseToken(workload: Option<string>, msi: Fetched<string>): (r: Fetched<string>)
    ensures workload.Some? && workload.value != "" ==> r == Got(workload.value)
    ensures workload.None? || workload.value == "" ==> r == msi
  {
    if workload.Some? && workload.value != "" then Got(workload.value) else msi
  }

  /** The outcomes of the calls `getManAppIdAndMetadata` makes, in order. */
  datatype AzureEnv = AzureEnv(
    workload: WorkloadAttempt,
    msiToken: Fetched<string>,
    subscriptionAndNodeGroup: Fetched<(string, string)>,
    managedResourceGroup: Fetched<string>,
    managedAppId: Fetched<string>,
    managedApp: Fetched<ManagedAppResponse>)

  /** The cached `metadata` dict: token, managed application id and app metadata. */
  datatype Metadata = Metadata(token: string, managedAppId: string, app: AppMetadata)

  /** The loading branch of `getManAppIdAndMetadata` (azapi.py:167-177) given the
      workload-identity outcome: any aborted call aborts the whole load. */
  function LoadMetadataWith(workload: Fetched<Option<string>>, env: AzureEnv): (r: Fetched<Metadata>)
    ensures r.Got? <==> (workload.Got? && ChooseToken(workload.value, env.msiToken).Got? &&
      env.subscriptionAndNodeGroup.Got? && env.managedResourceGroup.Got? && env.managedAppId.Got? && env.managedApp.Got?)
    ensures r.Got? ==> (r.value.token == ChooseToken(workload.value, env.msiToken).value &&
      r.value.managedAppId == env.managedAppId.value && r.value.app == ExtractAppMetadata(env.managedApp.value))
  {
    if workload.Aborted? then Aborted
    else
      var token := ChooseToken(workload.value, env.msiToken);
      if token.Aborted? || env.subscriptionAndNodeGroup.Aborted? || env.managedResourceGroup.Aborted? ||
         env.managedAppId.Aborted? || env.managedApp.Aborted? then Aborted
      else Got(Metadata(token.value, env.managedAppId.value, ExtractAppMetadata(env.managedApp.value)))
  }

  /** Loading with the missing token file caught: only a failed token request among the
      workload-identity steps ends the load, and without a usable workload token the pod
      identity's token is used. */
  function LoadMetadata(env: AzureEnv): (r: Fetched<Metadata>)
    ensures env.workload.RequestFailed? ==> r.Aborted?
    ensures r.Got? && env.workload.Issued? && env.workload.token != "" ==> r.value.token == env.workload.token
    ensures r.Got? && !(env.workload.Issued? && env.workload.token != "") ==> env.msiToken.Got? && r.value.token == env.msiToken.value
    ensures r.Got? ==> (env.managedAppId.Got? && env.managedApp.Got? &&
      r.value.managedAppId == env.managedAppId.value && r.value.app == ExtractAppMetadata(env.managedApp.value))
  {
    LoadMetadataWith(WorkloadToken(env.workload), env)
  }

  /** Loading with the workload-identity step as written: a missing token file ends the
      load; in every other case it agrees with the corrected load. */
  function LoadMetadataAsWritten(env: AzureEnv): (r: Fetched<Metadata>)
    ensures env.workload.TokenFileMissing? ==> r.Aborted?
    ensures !env.workload.TokenFileMissing? ==> r == LoadMetadata(env)
  {
    WorkloadTokenAsWrittenDiffers(env.workload);
    LoadMetadataWith(WorkloadTokenAsWritten(env.workload), env)
  }

  /** On a pod without the federated token file but with a working pod identity, the
      as-written load ends the process while the corrected one uses the MSI token. */
  lemma AsWrittenAbortsWithoutTokenFile(env: AzureEnv)
    requires env.workload == TokenFileMissing
    requires env.msiToken.Got? && env.subscriptionAndNodeGroup.Got? && env.managedResourceGroup.Got?
    requires env.managedAppId.Got? && env.managedApp.Got?
    ensures LoadMetadataAsWritten(env).Aborted?
    ensures LoadMetadata(env).Got? && LoadMetadata(env).value.token == env.msiToken.value
  {
  }

  /** The JSON body of the usage event (azapi.py:187-192). */
  datatype UsagePayload = UsagePayload(resourceId: Option<string>, dimension: string, quantity: int, effectiveStartTime: DateTime, planId: Option<string>)

  /** The usage event for `hosts`: one unit per host. */
  function UsagePayloadFor(m: Metadata, dimension: string, hosts: seq<string>, start: DateTime): (p: UsagePayload)
    ensures p.quantity == |hosts| && p.dimension == dimension && p.effectiveStartTime == start
    ensures p.resourceId == m.app.resourceId && p.planId == m.app.planId
  {
    UsagePayload(m.app.resourceId, dimension, |hosts|, start, m.app.planId)
  }

  /** The billing record returned for an accepted usage event (azapi.py:208-217). */
  function BillingRecordFor(m: Metadata, dimension: string, hosts: seq<string>, eventId: string): (r: BillingData)
    ensures r.quantity == |hosts| && r.dimension == dimension && r.usageEventId == eventId
    ensures r.managedAppId == m.managedAppId && r.resourceId == m.app.resourceId && r.plan == m.app.planId
    ensures |hosts| >= 1 && (forall i :: 0 <= i < |hosts| ==> ',' !in hosts[i]) ==> Split(r.hosts, ',') == hosts
  {
    var r := BillingData(Join(hosts, ','), dimension, |hosts|, m.managedAppId, m.app.resourceId, m.app.planId, eventId);
    if |hosts| >= 1 && (forall i :: 0 <= i < |hosts| ==> ',' !in hosts[i]) then
      SplitJoin(hosts, ',');
      r
    else
      r
  }

  /** The record stores what was sent: the same quantity, resource and plan. */
  lemma RecordMatchesPayload(m: Metadata, dimension: string, hosts: seq<string>, start: DateTime, eventId: string)
    ensures var p := UsagePayloadFor(m, dimension, hosts, start);
            var r := BillingRecordFor(m, dimension, hosts, eventId);
            r.quantity == p.quantity && r.resourceId == p.resourceId && r.plan == p.planId && r.dimension == p.dimension
  {
  }

  /** The result of `pegBillingCounter` once the metadata is known: the usage event is
      posted and its id goes into the record; a refused post ends the process. */
  function PegResult(m: Fetched<Metadata>, dimension: string, hosts: seq<string>, start: DateTime,
                     post: UsagePayload -> Fetched<string>): (r: Fetched<BillingData>)
    ensures m.Aborted? ==> r.Aborted?
    ensures m.Got? ==> (r.Got? <==> post(UsagePayloadFor(m.value, dimension, hosts, start)).Got?)
    ensures r.Got? ==> r.value == BillingRecordFor(m.value, dimension, hosts, post(UsagePayloadFor(m.value, dimension, hosts, start)).value)
  {
    if m.Aborted? then Aborted
    else
      var event := post(UsagePayloadFor(m.value, dimension, hosts, start));
      if event.Aborted? then Aborted else Got(BillingRecordFor(m.value, dimension, hosts, event.value))
  }

  /** The module-level `metadata_loaded` / `metadata` pair: None until the first load. */
  class MetadataCache {
    var cached: Option<Metadata>

    /** Nothing loaded yet. */
    constructor ()
      ensures cached == None
    {
      cached := None;
    }

    /** `getManAppIdAndMetadata` (azapi.py:157-179): the cached metadata when loaded,
        otherwise load it once and keep it. */
    method GetManAppIdAndMetadata(env: AzureEnv) returns (r: Fetched<Metadata>)
      modifies this
      ensures old(cached).Some? ==> r == Got(old(cached).value) && cached == old(cached)
      ensures old(cached).None? ==> r == LoadMetadata(env) && cached == (if r.Got? then Some(r.value) else None)
    {
      if cached.Some? {
        r := Got(cached.value);
        return;
      }
      var workload := WorkloadToken(env.workload);
      if workload.Aborted? {
        r := Aborted;
        return;
      }
      var token := ChooseToken(workload.value, env.msiToken);
      if token.Aborted? || env.subscriptionAndNodeGroup.Aborted? || env.managedResourceGroup.Aborted? ||
         env.managedAppId.Aborted? || env.managedApp.Aborted? {
        r := Aborted;
        return;
      }
      var m := Metadata(token.value, env.managedAppId.value, ExtractAppMetadata(env.managedApp.value));
      cached := Some(m);
      r := Got(m);
    }

    /** `pegBillingCounter` (azapi.py:182-217). */
    method PegBillingCounter(dimension: string, hosts: seq<string>, start: DateTime, env: AzureEnv,
                             post: UsagePayload -> Fetched<string>) returns (r: Fetched<BillingData>)
      modifies this
      ensures r == PegResult(if old(cached).Some? then Got(old(cached).value) else LoadMetadata(env), dimension, hosts, start, post)
      ensures old(cached).Some? ==> cached == old(cached)
      ensures old(cached).None? ==> cached == (if LoadMetadata(env).Got? then Some(LoadMetadata(env).value) else None)
    {
      var m := GetManAppIdAndMetadata(env);
      if m.Aborted? {
        r := Aborted;
        return;
      }
      var event := post(UsagePayloadFor(m.value, dimension, hosts, start));
      if event.Aborted? {
        r := Aborted;
        return;
      }
      r := Got(BillingRecordFor(m.value, dimension, hosts, event.value));
    }
  }
}
