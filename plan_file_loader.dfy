/** The base-quantity lookup of aap_billing/utils/plan_file_loader.py: search the parsed
    plans file for an offer and a plan within it. Opening and parsing the file are given
    to the model as their outcome. */
module PlanFileLoader {
  import opened Wrappers

  datatype Plan = Plan(id: string, baseQuantity: int)
  datatype Offer = Offer(id: string, plans: seq<Plan>)

  /** What reading the plans file produced: it could not be opened, it was not JSON, or
      it parsed to a list of offers. */
  datatype PlanFileRead = CannotOpen | InvalidJson | Parsed(offers: seq<Offer>)

  /** Some plan of `plans` has the id `planId`. */
  predicate HasPlan(plans: seq<Plan>, planId: string) {
    exists j :: 0 <= j < |plans| && plans[j].id == planId
  }

  /** The inner loop: the base quantity of the first plan with id `planId`. */
  function FindInPlans(plans: seq<Plan>, planId: string): (r: Option<int>)
    ensures r.None? <==> !HasPlan(plans, planId)
    ensures r.Some? ==> exists j :: (0 <= j < |plans| && plans[j].id == planId && plans[j].baseQuantity == r.value &&
      forall k :: 0 <= k < j ==> plans[k].id != planId)
  {
    if plans == [] then None
    else if plans[0].id == planId then Some(plans[0].baseQuantity)
    else
      var r := FindInPlans(plans[1..], planId);
      assert HasPlan(plans, planId) <==> HasPlan(plans[1..], planId) by {
        if HasPlan(plans, planId) {
          var j :| 0 <= j < |plans| && plans[j].id == planId;
          assert plans[1..][j - 1] == plans[j];
        }
      }
      if r.Some? then
        var j :| 0 <= j < |plans[1..]| && plans[1..][j].id == planId && plans[1..][j].baseQuantity == r.value &&
          forall k :: 0 <= k < j ==> plans[1..][k].id != planId;
        assert plans[j + 1] == plans[1..][j];
        r
      else r
  }

  /** `offer` has the id `offerId` and lists a plan with id `planId`. */
  predicate OfferHasPlan(offer: Offer, offerId: string, planId: string) {
    offer.id == offerId && HasPlan(offer.plans, planId)
  }

  /** The position of the first offer that has the id and the plan; `|offers|` when none. */
  function FirstOfferWithPlan(offers: seq<Offer>, offerId: string, planId: string): (i: nat)
    ensures i <= |offers|
    ensures i < |offers| ==> OfferHasPlan(offers[i], offerId, planId)
    ensures forall k :: 0 <= k < i ==> !OfferHasPlan(offers[k], offerId, planId)
  {
    if offers == [] then 0
    else if OfferHasPlan(offers[0], offerId, planId) then 0
    else 1 + FirstOfferWithPlan(offers[1..], offerId, planId)
  }

  /** The outer loop: the first offer with id `offerId` that has the plan decides; an
      offer with that id but without the plan does not stop the search. */
  function FindInOffers(offers: seq<Offer>, offerId: string, planId: string): (r: Option<int>)
    ensures var i := FirstOfferWithPlan(offers, offerId, planId);
            r == if i < |offers| then FindInPlans(offers[i].plans, planId) else None
  {
    if offers == [] then None
    else
      var here := if offers[0].id == offerId then FindInPlans(offers[0].plans, planId) else None;
      if here.Some? then here else FindInOffers(offers[1..], offerId, planId)
  }

  /** `fetchBaseQuantity` (plan_file_loader.py:4-24): None when the file cannot be opened,
      is not JSON, or lists no such offer and plan; otherwise the quantity of the plan in
      the first offer that has both ids. */
  function FetchBaseQuantity(read: PlanFileRead, offerId: string, planId: string): (r: Option<int>)
    ensures read.CannotOpen? || read.InvalidJson? ==> r.None?
    ensures read.Parsed? ==> r == FindInOffers(read.offers, offerId, planId)
    ensures read.Parsed? ==>
      (r.None? <==> forall i :: 0 <= i < |read.offers| ==> !OfferHasPlan(read.offers[i], offerId, planId))
    ensures read.Parsed? && r.Some? ==> exists i, j :: (0 <= i < |read.offers| && 0 <= j < |read.offers[i].plans| &&
      read.offers[i].id == offerId && read.offers[i].plans[j].id == planId && read.offers[i].plans[j].baseQuantity == r.value)
  {
    match read
    case CannotOpen => None
    case InvalidJson => None
    case Parsed(offers) =>
      var r := FindInOffers(offers, offerId, planId);
      var i := FirstOfferWithPlan(offers, offerId, planId);
      if i < |offers| then
        var j :| 0 <= j < |offers[i].plans| && offers[i].plans[j].id == planId && offers[i].plans[j].baseQuantity == r.value &&
          forall k :: 0 <= k < j ==> offers[i].plans[k].id != planId;
        r
      else r
  }

  /** The plans file of aap_billing/tests/test_billing.py:79-81. */
  function ExamplePlansFile(): PlanFileRead {
    Parsed([Offer("bhavensttest", [Plan("plan7", 0)])])
  }

  /** aap_billing/tests/test_billing.py:345-351: the listed pair has base quantity 0,
      an unlisted one has none. */
  lemma ExampleLookups()
    ensures FetchBaseQuantity(ExamplePlansFile(), "bhavensttest", "plan7") == Some(0)
    ensures FetchBaseQuantity(ExamplePlansFile(), "offer", "plan") == None
    ensures FetchBaseQuantity(ExamplePlansFile(), "bhavensttest", "plan8") == None
  {
  }

  /** An offer that repeats an id without the plan does not hide a later offer that has it. */
  lemma SearchContinuesPastOfferWithoutPlan()
    ensures FetchBaseQuantity(Parsed([Offer("o", [Plan("p1", 5)]), Offer("o", [Plan("p2", 7)])]), "o", "p2") == Some(7)
  {
  }
}
