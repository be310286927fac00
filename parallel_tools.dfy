/**
 * The tools of the parallel workflow variant (4-workflow-parallel-multi-agent).
 * Its eligibility check looks at the reason only: the purchase verifier runs
 * beside it, so the shipping method is not available to it.
 */
module ParallelTools {
  import opened Text
  import opened Purchases
  import LoopTools

  /** The fixed purchase table: one order each for Alexis and David. */
  const HistoryData: map<string, seq<Purchase>> :=
    map["Alexis" := [AlexisJD001], "David" := [DavidSG001]]

  /** `get_purchase_history`: the stored list for a known name, otherwise the
      empty list; the result is empty exactly for unknown names. */
  function GetPurchaseHistory(purchaser: string): (r: seq<Purchase>)
    ensures purchaser in HistoryData ==> r == HistoryData[purchaser]
    ensures r == [] <==> purchaser !in HistoryData
  {
    if purchaser !in HistoryData then [] else HistoryData[purchaser]
  }

  /** Alexis has one STANDARD order, David one INSURED order, and any other
      name none. */
  lemma KnownPurchasers(other: string)
    requires other != "Alexis" && other != "David"
    ensures GetPurchaseHistory("Alexis") == [AlexisJD001] && AlexisJD001.shippingMethod == "STANDARD"
    ensures GetPurchaseHistory("David") == [DavidSG001] && DavidSG001.shippingMethod == "INSURED"
    ensures GetPurchaseHistory(other) == []
  {
  }

  /** The same purchase table as the loop variant. */
  lemma SameHistoryAsLoopVariant(purchaser: string)
    ensures GetPurchaseHistory(purchaser) == LoopTools.GetPurchaseHistory(purchaser)
  {
  }

  const EligibleReasons: seq<string> := ["DAMAGED", "LOST", "LATE"]

  /** `check_refund_eligible`: "TRUE" exactly when the normalised reason is
      DAMAGED, LOST or LATE, "FALSE" otherwise. */
  function CheckRefundEligible(reason: string): (r: string)
    ensures r == "TRUE" || r == "FALSE"
    ensures r == "TRUE" <==> StripUpper(reason) in {"DAMAGED", "LOST", "LATE"}
  {
    var reason := StripUpper(reason);
    if reason in EligibleReasons then "TRUE" else "FALSE"
  }

  /** The reason-only check agrees with the loop variant's check for an
      insured order, and is never stricter than it. */
  lemma ReasonOnlyCheckMatchesInsured(reason: string, shipping: string)
    ensures CheckRefundEligible(reason) == LoopTools.CheckRefundEligible(reason, "INSURED")
    ensures LoopTools.CheckRefundEligible(reason, shipping) == "TRUE" ==> CheckRefundEligible(reason) == "TRUE"
  {
    LoopTools.StripUpperWord("INSURED", "INSURED");
  }

  /** The check ignores letter case and surrounding whitespace. */
  lemma CheckRefundEligibleNormalises(p: string, reason: string, q: string, reason': string)
    requires AllSpace(p) && AllSpace(q) && Upper(reason) == Upper(reason')
    ensures CheckRefundEligible(p + reason + q) == CheckRefundEligible(reason')
  {
    StripUpperPadding(p, reason, q);
    StripUpperCaseInsensitive(reason, reason');
  }

  /** `process_refund`: the same confirmation for every amount and order id. */
  function ProcessRefund(amountCents: int, orderId: string): (r: string)
    ensures r == LoopTools.RefundProcessed
  {
    "Refund processed successfully"
  }
}
