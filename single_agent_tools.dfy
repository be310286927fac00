/**
 * The tools of the LLM single-agent variant (1-llm-single-agent). Its
 * eligibility check upper-cases without stripping, and tests the reason
 * against the shipping-method list and the shipping method against the
 * reason list.
 */
module SingleAgentTools {
  import opened Text
  import opened Purchases
  import LoopTools

  /** The fixed purchase table: Alexis has one order, David two. */
  const HistoryData: map<string, seq<Purchase>> :=
    map["Alexis" := [AlexisJD001], "David" := [DavidSG001, DavidSG002]]

  /** `get_purchase_history`: the stored list for a known name, otherwise the
      empty list; the result is empty exactly for unknown names. */
  function GetPurchaseHistory(purchaser: string): (r: seq<Purchase>)
    ensures purchaser in HistoryData ==> r == HistoryData[purchaser]
    ensures r == [] <==> purchaser !in HistoryData
  {
    if purchaser !in HistoryData then [] else HistoryData[purchaser]
  }

  /** David's two orders come back in stored order, the insured SG001 first
      and the standard SG002 second; Alexis has one STANDARD order; any other
      name has none. */
  lemma KnownPurchasers(other: string)
    requires other != "Alexis" && other != "David"
    ensures GetPurchaseHistory("David") == [DavidSG001, DavidSG002]
    ensures GetPurchaseHistory("David")[0].shippingMethod == "INSURED"
    ensures GetPurchaseHistory("David")[1].shippingMethod == "STANDARD"
    ensures GetPurchaseHistory("Alexis") == [AlexisJD001] && AlexisJD001.shippingMethod == "STANDARD"
    ensures GetPurchaseHistory(other) == []
  {
  }

  const EligibleShippingMethods: seq<string> := ["INSURED", "OVERNIGHT"]
  const EligibleReasons: seq<string> := ["DAMAGED", "NEVER_ARRIVED"]

  /** `check_refund_eligible` as written: true exactly when the upper-cased
      reason is a shipping method on the list and the upper-cased shipping
      method is a reason on the list. */
  function CheckRefundEligible(reason: string, shippingMethod: string): (r: bool)
    ensures r <==> Upper(reason) in {"INSURED", "OVERNIGHT"} && Upper(shippingMethod) in {"DAMAGED", "NEVER_ARRIVED"}
  {
    Upper(reason) in EligibleShippingMethods && Upper(shippingMethod) in EligibleReasons
  }

  /** The natural call, a damaged insured order, is refused, while the same
      words with the arguments swapped are accepted. */
  lemma DamagedInsuredRejected()
    ensures !CheckRefundEligible("DAMAGED", "INSURED")
    ensures CheckRefundEligible("INSURED", "DAMAGED")
  {
    assert Upper("DAMAGED") == "DAMAGED";
    assert Upper("INSURED") == "INSURED";
  }

  /** Matching ignores letter case ... */
  lemma CheckRefundEligibleIgnoresCase(reason: string, reason': string, shipping: string, shipping': string)
    requires Upper(reason) == Upper(reason') && Upper(shipping) == Upper(shipping')
    ensures CheckRefundEligible(reason, shipping) == CheckRefundEligible(reason', shipping')
  {
  }

  /** ... but not surrounding whitespace: a space that `strip()` would have
      removed makes an accepted argument pair rejected. */
  lemma CheckRefundEligibleKeepsWhitespace()
    ensures CheckRefundEligible("insured", "damaged")
    ensures !CheckRefundEligible("insured ", "damaged")
  {
    assert Upper("insured") == "INSURED";
    assert Upper("damaged") == "DAMAGED";
    assert |Upper("insured ")| == 8;
  }

  /** The check with each argument matched against its own list. */
  function IntendedCheckRefundEligible(reason: string, shippingMethod: string): (r: bool)
    ensures r <==> Upper(reason) in {"DAMAGED", "NEVER_ARRIVED"} && Upper(shippingMethod) in {"INSURED", "OVERNIGHT"}
  {
    Upper(reason) in EligibleReasons && Upper(shippingMethod) in EligibleShippingMethods
  }

  /** The check as written is the intended check with its arguments swapped,
      and the intended check accepts a damaged insured order. */
  lemma CrossedCheckIsSwapped(reason: string, shippingMethod: string)
    ensures CheckRefundEligible(reason, shippingMethod) == IntendedCheckRefundEligible(shippingMethod, reason)
    ensures IntendedCheckRefundEligible("DAMAGED", "INSURED")
    ensures IntendedCheckRefundEligible("never_arrived", "Overnight")
  {
    assert Upper("DAMAGED") == "DAMAGED";
    assert Upper("INSURED") == "INSURED";
    assert Upper("never_arrived") == "NEVER_ARRIVED";
    assert Upper("Overnight") == "OVERNIGHT";
  }

  /** `process_refund`: the same confirmation for every amount and order id. */
  function ProcessRefund(amountCents: int, orderId: string): (r: string)
    ensures r == LoopTools.RefundProcessed
  {
    "Refund processed successfully"
  }
}
