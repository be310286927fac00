/**
 * The tools of the loop workflow variant (5-workflow-loop-multi-agent):
 * purchase lookup, refund eligibility with `strip().upper()` normalisation,
 * the three-step alternative offer, and refund processing.
 */
module LoopTools {
  import opened Text
  import opened Purchases

  /** The fixed purchase table: one order each for Alexis and David. */
  const HistoryData: map<string, seq<Purchase>> :=
    map["Alexis" := [AlexisJD001], "David" := [DavidSG001]]

  /** `get_purchase_history`: the stored list for a known name, otherwise the
      empty list; every known name has at least one order, so the result is
      empty exactly for unknown names. */
  function GetPurchaseHistory(purchaser: string): (r: seq<Purchase>)
    ensures purchaser in HistoryData ==> r == HistoryData[purchaser]
    ensures r == [] <==> purchaser !in HistoryData
  {
    if purchaser !in HistoryData then [] else HistoryData[purchaser]
  }

  lemma UnknownPurchaserHasNoHistory(purchaser: string)
    requires purchaser != "Alexis" && purchaser != "David"
    ensures GetPurchaseHistory(purchaser) == []
  {
  }

  /** Alexis has one STANDARD order and David one INSURED order; the lookup
      is exact, so a differently-cased name is unknown. */
  lemma KnownPurchasers()
    ensures GetPurchaseHistory("Alexis") == [AlexisJD001]
    ensures |GetPurchaseHistory("Alexis")| == 1 && GetPurchaseHistory("Alexis")[0].shippingMethod == "STANDARD"
    ensures GetPurchaseHistory("David") == [DavidSG001]
    ensures |GetPurchaseHistory("David")| == 1 && GetPurchaseHistory("David")[0].shippingMethod == "INSURED"
    ensures GetPurchaseHistory("alexis") == []
  {
  }

  const EligibleReasons: seq<string> := ["DAMAGED", "LOST", "LATE"]
  const EligibleShippingMethods: seq<string> := ["INSURED"]

  /** `check_refund_eligible`: answers "TRUE" or "FALSE" (the meaning of
      the answer is CheckRefundEligibleMeaning). */
  function CheckRefundEligible(reason: string, shippingMethod: string): (r: string)
    ensures r == "TRUE" || r == "FALSE"
  {
    var reason := StripUpper(reason);
    var shippingMethod := StripUpper(shippingMethod);
    if reason in EligibleReasons && shippingMethod in EligibleShippingMethods then "TRUE" else "FALSE"
  }

  /** The answer is "TRUE" exactly when the normalised reason is DAMAGED,
      LOST or LATE and the normalised shipping method is INSURED. */
  lemma CheckRefundEligibleMeaning(reason: string, shippingMethod: string)
    ensures CheckRefundEligible(reason, shippingMethod) == "TRUE" <==>
      StripUpper(reason) in {"DAMAGED", "LOST", "LATE"} && StripUpper(shippingMethod) == "INSURED"
  {
    var r := StripUpper(reason);
    var m := StripUpper(shippingMethod);
    assert r in EligibleReasons <==> r in {"DAMAGED", "LOST", "LATE"};
    assert m in EligibleShippingMethods <==> m == "INSURED";
  }

  /** The eligibility check ignores letter case in both arguments. */
  lemma CheckRefundEligibleIgnoresCase(reason: string, reason': string, shipping: string, shipping': string)
    requires Upper(reason) == Upper(reason') && Upper(shipping) == Upper(shipping')
    ensures CheckRefundEligible(reason, shipping) == CheckRefundEligible(reason', shipping')
  {
    StripUpperCaseInsensitive(reason, reason');
    StripUpperCaseInsensitive(shipping, shipping');
  }

  /** The eligibility check ignores surrounding whitespace in both arguments. */
  lemma CheckRefundEligibleIgnoresPadding(p: string, reason: string, q: string, p': string, shipping: string, q': string)
    requires AllSpace(p) && AllSpace(q) && AllSpace(p') && AllSpace(q')
    ensures CheckRefundEligible(p + reason + q, p' + shipping + q') == CheckRefundEligible(reason, shipping)
  {
    StripUpperPadding(p, reason, q);
    StripUpperPadding(p', shipping, q');
  }

  /** A padded, mixed-case request for a damaged insured order is eligible. */
  lemma PaddedLowerCaseRequestEligible()
    ensures CheckRefundEligible(" damaged\n", "Insured ") == "TRUE"
  {
    assert " damaged\n" == " " + "damaged" + "\n";
    assert "Insured " == [] + "Insured" + " ";
    assert AllSpace(" ") && AllSpace("\n") && AllSpace([]);
    CheckRefundEligibleIgnoresPadding(" ", "damaged", "\n", [], "Insured", " ");
    LowerCaseRequestEligible();
  }

  lemma LowerCaseRequestEligible()
    ensures CheckRefundEligible("damaged", "Insured") == "TRUE"
  {
    DamagedNormalises();
    InsuredNormalises();
    CheckRefundEligibleMeaning("damaged", "Insured");
  }

  lemma DamagedNormalises()
    ensures StripUpper("damaged") == "DAMAGED"
  {
    StripUpperWord("damaged", "DAMAGED");
  }

  lemma InsuredNormalises()
    ensures StripUpper("Insured") == "INSURED"
  {
    StripUpperWord("Insured", "INSURED");
  }

  lemma StripUpperWord(w: string, u: string)
    requires w != [] && forall i :: 0 <= i < |w| ==> 'A' <= UpperChar(w[i]) <= 'Z'
    requires |u| == |w| && forall i :: 0 <= i < |w| ==> u[i] == UpperChar(w[i])
    ensures StripUpper(w) == u
  {
    LetterNotSpace(w[0]);
    LetterNotSpace(w[|w| - 1]);
    StripTrimmed(w);
    assert Upper(w) == u;
  }

  lemma LetterNotSpace(c: char)
    requires 'A' <= UpperChar(c) <= 'Z'
    ensures !IsSpace(c)
  {
  }

  /** A standard-shipping order is never eligible, whatever the reason. */
  lemma StandardShippingNeverEligible(reason: string)
    ensures CheckRefundEligible(reason, "STANDARD") == "FALSE"
  {
    StripUpperWord("STANDARD", "STANDARD");
  }

  const InvalidIteration := "\U{274C} Invalid iteration"

  /** The three alternatives, in the order they are offered. */
  const Offers: seq<string> := [
    "I can offer you a 1/2lb box of assorted taffy for your next order?",
    "I can offer you a store credit voucher for 75 percent of your order total?",
    "I can offer you a 50 percent cash refund?"
  ]

  /** `negotiate_alternative_refund`: offer number `iteration` for 1, 2 or 3,
      the invalid-iteration message for every other integer. */
  function NegotiateAlternativeRefund(iteration: int): (offer: string)
    ensures 1 <= iteration <= 3 ==> offer == Offers[iteration - 1]
    ensures offer == InvalidIteration <==> !(1 <= iteration <= 3)
  {
    if iteration == 1 then
      "I can offer you a 1/2lb box of assorted taffy for your next order?"
    else if iteration == 2 then
      "I can offer you a store credit voucher for 75 percent of your order total?"
    else if iteration == 3 then
      "I can offer you a 50 percent cash refund?"
    else
      InvalidIteration
  }

  /** The three offers are pairwise distinct, so the iteration number can be
      read back from the offer. */
  lemma OffersDistinct(i: int, j: int)
    requires 1 <= i <= 3 && 1 <= j <= 3
    ensures NegotiateAlternativeRefund(i) == NegotiateAlternativeRefund(j) <==> i == j
  {
  }

  const RefundProcessed := "Refund processed successfully"

  /** `process_refund`: the same confirmation for every amount and order id. */
  function ProcessRefund(amountCents: int, orderId: string): (r: string)
    ensures r == RefundProcessed
  {
    "Refund processed successfully"
  }
}
