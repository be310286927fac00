# Crabby's Taffy refund agents — a Dafny model

The repository is a set of tutorial agents. Each one handles refund requests
for an online taffy shop. Four variants share a few deterministic tools:

- `get_purchase_history` looks a customer up in a fixed purchase table;
- `check_refund_eligible` decides eligibility from a reason and a shipping method;
- `process_refund` confirms a refund.

The loop variant (`5-workflow-loop-multi-agent`) adds `negotiate_alternative_refund`,
which picks one of three alternative offers. It also adds a custom stop checker
and a workflow: a sequence of the purchase verifier, the eligibility agent and a
refund loop of at most three passes. Each pass runs the resolution checker, the
negotiator and the stop checker, in that order, over one shared session.

The project has these modules:

- `Text` (text.dfy) models Python's `str.strip()` and `str.upper()`. It proves
  that the two commute and that padding and letter case do not change
  `strip().upper()`.
- `Purchases` (purchases.dfy) holds the purchase records the tables return.
- `LoopTools` (loop_tools.dfy) holds the loop variant's tools.
- `RefundLoop` (refund_loop.dfy) holds the loop workflow:
  - the pure functions `RunPass`, `LoopFrom` and `RootRun` specify a run;
  - the class `Session` holds the mutable state map and the event list, and
    its methods run the agents step by step;
  - `Session.RunRefundLoop` is a bounded `while` loop proved equal to `LoopFrom`.
- `ParallelTools`, `MultiAgentTools` and `SingleAgentTools` hold the tools of
  variants 4, 2 and 1.

The language-model agents make the decisions that are not code: the checker's
pass/fail verdict and the customer's answer to each offer. These come from an
`Oracle` value, one verdict and one answer per pass, given as input. Only the
purchase verifier has an output key. The writes the other agents make to the
session state are the ones their instructions ask for, and the model takes
them as done.

## Model

| member | source | states |
|---|---|---|
| Text.Strip | 5-workflow-loop-multi-agent/agent.py:54-55 | `strip()` leaves no whitespace at either end and never lengthens the string |
| Text.StripEmpty | 5-workflow-loop-multi-agent/agent.py:54-55 | `strip()` yields the empty string exactly when the input is all whitespace |
| Text.StripPadding | 5-workflow-loop-multi-agent/agent.py:54-55 | whitespace padding on either side does not change the result of `strip()` |
| Text.StripExact | 5-workflow-loop-multi-agent/agent.py:54-55 | `strip()` of a trimmed core between whitespace padding is exactly that core |
| Text.StripTrimmed | 5-workflow-loop-multi-agent/agent.py:54-55 | `strip()` leaves a string with no whitespace at its ends unchanged |
| Text.UpperChar | 2-llm-multi-agent/agent.py:70-71 | a lower-case ASCII letter moves to upper case, every other character is kept, and no result is a lower-case letter |
| Text.Upper | 2-llm-multi-agent/agent.py:70-71 | the ASCII-only `Upper` keeps the length, character by character |
| Text.UpperIdempotent | 2-llm-multi-agent/agent.py:70-71 | upper-casing twice is upper-casing once |
| Text.StripUpperCaseInsensitive | 5-workflow-loop-multi-agent/agent.py:54-55 | `strip()` and `upper()` commute, so strings with the same upper-case form normalise alike |
| Text.StripUpper | 5-workflow-loop-multi-agent/agent.py:54-55 | `s.strip().upper()` is never longer than `s` and has no whitespace at either end |
| Text.StripUpperPadding | 5-workflow-loop-multi-agent/agent.py:54-55 | whitespace padding does not change `strip().upper()` |
| LoopTools.GetPurchaseHistory | 5-workflow-loop-multi-agent/agent.py:8-48 | a known name gets its stored list unchanged; the result is empty exactly for names not in the table |
| LoopTools.UnknownPurchaserHasNoHistory | 5-workflow-loop-multi-agent/agent.py:46-47 | any name other than Alexis and David gets the empty list |
| LoopTools.KnownPurchasers | 5-workflow-loop-multi-agent/agent.py:9-48 | Alexis has exactly one STANDARD order and David exactly one INSURED order; the lookup is case-sensitive |
| LoopTools.CheckRefundEligible | 5-workflow-loop-multi-agent/agent.py:58-62 | the answer is always "TRUE" or "FALSE" |
| LoopTools.CheckRefundEligibleMeaning | 5-workflow-loop-multi-agent/agent.py:51-62 | "TRUE" exactly when the normalised reason is DAMAGED, LOST or LATE and the normalised shipping method is INSURED |
| LoopTools.CheckRefundEligibleIgnoresCase | 5-workflow-loop-multi-agent/agent.py:54-55 | arguments that differ only in letter case get the same answer |
| LoopTools.CheckRefundEligibleIgnoresPadding | 5-workflow-loop-multi-agent/agent.py:54-55 | surrounding whitespace on either argument does not change the answer |
| LoopTools.PaddedLowerCaseRequestEligible | 5-workflow-loop-multi-agent/agent.py:54-60 | a padded, lower-case damaged request for an insured order is eligible |
| LoopTools.LowerCaseRequestEligible | 5-workflow-loop-multi-agent/agent.py:54-60 | ("damaged", "Insured") is eligible |
| LoopTools.StandardShippingNeverEligible | 5-workflow-loop-multi-agent/agent.py:53-62 | a STANDARD order is refused whatever the reason |
| LoopTools.NegotiateAlternativeRefund | 5-workflow-loop-multi-agent/agent.py:65-75 | iterations 1, 2 and 3 get the three offers in order; the invalid-iteration message comes back exactly for every other integer |
| LoopTools.OffersDistinct | 5-workflow-loop-multi-agent/agent.py:65-73 | the three offers are pairwise distinct |
| LoopTools.ProcessRefund | 5-workflow-loop-multi-agent/agent.py:78-79 | the same confirmation for every amount and order id |
| RefundLoop.ShouldEscalate | 5-workflow-loop-multi-agent/agent.py:182-183 | stop exactly when `refund_resolved` is present and is "pass"; an absent key never stops |
| RefundLoop.Session.RunStopChecker | 5-workflow-loop-multi-agent/agent.py:178-184 | emits one event that escalates exactly when `ShouldEscalate` holds, and leaves the state unchanged |
| RefundLoop.IterationOf | 5-workflow-loop-multi-agent/agent.py:158 | an unset counter and a counter set to 0 both read as 0 |
| RefundLoop.OfferFrom | 5-workflow-loop-multi-agent/agent.py:161 | the offer after the increment: alternative k + 1 for a counter k in 0..2, the invalid-iteration message exactly otherwise |
| RefundLoop.CheckerStep | 5-workflow-loop-multi-agent/agent.py:145-149 | after the checker the stop check fires exactly on a passing verdict; the counter is untouched |
| RefundLoop.CheckerStepFrame | 5-workflow-loop-multi-agent/agent.py:145-149 | the checker adds `refund_resolved` and leaves every other key as it was |
| RefundLoop.NegotiatorStep | 5-workflow-loop-multi-agent/agent.py:158-166 | the counter goes up by one (unset counts as 0), the answer lands in `refund_negotiated`, and the stop check is unchanged |
| RefundLoop.NegotiatorStepFrame | 5-workflow-loop-multi-agent/agent.py:158-166 | the negotiator writes only `iteration_number` and `refund_negotiated` |
| RefundLoop.RunPass | 5-workflow-loop-multi-agent/agent.py:190-194 | a pass emits checker, negotiator and stop-checker events in that order; the negotiator offers the alternative for the bumped counter; only the stop checker may escalate, exactly on this pass's verdict |
| RefundLoop.LoopFrom | 5-workflow-loop-multi-agent/agent.py:187-195 | the loop from pass `done` with at most `bound` passes: between `done + 1` and `bound` passes when any remain, three events per pass |
| RefundLoop.LoopCount | 5-workflow-loop-multi-agent/agent.py:187-195 | the loop makes between one and `max_iterations` passes, three events each, and ends Exhausted only after all of them |
| RefundLoop.LoopEventOrder | 5-workflow-loop-multi-agent/agent.py:190-195 | every pass runs checker, negotiator, stop checker; only the last pass's stop checker escalates, exactly when the run ends Escalated |
| RefundLoop.LoopOffers | 5-workflow-loop-multi-agent/agent.py:158-161 | with the counter at `done`, successive passes offer alternatives `done + 1`, `done + 2`, … |
| RefundLoop.LoopCounter | 5-workflow-loop-multi-agent/agent.py:158-159 | after a run the counter has gone up by exactly the number of passes run |
| RefundLoop.LoopLastAnswer | 5-workflow-loop-multi-agent/agent.py:165-166 | after a run, `refund_negotiated` holds the customer's answer in the last pass |
| RefundLoop.NeverResolvedExhausts | 5-workflow-loop-multi-agent/agent.py:189 | a checker that never passes makes the loop run all its passes and end Exhausted |
| RefundLoop.LoopNeverEscalates | 5-workflow-loop-multi-agent/agent.py:182-184 | without a passing verdict the final state never says "pass" |
| RefundLoop.StopsAtFirstVerdict | 5-workflow-loop-multi-agent/agent.py:187-195 | a run whose first passing verdict is in pass k makes exactly k + 1 passes (k counted from 0) and ends Escalated |
| RefundLoop.ImmediatelyResolvedStopsAfterOnePass | 5-workflow-loop-multi-agent/agent.py:187-195 | a passing verdict in pass 1 ends the loop after one pass, Escalated |
| RefundLoop.ResolvedFirstPassStillOffers | 5-workflow-loop-multi-agent/agent.py:190-194 | even then, the negotiator makes the first offer before the stop checker ends the loop |
| RefundLoop.LastOfferAcceptanceUnchecked | 5-workflow-loop-multi-agent/agent.py:187-195 | an offer accepted in pass 3 is recorded, but no checker runs after it: the loop ends Exhausted and unresolved |
| RefundLoop.ConfiguredLoopOffersValid | 5-workflow-loop-multi-agent/agent.py:158-195 | with `max_iterations` 3 and a fresh counter, pass k offers alternative k and never the invalid-iteration message |
| RefundLoop.FourthPassWouldBeInvalid | 5-workflow-loop-multi-agent/agent.py:65-75 | the bound is what keeps offers valid: a fourth pass would get the invalid-iteration message |
| RefundLoop.SeededCounterGivesInvalidOffer | 5-workflow-loop-multi-agent/agent.py:158-161 | so does the starting counter: a session seeded with `iteration_number` 3 gets the invalid-iteration message on pass 1 |
| RefundLoop.BeforeLoop | 5-workflow-loop-multi-agent/agent.py:99-122 | storing the history and the eligibility answer changes neither the counter nor the stop check |
| RefundLoop.RootRun | 5-workflow-loop-multi-agent/agent.py:199-207 | the root sequence: the verifier's event first, the eligibility agent's event with its answer second, then one to three passes of three events each |
| RefundLoop.RootIntakeFirst | 5-workflow-loop-multi-agent/agent.py:199-207 | the verifier's event comes first and the eligibility agent's second, carrying its answer; then one to three passes follow |
| RefundLoop.RootPassesInOrder | 5-workflow-loop-multi-agent/agent.py:199-207 | after the intake, the passes run in order and pass k offers alternative k |
| RefundLoop.Session.RunPurchaseVerifier | 5-workflow-loop-multi-agent/agent.py:86-100 | stores the purchaser's history under `purchase_history` and emits one event |
| RefundLoop.Session.RunEligibilityAgent | 5-workflow-loop-multi-agent/agent.py:103-125 | returns the tool's answer and stores it under `is_full_refund_eligible` |
| RefundLoop.Session.RunChecker | 5-workflow-loop-multi-agent/agent.py:140-152 | the new state is `CheckerStep` of the old, plus one checker event |
| RefundLoop.Session.RunNegotiator | 5-workflow-loop-multi-agent/agent.py:154-169 | returns the offer for the bumped counter; the new state is `NegotiatorStep` of the old |
| RefundLoop.Session.RunLoopPass | 5-workflow-loop-multi-agent/agent.py:190-194 | runs the three sub-agents in order; state, events and stop signal are those of `RunPass` |
| RefundLoop.Session.RunRefundLoop | 5-workflow-loop-multi-agent/agent.py:187-195 | the bounded loop leaves exactly the state, events, pass count and outcome of `LoopFrom` with bound 3 |
| RefundLoop.Session.RunRoot | 5-workflow-loop-multi-agent/agent.py:199-207 | the whole sequence: the eligibility answer is `check_refund_eligible`'s, and state and events are those of `RootRun` |
| ParallelTools.GetPurchaseHistory | 4-workflow-parallel-multi-agent/agent.py:4-44 | a known name gets its stored list; empty exactly for unknown names |
| ParallelTools.KnownPurchasers | 4-workflow-parallel-multi-agent/agent.py:5-44 | Alexis has one STANDARD order, David one INSURED order, and any other name none |
| ParallelTools.SameHistoryAsLoopVariant | 4-workflow-parallel-multi-agent/agent.py:5-41 | the table is the loop variant's table |
| ParallelTools.CheckRefundEligible | 4-workflow-parallel-multi-agent/agent.py:47-55 | "TRUE" exactly when the normalised reason is DAMAGED, LOST or LATE, otherwise "FALSE" |
| ParallelTools.ReasonOnlyCheckMatchesInsured | 4-workflow-parallel-multi-agent/agent.py:47-55 | the reason-only check is the loop variant's check for an insured order, and is never stricter than it |
| ParallelTools.CheckRefundEligibleNormalises | 4-workflow-parallel-multi-agent/agent.py:49 | case and surrounding whitespace do not change the answer |
| ParallelTools.ProcessRefund | 4-workflow-parallel-multi-agent/agent.py:58-59 | constant confirmation |
| MultiAgentTools.GetPurchaseHistory | 2-llm-multi-agent/agent.py:4-62 | a known name gets its stored list; empty exactly for unknown names |
| MultiAgentTools.KnownPurchasers | 2-llm-multi-agent/agent.py:5-62 | David gets SG001 (INSURED) then SG002 (STANDARD); Alexis one STANDARD order; other names none |
| MultiAgentTools.CheckRefundEligible | 2-llm-multi-agent/agent.py:65-74 | as written: true exactly when the upper-cased reason is INSURED or OVERNIGHT and the upper-cased shipping method is DAMAGED or NEVER_ARRIVED |
| MultiAgentTools.DamagedInsuredRejected | 2-llm-multi-agent/agent.py:69-74 | ("DAMAGED", "INSURED") is refused while the swapped pair is accepted |
| MultiAgentTools.CheckRefundEligibleIgnoresCase | 2-llm-multi-agent/agent.py:70-71 | letter case does not change the answer |
| MultiAgentTools.CheckRefundEligibleKeepsWhitespace | 2-llm-multi-agent/agent.py:70-71 | a trailing space turns an accepted pair into a refused one |
| MultiAgentTools.IntendedCheckRefundEligible | 2-llm-multi-agent/agent.py:65-74 | each argument matched against its own list |
| MultiAgentTools.CrossedCheckIsSwapped | 2-llm-multi-agent/agent.py:69-74 | the check as written is the intended check with its arguments swapped; the intended check accepts a damaged insured order |
| MultiAgentTools.ProcessRefund | 2-llm-multi-agent/agent.py:77-78 | constant confirmation |
| SingleAgentTools.GetPurchaseHistory | 1-llm-single-agent/agent.py:7-65 | a known name gets its stored list; empty exactly for unknown names |
| SingleAgentTools.KnownPurchasers | 1-llm-single-agent/agent.py:8-65 | David gets SG001 (INSURED) then SG002 (STANDARD); Alexis one STANDARD order; other names none |
| SingleAgentTools.CheckRefundEligible | 1-llm-single-agent/agent.py:68-77 | as written: true exactly when the upper-cased reason is INSURED or OVERNIGHT and the upper-cased shipping method is DAMAGED or NEVER_ARRIVED |
| SingleAgentTools.DamagedInsuredRejected | 1-llm-single-agent/agent.py:72-77 | ("DAMAGED", "INSURED") is refused while the swapped pair is accepted |
| SingleAgentTools.CheckRefundEligibleIgnoresCase | 1-llm-single-agent/agent.py:73-74 | letter case does not change the answer |
| SingleAgentTools.CheckRefundEligibleKeepsWhitespace | 1-llm-single-agent/agent.py:73-74 | a trailing space turns an accepted pair into a refused one |
| SingleAgentTools.IntendedCheckRefundEligible | 1-llm-single-agent/agent.py:68-77 | each argument matched against its own list |
| SingleAgentTools.CrossedCheckIsSwapped | 1-llm-single-agent/agent.py:72-77 | the check as written is the intended check with its arguments swapped; the intended check accepts a damaged insured order |
| SingleAgentTools.ProcessRefund | 1-llm-single-agent/agent.py:80-81 | constant confirmation |

## Left out

- Language-model behaviour. The instruction texts of the agents are prompts, not code. The checker's verdict and the customer's answer in each pass are inputs (`Oracle`). The checker's `process_refund` call and the texts the agents say to the customer are not modelled. Agent events carry empty text, except the eligibility agent's answer and the negotiator's offer.
- The human-in-the-loop pause of the negotiator is not modelled: the answer is already in the `Oracle`.
- The ADK `LoopAgent` and `SequentialAgent` drivers are not part of this model. Only their configured child order and `max_iterations` are modelled. The escalate flag is assumed to take effect after the pass that emits it; only the stop checker emits it.
- The async generator and the `InvocationContext` of the stop checker are reduced to the boolean it computes and the one event it yields.
- RefundLoop.CheckerStep and RefundLoop.Session.RunChecker: the checker has no `output_key`, and its tool takes no tool context. Its write to `refund_resolved` comes from its instruction and is taken as done.
- RefundLoop.NegotiatorStep and RefundLoop.Session.RunNegotiator: the negotiator has no `output_key`, and its tool takes no tool context. Its writes to `iteration_number` and `refund_negotiated` come from its instruction and are taken as done.
- RefundLoop.Session.RunPurchaseVerifier: `output_key` stores the verifier agent's reply text. The model stores the tool's purchase list in its place.
- Text.Upper: only ASCII letters change case. Python's `upper()` also changes other letters, some into several characters (`"ß".upper()` is `"SS"`), so the real result can be longer.
- RefundLoop.Session.RunEligibilityAgent: the eligibility agent has no `output_key`. Its instruction tells it to write `is_full_refund_eligible`, and the model does exactly that write.
- The session state holds only the five keys the workflow's agents use. Values are a small tagged union (text, number, flag, purchase list), so a state where the counter is not a number reads as 0.
- `RefundLoop.RootRun` takes the eligibility answer as a parameter. `RefundLoop.Session.RunRoot` ties it to `check_refund_eligible` of the actual arguments. The language model's translation of the customer's words into a reason code is not modelled.
- LoopTools.CheckRefundEligible: its own contract says only that the answer is "TRUE" or "FALSE"; the exact condition is the lemma `LoopTools.CheckRefundEligibleMeaning`, kept apart because the full equivalence on every call is expensive for the solver.
- The orchestration of variants 1, 2 and 4 is not modelled: the single LLM agent, the LLM coordinator with sub-agents, and the `ParallelAgent` with its concurrency. Only their tools are modelled.
- Console output (`print`) is not modelled.
- Prices, totals and the refund amount are floats in the source. No arithmetic is done on them there, so they are integer cents here.
- `str.strip()` uses Python's full whitespace set; no other Unicode handling is modelled.
- Where the workflow's prose and its wiring disagree, the model follows the wiring. The docstring says the loop is entered only when the customer is not eligible. By the wiring, the negotiator runs in the first pass even when the checker resolves at once (`RefundLoop.ResolvedFirstPassStillOffers`). The docstring also says an accepted alternative ends the loop. But only the checker of the next pass can write "pass", so an acceptance in the third pass is never acted on (`RefundLoop.LastOfferAcceptanceUnchecked`).

## Findings

| source | as written | input that shows it | evidently intended | confidence | as-written member | corrected member |
|---|---|---|---|---|---|---|
| 2-llm-multi-agent/agent.py:69-74 | the reason is matched against the shipping-method list and the shipping method against the reason list | reason "DAMAGED", shipping method "INSURED": refused | the reason matched against DAMAGED/NEVER_ARRIVED and the shipping method against INSURED/OVERNIGHT, so that pair is accepted | not executed | MultiAgentTools.DamagedInsuredRejected | MultiAgentTools.IntendedCheckRefundEligible |
| 1-llm-single-agent/agent.py:72-77 | the same crossed lists | reason "DAMAGED", shipping method "INSURED": refused | each argument matched against its own list | not executed | SingleAgentTools.DamagedInsuredRejected | SingleAgentTools.IntendedCheckRefundEligible |
