/**
 * The refund workflow of the loop variant (5-workflow-loop-multi-agent): a
 * sequence of the purchase verifier, the eligibility agent and a loop of at
 * most three passes, each pass running the resolution checker, the
 * negotiator and the stop checker, in that order, over one session.
 *
 * The session is a mutable keyed state plus the list of events the agents
 * emit. What the language-model agents decide is not code: the checker's
 * pass/fail verdict and the customer's answer to the offer in each pass
 * come from an `Oracle`, an input. Only the purchase verifier has an output
 * key; every other write is the one the agent's instruction asks for, taken
 * as done: the eligibility agent stores the tool's answer, the checker
 * writes `refund_resolved`, the negotiator bumps `iteration_number`, asks
 * `negotiate_alternative_refund` for that offer and stores the answer in
 * `refund_negotiated`.
 */
module RefundLoop {
  import opened Purchases
  import LoopTools

  /** A session-state value: the state is dynamically typed. */
  datatype Value = Str(text: string) | Num(n: int) | Flag(b: bool) | History(purchases: seq<Purchase>)

  /** The session-state keys the workflow's agents read and write: the
      output keys of the verifier, the eligibility agent, the checker and
      the negotiator, and the negotiator's counter. */
  datatype Key =
    | PurchaseHistoryKey   // "purchase_history"
    | EligibleKey          // "is_full_refund_eligible"
    | ResolvedKey          // "refund_resolved"
    | NegotiatedKey        // "refund_negotiated"
    | IterationKey         // "iteration_number"

  type State = map<Key, Value>

  /** The agents of the workflow, by their configured names. */
  datatype Agent =
    | PurchaseVerifierAgent
    | RefundPolicyApplierAgent
    | RefundLoopCheckerAgent
    | RefundLoopNegotiatorAgent
    | StopChecker

  /** An event as the agents emit it: its author, its text, and whether it
      asks the enclosing loop to stop. */
  datatype Event = Event(author: Agent, content: string, escalate: bool)

  /** How a loop run ends: stopped by an escalating pass, or out of passes. */
  datatype Outcome = Escalated | Exhausted

  /** What the language models decide, pass by pass (pass 0 first): the
      resolution checker's verdict ("pass" when true) and the customer's
      answer to the offer (accepted when true). A pass beyond the end of
      a list reads as "fail" and as declined. */
  datatype Oracle = Oracle(verdicts: seq<bool>, answers: seq<bool>)

  function Verdict(o: Oracle, pass: nat): bool {
    pass < |o.verdicts| && o.verdicts[pass]
  }

  function Answer(o: Oracle, pass: nat): bool {
    pass < |o.answers| && o.answers[pass]
  }

  /** `max_iterations` of the refund loop. */
  const MaxIterations := 3

  /** The stop checker's decision: `refund_resolved` read with default
      "fail", compared with "pass". */
  function ShouldEscalate(s: State): (stop: bool)
    ensures stop <==> ResolvedKey in s && s[ResolvedKey] == Str("pass")
    ensures ResolvedKey !in s ==> !stop
  {
    (if ResolvedKey in s then s[ResolvedKey] else Str("fail")) == Str("pass")
  }

  /** The iteration counter; unset (or not a number) reads as 0. */
  function IterationOf(s: State): (n: int)
    ensures IterationKey !in s ==> n == 0
    ensures IterationKey in s && s[IterationKey] == Num(0) ==> n == 0
  {
    if IterationKey in s && s[IterationKey].Num? then s[IterationKey].n else 0
  }

  /** The resolution checker: writes "pass" or "fail" to `refund_resolved`
      as its verdict says, and nothing else. */
  function CheckerStep(s: State, resolved: bool): (s': State)
    ensures ShouldEscalate(s') == resolved
    ensures IterationOf(s') == IterationOf(s)
  {
    s[ResolvedKey := Str(if resolved then "pass" else "fail")]
  }

  /** The offer the negotiator makes from state `s`: the tool's answer for
      the counter after its increment. */
  function OfferFrom(s: State): (offer: string)
    ensures 0 <= IterationOf(s) <= 2 ==> offer == LoopTools.Offers[IterationOf(s)]
    ensures offer == LoopTools.InvalidIteration <==> !(0 <= IterationOf(s) <= 2)
  {
    LoopTools.NegotiateAlternativeRefund(IterationOf(s) + 1)
  }

  /** The negotiator: sets `iteration_number` to 1 when unset or 0 and
      increments it otherwise, then records the customer's answer to the
      offer in `refund_negotiated`; it does not touch `refund_resolved`. */
  function NegotiatorStep(s: State, accepted: bool): (s': State)
    ensures IterationOf(s') == IterationOf(s) + 1
    ensures ShouldEscalate(s') == ShouldEscalate(s)
    ensures NegotiatedKey in s' && s'[NegotiatedKey] == Flag(accepted)
  {
    s[IterationKey := Num(IterationOf(s) + 1)][NegotiatedKey := Flag(accepted)]
  }

  /** The checker writes `refund_resolved` and leaves every other key as it was. */
  lemma CheckerStepFrame(s: State, resolved: bool)
    ensures CheckerStep(s, resolved).Keys == s.Keys + {ResolvedKey}
    ensures forall k :: k in s && k != ResolvedKey ==> CheckerStep(s, resolved)[k] == s[k]
  {
  }

  /** The negotiator writes `iteration_number` and `refund_negotiated` and
      leaves every other key, the purchase history and the eligibility
      answer among them, as it was. */
  lemma NegotiatorStepFrame(s: State, accepted: bool)
    ensures NegotiatorStep(s, accepted).Keys == s.Keys + {IterationKey, NegotiatedKey}
    ensures forall k :: k in s && k != IterationKey && k != NegotiatedKey ==> NegotiatorStep(s, accepted)[k] == s[k]
  {
  }

  datatype PassResult = PassResult(state: State, events: seq<Event>, stop: bool)

  /** One pass of the loop: checker, negotiator, stop checker. The stop
      signal is the checker's decision of this pass, and only the last event
      of the pass can carry it. */
  function RunPass(s: State, o: Oracle, pass: nat): (p: PassResult)
    ensures p.stop == Verdict(o, pass)
    ensures IterationOf(p.state) == IterationOf(s) + 1
    ensures |p.events| == 3
    ensures p.events[0] == Event(RefundLoopCheckerAgent, "", false)
    ensures p.events[1] == Event(RefundLoopNegotiatorAgent, LoopTools.NegotiateAlternativeRefund(IterationOf(s) + 1), false)
    ensures p.events[2] == Event(StopChecker, "", p.stop)
  {
    var s1 := CheckerStep(s, Verdict(o, pass));
    var offer := OfferFrom(s1);
    var s2 := NegotiatorStep(s1, Answer(o, pass));
    var stop := ShouldEscalate(s2);
    PassResult(s2, [Event(RefundLoopCheckerAgent, "", false), Event(RefundLoopNegotiatorAgent, offer, false), Event(StopChecker, "", stop)], stop)
  }

  datatype LoopResult = LoopResult(state: State, events: seq<Event>, passes: nat, outcome: Outcome)

  /** The loop from state `s` after `done` passes, with at most `bound`
      passes in all: run a pass; stop after it if it escalated, otherwise go
      on while passes remain. */
  function LoopFrom(s: State, done: nat, bound: nat, o: Oracle): (r: LoopResult)
    ensures done <= bound ==> done <= r.passes <= bound && |r.events| == 3 * (r.passes - done)
    ensures done < bound ==> done < r.passes
    decreases bound - done
  {
    if bound <= done then LoopResult(s, [], done, Exhausted)
    else
      var p := RunPass(s, o, done);
      if p.stop then LoopResult(p.state, p.events, done + 1, Escalated)
      else
        var r := LoopFrom(p.state, done + 1, bound, o);
        LoopResult(r.state, p.events + r.events, r.passes, r.outcome)
  }

  /** A loop result with `events` run before it. */
  function Prepend(events: seq<Event>, r: LoopResult): LoopResult {
    LoopResult(r.state, events + r.events, r.passes, r.outcome)
  }

  /** A run whose next pass does not escalate is that pass followed by the
      rest of the run. */
  lemma LoopFromContinue(s: State, done: nat, bound: nat, o: Oracle)
    requires done < bound && !Verdict(o, done)
    ensures var p := RunPass(s, o, done);
      LoopFrom(s, done, bound, o) == Prepend(p.events, LoopFrom(p.state, done + 1, bound, o))
  {
  }

  /** The rest of a loop run that has produced `trace` so far and is in
      `s` after `done` passes, stopped or not. */
  function Resume(trace: seq<Event>, s: State, done: nat, stopped: bool,
                  o: Oracle): LoopResult
  {
    if stopped then LoopResult(s, trace, done, Escalated)
    else Prepend(trace, LoopFrom(s, done, MaxIterations, o))
  }

  /** Before any pass, the rest of the run is the whole run. */
  lemma ResumeStart(s: State, o: Oracle)
    ensures Resume([], s, 0, false, o) == LoopFrom(s, 0, MaxIterations, o)
  {
    var r := LoopFrom(s, 0, MaxIterations, o);
    assert [] + r.events == r.events;
  }

  /** Running one more pass leaves the result of the whole run unchanged. */
  lemma ResumeStep(trace: seq<Event>, s: State, done: nat, o: Oracle)
    requires done < MaxIterations
    ensures var p := RunPass(s, o, done);
      Resume(trace, s, done, false, o) == Resume(trace + p.events, p.state, done + 1, p.stop, o)
  {
    var p := RunPass(s, o, done);
    if !p.stop {
      AppendAssoc(trace, p.events, LoopFrom(p.state, done + 1, MaxIterations, o).events);
    }
  }

  /** A run that stopped, or used up its passes, is complete. */
  lemma ResumeDone(trace: seq<Event>, s: State, done: nat, stopped: bool, o: Oracle)
    requires stopped || done >= MaxIterations
    ensures Resume(trace, s, done, stopped, o) == LoopResult(s, trace, done, if stopped then Escalated else Exhausted)
  {
    assert trace + [] == trace;
  }

  /** Event number `slot` (0, 1 or 2) of pass `pass` in a loop's events. */
  function EventAt(events: seq<Event>, pass: nat, slot: nat): Event
    requires slot < 3 && 3 * pass + slot < |events|
  {
    events[3 * pass + slot]
  }

  /** A run `r` that started after `done` of at most `bound` passes made
      between one and `bound` passes in all (at least one more when any
      remained), three events each, and is exhausted only after `bound`. */
  predicate CountOf(r: LoopResult, done: nat, bound: nat) {
    && done <= r.passes <= bound
    && (done < bound ==> done < r.passes)
    && |r.events| == 3 * (r.passes - done)
    && (r.outcome == Exhausted ==> r.passes == bound)
    && (r.outcome == Escalated ==> done < r.passes)
  }

  /** Three events of a non-final pass before a well-counted run. */
  lemma CountOfPrepend(head: seq<Event>, r: LoopResult, done: nat, bound: nat)
    requires done < bound && |head| == 3 && CountOf(r, done + 1, bound)
    ensures CountOf(Prepend(head, r), done, bound)
  {
  }

  /** The loop runs between one and `bound` passes (at least one when any
      pass remains), three events each, and is exhausted only after `bound`
      passes. */
  lemma {:induction false} LoopCount(s: State, done: nat, bound: nat, o: Oracle)
    requires done <= bound
    ensures CountOf(LoopFrom(s, done, bound, o), done, bound)
    decreases bound - done
  {
    if done < bound {
      var p := RunPass(s, o, done);
      if !p.stop {
        LoopCount(p.state, done + 1, bound, o);
        LoopFromContinue(s, done, bound, o);
        CountOfPrepend(p.events, LoopFrom(p.state, done + 1, bound, o), done, bound);
      }
    }
  }

  /** `events` are `n` passes of checker, negotiator and stop checker, in
      that order, in which only the stop checker of the last pass may
      escalate, and does so exactly when `escalated`. */
  predicate PassesInOrder(events: seq<Event>, n: nat, escalated: bool) {
    && |events| == 3 * n
    && forall i :: 0 <= i < n ==>
         && EventAt(events, i, 0) == Event(RefundLoopCheckerAgent, "", false)
         && EventAt(events, i, 1).author == RefundLoopNegotiatorAgent
         && !EventAt(events, i, 1).escalate
         && EventAt(events, i, 2) == Event(StopChecker, "", escalated && i == n - 1)
  }

  /** A non-escalating pass followed by well-ordered passes is well ordered. */
  lemma PassesInOrderPrepend(first: seq<Event>, rest: seq<Event>, n: nat, escalated: bool)
    requires PassesInOrder(first, 1, false) && PassesInOrder(rest, n, escalated)
    requires n == 0 ==> !escalated
    ensures PassesInOrder(first + rest, n + 1, escalated)
  {
    var all := first + rest;
    forall i | 0 <= i < n + 1
      ensures EventAt(all, i, 0) == Event(RefundLoopCheckerAgent, "", false)
      ensures EventAt(all, i, 1).author == RefundLoopNegotiatorAgent && !EventAt(all, i, 1).escalate
      ensures EventAt(all, i, 2) == Event(StopChecker, "", escalated && i == n)
    {
      if i == 0 {
        assert EventAt(all, 0, 0) == EventAt(first, 0, 0);
        assert EventAt(all, 0, 1) == EventAt(first, 0, 1);
        assert EventAt(all, 0, 2) == EventAt(first, 0, 2);
      } else {
        assert EventAt(all, i, 0) == EventAt(rest, i - 1, 0);
        assert EventAt(all, i, 1) == EventAt(rest, i - 1, 1);
        assert EventAt(all, i, 2) == EventAt(rest, i - 1, 2);
      }
    }
  }

  /** One pass is in order, and escalates exactly when it stops the loop. */
  lemma PassInOrder(s: State, o: Oracle, done: nat)
    ensures var p := RunPass(s, o, done);
      PassesInOrder(p.events, 1, p.stop)
  {
    var p := RunPass(s, o, done);
    assert EventAt(p.events, 0, 0) == p.events[0];
    assert EventAt(p.events, 0, 1) == p.events[1];
    assert EventAt(p.events, 0, 2) == p.events[2];
  }

  /** The claim of LoopEventOrder for a run `r` that started after `done`
      passes. */
  predicate OrderOf(r: LoopResult, done: nat) {
    r.passes >= done && PassesInOrder(r.events, r.passes - done, r.outcome == Escalated)
  }

  /** The claim of LoopEventOrder for the run from `s` after `done` passes. */
  predicate OrderCounted(s: State, done: nat, bound: nat, o: Oracle)
    requires done <= bound
  {
    OrderOf(LoopFrom(s, done, bound, o), done)
  }

  /** A non-escalating pass before a well-ordered run that escalates, if at
      all, in a pass of its own gives a well-ordered run. */
  lemma OrderOfPrepend(head: seq<Event>, r: LoopResult, done: nat)
    requires PassesInOrder(head, 1, false) && OrderOf(r, done + 1)
    requires r.outcome == Escalated ==> r.passes > done + 1
    ensures OrderOf(Prepend(head, r), done)
  {
    PassesInOrderPrepend(head, r.events, r.passes - (done + 1), r.outcome == Escalated);
  }

  lemma EventOrderNext(s: State, done: nat, bound: nat, o: Oracle)
    requires done < bound && !Verdict(o, done)
    requires OrderCounted(RunPass(s, o, done).state, done + 1, bound, o)
    ensures OrderCounted(s, done, bound, o)
  {
    var p := RunPass(s, o, done);
    LoopFromContinue(s, done, bound, o);
    PassInOrder(s, o, done);
    LoopCount(p.state, done + 1, bound, o);
    OrderOfPrepend(p.events, LoopFrom(p.state, done + 1, bound, o), done);
  }

  /** Every pass runs checker, negotiator and stop checker in that order,
      and only the stop checker of the last pass escalates, exactly when
      the outcome is Escalated. */
  lemma {:induction false} LoopEventOrder(s: State, done: nat, bound: nat, o: Oracle)
    requires done <= bound
    ensures OrderCounted(s, done, bound, o)
    decreases bound - done
  {
    if done < bound {
      if Verdict(o, done) {
        PassInOrder(s, o, done);
      } else {
        var p := RunPass(s, o, done);
        LoopEventOrder(p.state, done + 1, bound, o);
        EventOrderNext(s, done, bound, o);
      }
    }
  }

  /** In `events`, made of `n` passes, pass `i` offers alternative number
      `first + i`. */
  predicate OffersFrom(events: seq<Event>, n: nat, first: int) {
    && |events| == 3 * n
    && forall i :: 0 <= i < n ==> EventAt(events, i, 1).content == LoopTools.NegotiateAlternativeRefund(first + i)
  }

  /** A pass offering alternative `first`, followed by passes offering
      `first + 1` onwards, offers `first` onwards. */
  lemma OffersFromPrepend(head: seq<Event>, rest: seq<Event>, n: nat, first: int)
    requires OffersFrom(head, 1, first) && OffersFrom(rest, n, first + 1)
    ensures OffersFrom(head + rest, n + 1, first)
  {
    var all := head + rest;
    forall i | 0 <= i < n + 1
      ensures EventAt(all, i, 1).content == LoopTools.NegotiateAlternativeRefund(first + i)
    {
      if i == 0 {
        assert EventAt(all, 0, 1) == EventAt(head, 0, 1);
      } else {
        assert EventAt(all, i, 1) == EventAt(rest, i - 1, 1);
      }
    }
  }

  /** The claim of LoopOffers for a run `r` that started after `done` passes. */
  predicate OffersOf(r: LoopResult, done: nat) {
    r.passes >= done && OffersFrom(r.events, r.passes - done, done + 1)
  }

  /** The claim of LoopOffers for the run from `s` after `done` passes. */
  predicate OffersCounted(s: State, done: nat, bound: nat, o: Oracle)
    requires done <= bound
  {
    OffersOf(LoopFrom(s, done, bound, o), done)
  }

  /** A pass offering alternative `done + 1` before a run offering from
      `done + 2` on gives a run offering from `done + 1` on. */
  lemma OffersOfPrepend(head: seq<Event>, r: LoopResult, done: nat)
    requires OffersFrom(head, 1, done + 1) && OffersOf(r, done + 1)
    ensures OffersOf(Prepend(head, r), done)
  {
    OffersFromPrepend(head, r.events, r.passes - (done + 1), done + 1);
  }

  /** A pass offers the alternative after the counter it starts from. */
  lemma PassOffers(s: State, o: Oracle, done: nat)
    ensures OffersFrom(RunPass(s, o, done).events, 1, IterationOf(s) + 1)
  {
    var p := RunPass(s, o, done);
    assert EventAt(p.events, 0, 1) == p.events[1];
  }

  /** A pass that escalates offers alternative `done + 1` and ends the run. */
  lemma LoopOffersLast(s: State, done: nat, bound: nat, o: Oracle)
    requires done < bound && IterationOf(s) == done && Verdict(o, done)
    ensures OffersCounted(s, done, bound, o)
  {
    PassOffers(s, o, done);
  }

  /** A pass that does not escalate offers alternative `done + 1`, and the
      rest of the run goes on from `done + 2`. */
  lemma LoopOffersNext(s: State, done: nat, bound: nat, o: Oracle)
    requires done < bound && IterationOf(s) == done && !Verdict(o, done)
    requires OffersCounted(RunPass(s, o, done).state, done + 1, bound, o)
    ensures OffersCounted(s, done, bound, o)
  {
    var p := RunPass(s, o, done);
    LoopFromContinue(s, done, bound, o);
    PassOffers(s, o, done);
    OffersOfPrepend(p.events, LoopFrom(p.state, done + 1, bound, o), done);
  }

  /** With the counter at `done` when pass `done + 1` starts, pass number
      `done + i + 1` offers alternative number `done + i + 1`. */
  lemma {:induction false} LoopOffers(s: State, done: nat, bound: nat, o: Oracle)
    requires done <= bound && IterationOf(s) == done
    ensures OffersCounted(s, done, bound, o)
    decreases bound - done
  {
    if done < bound {
      if Verdict(o, done) {
        LoopOffersLast(s, done, bound, o);
      } else {
        var p := RunPass(s, o, done);
        LoopOffers(p.state, done + 1, bound, o);
        LoopOffersNext(s, done, bound, o);
      }
    }
  }

  /** A checker that never passes leaves the loop to run all `bound`
      passes and end Exhausted. */
  lemma {:induction false} NeverResolvedExhausts(s: State, done: nat, bound: nat, o: Oracle)
    requires done <= bound
    requires true !in o.verdicts
    ensures LoopFrom(s, done, bound, o).passes == bound
    ensures LoopFrom(s, done, bound, o).outcome == Exhausted
    decreases bound - done
  {
    if done < bound {
      var p := RunPass(s, o, done);
      NeverResolvedExhausts(p.state, done + 1, bound, o);
    }
  }

  /** The loop stops right after the first pass whose verdict is "pass":
      pass `k` (counted from 0) with no passing verdict before it ends the
      run after `k + 1` passes, Escalated. */
  lemma {:induction false} StopsAtFirstVerdict(s: State, done: nat, bound: nat, k: nat, o: Oracle)
    requires done <= k < bound && Verdict(o, k)
    requires forall j :: done <= j < k ==> !Verdict(o, j)
    ensures LoopFrom(s, done, bound, o).passes == k + 1
    ensures LoopFrom(s, done, bound, o).outcome == Escalated
    decreases k - done
  {
    if done < k {
      StopsAtFirstVerdict(RunPass(s, o, done).state, done + 1, bound, k, o);
    }
  }

  /** A checker that resolves at once ends the loop after the first pass. */
  lemma ImmediatelyResolvedStopsAfterOnePass(s: State, bound: nat, o: Oracle)
    requires 1 <= bound && Verdict(o, 0)
    ensures LoopFrom(s, 0, bound, o).passes == 1
    ensures LoopFrom(s, 0, bound, o).outcome == Escalated
  {
  }

  /** With the configured bound and a session whose counter starts unset,
      the loop makes at most three passes and never asks for an invalid
      offer: pass k offers alternative k. */
  lemma ConfiguredLoopOffersValid(s: State, o: Oracle)
    requires IterationOf(s) == 0
    ensures var r := LoopFrom(s, 0, MaxIterations, o);
      && 1 <= r.passes <= 3
      && forall i :: 0 <= i < r.passes ==>
           && 3 * i + 1 < |r.events|
           && EventAt(r.events, i, 1).content == LoopTools.Offers[i]
           && EventAt(r.events, i, 1).content != LoopTools.InvalidIteration
  {
    LoopCount(s, 0, MaxIterations, o);
    LoopEventOrder(s, 0, MaxIterations, o);
    LoopOffers(s, 0, MaxIterations, o);
  }

  /** The bound matters: with four passes and no resolution, the fourth
      offer is the invalid-iteration message. */
  lemma FourthPassWouldBeInvalid(s: State, o: Oracle)
    requires IterationOf(s) == 0 && true !in o.verdicts
    ensures var r := LoopFrom(s, 0, 4, o);
      r.passes == 4 && |r.events| == 12 && EventAt(r.events, 3, 1).content == LoopTools.InvalidIteration
  {
    NeverResolvedExhausts(s, 0, 4, o);
    LoopCount(s, 0, 4, o);
    LoopEventOrder(s, 0, 4, o);
    LoopOffers(s, 0, 4, o);
  }

  /** The negotiator's counter counts the passes: after the run it has
      gone up by one per pass. */
  lemma {:induction false} LoopCounter(s: State, done: nat, bound: nat, o: Oracle)
    requires done <= bound
    ensures var r := LoopFrom(s, done, bound, o);
      IterationOf(r.state) == IterationOf(s) + r.passes - done
    decreases bound - done
  {
    if done < bound && !Verdict(o, done) {
      var p := RunPass(s, o, done);
      LoopCounter(p.state, done + 1, bound, o);
      LoopFromContinue(s, done, bound, o);
    }
  }

  /** A run `r` that started after `done` passes made at least one pass,
      and `refund_negotiated` holds the customer's answer in its last one. */
  predicate LastAnswerOf(r: LoopResult, done: nat, o: Oracle) {
    done < r.passes && NegotiatedKey in r.state && r.state[NegotiatedKey] == Flag(Answer(o, r.passes - 1))
  }

  /** A pass records the customer's answer in that pass. */
  lemma PassAnswer(s: State, o: Oracle, done: nat)
    ensures var p := RunPass(s, o, done);
      NegotiatedKey in p.state && p.state[NegotiatedKey] == Flag(Answer(o, done))
  {
  }

  /** After a run of at least one pass, `refund_negotiated` holds the
      customer's answer in the last pass. */
  lemma {:induction false} LoopLastAnswer(s: State, done: nat, bound: nat, o: Oracle)
    requires done < bound
    ensures LastAnswerOf(LoopFrom(s, done, bound, o), done, o)
    decreases bound - done
  {
    var p := RunPass(s, o, done);
    if Verdict(o, done) || done + 1 == bound {
      LoopFromLastPass(s, done, bound, o);
      PassAnswer(s, o, done);
    } else {
      LoopLastAnswer(p.state, done + 1, bound, o);
      LoopFromContinue(s, done, bound, o);
      LastAnswerOfPrepend(p.events, LoopFrom(p.state, done + 1, bound, o), done, o);
    }
  }

  /** A run whose next pass escalates or is the last one allowed ends in
      the state that pass leaves, after it. */
  lemma LoopFromLastPass(s: State, done: nat, bound: nat, o: Oracle)
    requires done < bound && (Verdict(o, done) || done + 1 == bound)
    ensures LoopFrom(s, done, bound, o).state == RunPass(s, o, done).state
    ensures LoopFrom(s, done, bound, o).passes == done + 1
  {
    if !Verdict(o, done) {
      LoopFromContinue(s, done, bound, o);
    }
  }

  lemma LastAnswerOfPrepend(head: seq<Event>, r: LoopResult, done: nat, o: Oracle)
    requires LastAnswerOf(r, done + 1, o)
    ensures LastAnswerOf(Prepend(head, r), done, o)
  {
  }

  /** A refund the checker passes in the first pass still gets the first
      offer from the negotiator before the stop checker ends the loop. */
  lemma ResolvedFirstPassStillOffers(s: State, o: Oracle)
    requires IterationOf(s) == 0 && Verdict(o, 0)
    ensures var r := LoopFrom(s, 0, MaxIterations, o);
      && r.passes == 1 && r.outcome == Escalated && |r.events| == 3
      && r.events[1] == Event(RefundLoopNegotiatorAgent, LoopTools.Offers[0], false)
  {
  }

  /** An offer accepted in the last pass is recorded but never checked: no
      checker runs after it, and the loop ends Exhausted. */
  lemma LastOfferAcceptanceUnchecked(s: State, o: Oracle)
    requires true !in o.verdicts && Answer(o, MaxIterations - 1)
    ensures var r := LoopFrom(s, 0, MaxIterations, o);
      && r.outcome == Exhausted && r.passes == MaxIterations
      && r.state[NegotiatedKey] == Flag(true)
      && !ShouldEscalate(r.state)
  {
    NeverResolvedExhausts(s, 0, MaxIterations, o);
    LoopLastAnswer(s, 0, MaxIterations, o);
    LoopNeverEscalates(s, 0, MaxIterations, o);
  }

  /** Without a passing verdict the state never says "pass". */
  lemma {:induction false} LoopNeverEscalates(s: State, done: nat, bound: nat, o: Oracle)
    requires done < bound && true !in o.verdicts
    ensures !ShouldEscalate(LoopFrom(s, done, bound, o).state)
    decreases bound - done
  {
    var p := RunPass(s, o, done);
    if done + 1 < bound {
      LoopNeverEscalates(p.state, done + 1, bound, o);
      LoopFromContinue(s, done, bound, o);
    }
  }

  /** So does the starting counter: a session seeded with
      `iteration_number` 3 gets the invalid-iteration message on pass 1. */
  lemma SeededCounterGivesInvalidOffer(s: State, o: Oracle)
    requires IterationKey in s && s[IterationKey] == Num(3)
    ensures EventAt(LoopFrom(s, 0, MaxIterations, o).events, 0, 1).content == LoopTools.InvalidIteration
  {
    LoopCount(s, 0, MaxIterations, o);
    LoopEventOrder(s, 0, MaxIterations, o);
  }

  /** The state after the purchase verifier has stored the history of
      `purchaser` and the eligibility agent has stored `eligible`. */
  function BeforeLoop(s: State, purchaser: string, eligible: string): (s': State)
    ensures IterationOf(s') == IterationOf(s)
    ensures ShouldEscalate(s') == ShouldEscalate(s)
  {
    s[PurchaseHistoryKey := History(LoopTools.GetPurchaseHistory(purchaser))][EligibleKey := Str(eligible)]
  }

  /** The events of the verifier and of the eligibility agent. */
  function IntakeEvents(eligible: string): seq<Event> {
    [Event(PurchaseVerifierAgent, "", false), Event(RefundPolicyApplierAgent, eligible, false)]
  }

  /** The root sequence: the purchase verifier stores the history, the
      eligibility agent stores `eligible`, the answer of
      `check_refund_eligible`, then the refund loop runs. */
  function RootRun(s: State, purchaser: string, eligible: string,
                   o: Oracle): (r: LoopResult)
    ensures 1 <= r.passes <= MaxIterations
    ensures |r.events| == 2 + 3 * r.passes
    ensures r.events[0] == Event(PurchaseVerifierAgent, "", false)
    ensures r.events[1] == Event(RefundPolicyApplierAgent, eligible, false)
  {
    var l := LoopFrom(BeforeLoop(s, purchaser, eligible), 0, MaxIterations, o);
    Prepend(IntakeEvents(eligible), l)
  }

  lemma AppendAssoc(a: seq<Event>, b: seq<Event>, c: seq<Event>)
    ensures a + b + c == a + (b + c)
  {
  }

  lemma IntakeAppend(before: seq<Event>, eligible: string)
    ensures before + [Event(PurchaseVerifierAgent, "", false)] + [Event(RefundPolicyApplierAgent, eligible, false)]
      == before + IntakeEvents(eligible)
  {
  }

  /** A loop run from the state and after the events the intake leaves is
      the root run. */
  lemma RootRunFromIntake(s: State, purchaser: string, eligible: string,
                          o: Oracle,
                          before: seq<Event>, intakeState: State, intakeEvents: seq<Event>,
                          finalState: State, finalEvents: seq<Event>, passes: nat, outcome: Outcome)
    requires intakeState == s[PurchaseHistoryKey := History(LoopTools.GetPurchaseHistory(purchaser))][EligibleKey := Str(eligible)]
    requires intakeEvents == before + [Event(PurchaseVerifierAgent, "", false)] + [Event(RefundPolicyApplierAgent, eligible, false)]
    requires var l := LoopFrom(intakeState, 0, MaxIterations, o);
      finalState == l.state && finalEvents == intakeEvents + l.events && passes == l.passes && outcome == l.outcome
    ensures var r := RootRun(s, purchaser, eligible, o);
      finalState == r.state && finalEvents == before + r.events && passes == r.passes && outcome == r.outcome
  {
    var l := LoopFrom(intakeState, 0, MaxIterations, o);
    IntakeAppend(before, eligible);
    AppendAssoc(before, IntakeEvents(eligible), l.events);
  }

  /** The verifier runs first and the eligibility agent second, both before
      any loop pass, and the loop then makes one to three passes. */
  lemma RootIntakeFirst(s: State, purchaser: string, eligible: string,
                        o: Oracle)
    ensures var r := RootRun(s, purchaser, eligible, o);
      && 1 <= r.passes <= MaxIterations
      && |r.events| == 2 + 3 * r.passes
      && r.events[0] == Event(PurchaseVerifierAgent, "", false)
      && r.events[1] == Event(RefundPolicyApplierAgent, eligible, false)
  {
    LoopCount(BeforeLoop(s, purchaser, eligible), 0, MaxIterations, o);
  }

  /** After the intake, the passes run in order and, on a fresh counter,
      pass k offers alternative k. */
  lemma RootPassesInOrder(s: State, purchaser: string, eligible: string,
                          o: Oracle)
    requires IterationOf(s) == 0
    ensures var r := RootRun(s, purchaser, eligible, o);
      && |r.events| >= 2
      && PassesInOrder(r.events[2..], r.passes, r.outcome == Escalated)
      && OffersFrom(r.events[2..], r.passes, 1)
  {
    var s2 := BeforeLoop(s, purchaser, eligible);
    LoopEventOrder(s2, 0, MaxIterations, o);
    LoopOffers(s2, 0, MaxIterations, o);
    var l := LoopFrom(s2, 0, MaxIterations, o);
    var r := RootRun(s, purchaser, eligible, o);
    assert r.events[2..] == l.events;
  }

  /** A session as the workflow mutates it: its keyed state and the events
      the agents have emitted so far. */
  class Session {
    var state: State
    var events: seq<Event>

    constructor (seed: State)
      ensures state == seed && events == []
    {
      state := seed;
      events := [];
    }

    /** The purchase verifier: stores the purchase history under its
        output key. */
    method RunPurchaseVerifier(purchaser: string)
      modifies this
      ensures state == old(state)[PurchaseHistoryKey := History(LoopTools.GetPurchaseHistory(purchaser))]
      ensures events == old(events) + [Event(PurchaseVerifierAgent, "", false)]
    {
      state := state[PurchaseHistoryKey := History(LoopTools.GetPurchaseHistory(purchaser))];
      events := events + [Event(PurchaseVerifierAgent, "", false)];
    }

    /** The eligibility agent: stores the tool's "TRUE"/"FALSE" answer. */
    method RunEligibilityAgent(reason: string, shippingMethod: string) returns (eligible: string)
      modifies this
      ensures eligible == LoopTools.CheckRefundEligible(reason, shippingMethod)
      ensures state == old(state)[EligibleKey := Str(eligible)]
      ensures events == old(events) + [Event(RefundPolicyApplierAgent, eligible, false)]
    {
      eligible := LoopTools.CheckRefundEligible(reason, shippingMethod);
      state := state[EligibleKey := Str(eligible)];
      events := events + [Event(RefundPolicyApplierAgent, eligible, false)];
    }

    /** The resolution checker: records its verdict in `refund_resolved`. */
    method RunChecker(resolved: bool)
      modifies this
      ensures state == CheckerStep(old(state), resolved)
      ensures events == old(events) + [Event(RefundLoopCheckerAgent, "", false)]
    {
      var verdict := if resolved then "pass" else "fail";
      state := state[ResolvedKey := Str(verdict)];
      events := events + [Event(RefundLoopCheckerAgent, "", false)];
    }

    /** The negotiator: bumps the counter, makes the offer for it, and
        records the customer's answer. */
    method RunNegotiator(accepted: bool) returns (offer: string)
      modifies this
      ensures offer == OfferFrom(old(state))
      ensures state == NegotiatorStep(old(state), accepted)
      ensures events == old(events) + [Event(RefundLoopNegotiatorAgent, offer, false)]
    {
      var n := IterationOf(state) + 1;
      state := state[IterationKey := Num(n)];
      offer := LoopTools.NegotiateAlternativeRefund(n);
      state := state[NegotiatedKey := Flag(accepted)];
      events := events + [Event(RefundLoopNegotiatorAgent, offer, false)];
    }

    /** The stop checker: reads the state, changes nothing in it, and emits
        an event that escalates exactly when the refund is resolved. */
    method RunStopChecker() returns (escalate: bool)
      modifies this
      ensures escalate == ShouldEscalate(state)
      ensures state == old(state)
      ensures events == old(events) + [Event(StopChecker, "", escalate)]
    {
      var status := if ResolvedKey in state then state[ResolvedKey] else Str("fail");
      escalate := status == Str("pass");
      events := events + [Event(StopChecker, "", escalate)];
    }

    /** One pass: checker, negotiator, stop checker, in that order. */
    method RunLoopPass(o: Oracle, pass: nat) returns (stop: bool)
      modifies this
      ensures var p := RunPass(old(state), o, pass);
        state == p.state && events == old(events) + p.events && stop == p.stop
    {
      RunChecker(Verdict(o, pass));
      var offer := RunNegotiator(Answer(o, pass));
      stop := RunStopChecker();
      assert events == old(events) + RunPass(old(state), o, pass).events;
    }

    /** The refund loop: passes of checker, negotiator and stop checker,
        until a pass escalates or `MaxIterations` passes have run. */
    method RunRefundLoop(o: Oracle) returns (passes: nat, outcome: Outcome)
      modifies this
      ensures var r := LoopFrom(old(state), 0, MaxIterations, o);
        state == r.state && events == old(events) + r.events && passes == r.passes && outcome == r.outcome
    {
      ghost var e0 := events;
      ghost var goal := LoopFrom(state, 0, MaxIterations, o);
      ghost var trace: seq<Event> := [];
      passes, outcome := 0, Exhausted;
      var stop := false;
      ResumeStart(state, o);
      while passes < MaxIterations && !stop
        invariant passes <= MaxIterations
        invariant events == e0 + trace
        invariant outcome == if stop then Escalated else Exhausted
        invariant goal == Resume(trace, state, passes, stop, o)
        decreases MaxIterations - passes, if stop then 0 else 1
      {
        ResumeStep(trace, state, passes, o);
        ghost var p := RunPass(state, o, passes);
        stop := RunLoopPass(o, passes);
        passes := passes + 1;
        AppendAssoc(e0, trace, p.events);
        trace := trace + p.events;
        if stop {
          outcome := Escalated;
        }
      }
      ResumeDone(trace, state, passes, stop, o);
    }

    /** The whole workflow: verifier, eligibility agent, refund loop. */
    method RunRoot(purchaser: string, reason: string, shippingMethod: string, o: Oracle) returns (eligible: string, passes: nat, outcome: Outcome)
      modifies this
      ensures eligible == LoopTools.CheckRefundEligible(reason, shippingMethod)
      ensures var r := RootRun(old(state), purchaser, eligible, o);
        state == r.state && events == old(events) + r.events && passes == r.passes && outcome == r.outcome
    {
      ghost var e0 := events;
      ghost var s0 := state;
      RunPurchaseVerifier(purchaser);
      eligible := RunEligibilityAgent(reason, shippingMethod);
      ghost var sB := state;
      ghost var e1 := events;
      passes, outcome := RunRefundLoop(o);
      RootRunFromIntake(s0, purchaser, eligible, o, e0, sB, e1, state, events, passes, outcome);
    }
  }
}
