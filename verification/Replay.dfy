/** Providers redeliver. Acting on every delivery ends where acting once on each
    event would have. */
module Replay {
  import opened Domain
  import opened Store
  import opened Steps
  import Invariant

  ghost predicate PaymentsHaveBookings(s: State) {
    forall p | p in s.payments :: s.payments[p].booking in s.bookings
  }

  /** A delivery fails exactly when it is new and reports a success for a payment
      that already ended otherwise; then nothing is left of it, not even the
      event row, so the provider's next delivery is judged afresh. A duplicate
      changes nothing either. Any other delivery records its event. */
  lemma DeliveryOutcomes(s: State, ev: PaymentEvent)
    requires PaymentsHaveBookings(s)
    ensures Deliver(s, ev).result.Err? <==>
            && ev.key !in s.events && ev.kind.EventSucceeded?
            && var p := ByRef(s.payments, ev.key.provider, ev.ref);
            && p.Some? && s.payments[p.value].status in {PaymentFailed, PaymentCancelled, PaymentRefunded}
    ensures Deliver(s, ev).result.Err? || ev.key in s.events ==> Deliver(s, ev).state == s
    ensures Deliver(s, ev).result.Ok? ==> Deliver(s, ev).state.events.Keys == s.events.Keys + {ev.key}
  {
    var p := ByRef(s.payments, ev.key.provider, ev.ref);
    if ev.key !in s.events && p.Some? {
      Invariant.ActIsUpdateThenBooking(Recorded(s, ev.key, p), ev, p.value);
    }
  }

  lemma OnlyWebhooksRecord(s: State, step: Step)
    requires !step.StepWebhook?
    ensures Apply(s, step).events == s.events
  {
  }

  /** The first successful delivery of each event, and every other step. */
  ghost function FirstDeliveries(s: State, steps: seq<Step>, seen: set<EventKey>): seq<Step>
    decreases |steps|
  {
    if steps == [] then []
    else
      var step, rest := steps[0], steps[1..];
      var t := Apply(s, step);
      match step
      case StepWebhook(ev) =>
        if ev.key in seen || Deliver(s, ev).result.Err? then FirstDeliveries(t, rest, seen)
        else [step] + FirstDeliveries(t, rest, seen + {ev.key})
      case _ => [step] + FirstDeliveries(t, rest, seen)
  }

  ghost predicate Repeats(step: Step, seen: set<EventKey>) {
    step.StepWebhook? && step.event.key in seen
  }

  ghost predicate DeliversOnce(steps: seq<Step>, seen: set<EventKey>)
    decreases |steps|
  {
    steps == [] ||
    (&& !Repeats(steps[0], seen)
     && DeliversOnce(steps[1..], if steps[0].StepWebhook? then seen + {steps[0].event.key} else seen))
  }

  ghost predicate NoDeliveryFails(s: State, steps: seq<Step>)
    decreases |steps|
  {
    steps == [] ||
    (&& (steps[0].StepWebhook? ==> Deliver(s, steps[0].event).result.Ok?)
     && NoDeliveryFails(Apply(s, steps[0]), steps[1..]))
  }

  /** Any sequence of deliveries, with arbitrary repeats and failures, interleaved
      with any other steps, ends in the same tables as the run that acts only on
      the first successful delivery of each event. */
  lemma {:induction false} RepeatsDoNotMatter(s: State, steps: seq<Step>, seen: set<EventKey>)
    requires Valid(s) && seen == s.events.Keys
    ensures var once := FirstDeliveries(s, steps, seen);
            Run(s, once) == Run(s, steps) && DeliversOnce(once, seen) && NoDeliveryFails(s, once)
    decreases |steps|
  {
    if steps != [] {
      var step, rest := steps[0], steps[1..];
      var t := Apply(s, step);
      Invariant.StepKeepsValid(s, step);
      if step.StepWebhook? {
        var ev := step.event;
        DeliveryOutcomes(s, ev);
        if ev.key in seen || Deliver(s, ev).result.Err? {
          RepeatsDoNotMatter(s, rest, seen);
        } else {
          RepeatsDoNotMatter(t, rest, seen + {ev.key});
          var tail := FirstDeliveries(t, rest, seen + {ev.key});
          assert ([step] + tail)[1..] == tail;
        }
      } else {
        OnlyWebhooksRecord(s, step);
        RepeatsDoNotMatter(t, rest, seen);
        var tail := FirstDeliveries(t, rest, seen);
        assert ([step] + tail)[1..] == tail;
      }
    }
  }
}
