/** A webhook takes effect at most once, however often, in whatever order and with whatever payload it is delivered. */
module WebhookReplays {
  import opened Basics
  import opened Records
  import opened StripePayments
  import opened Protocol
  import opened CaptureSafety

  predicate IsRepeat(w: World, step: Step) {
    step.WebhookStep? && step.event.id in w.db.receipts
  }

  /** Delivering an accepted event again changes nothing, and is refused if the payload differs. */
  lemma RepeatChangesNothing(w: World, step: Step)
    requires IsRepeat(w, step)
    ensures Next(w, step) == w
    ensures ProcessWebhook(w.db, step.event, step.now).Ok? <==> w.db.receipts[step.event.id] == step.event.payload
    ensures ProcessWebhook(w.db, step.event, step.now).Ok? ==>
      ProcessWebhook(w.db, step.event, step.now).value == WithAction(w.db, None)
  {
    hide HandleEvent, GenuineEvent;
  }

  /** The steps of a run without the deliveries that repeat an event already accepted by then. */
  function WithoutRepeats(w: World, steps: seq<Step>): seq<Step>
    decreases |steps|
  {
    if steps == [] then []
    else if IsRepeat(w, steps[0]) then WithoutRepeats(w, steps[1..])
    else [steps[0]] + WithoutRepeats(Next(w, steps[0]), steps[1..])
  }

  /** A run and the same run without its repeats end in the same world. */
  lemma {:induction false} RepeatsDoNotMatter(w: World, steps: seq<Step>)
    ensures Run(w, WithoutRepeats(w, steps)) == Run(w, steps)
    decreases |steps|
  {
    hide Next;
    if steps != [] {
      if IsRepeat(w, steps[0]) {
        RepeatChangesNothing(w, steps[0]);
        RepeatsDoNotMatter(w, steps[1..]);
      } else {
        RepeatsDoNotMatter(Next(w, steps[0]), steps[1..]);
        var rest := WithoutRepeats(Next(w, steps[0]), steps[1..]);
        assert ([steps[0]] + rest)[1..] == rest;
      }
    }
  }

  /** The identifiers of the events a run accepts, in order of acceptance. */
  function Accepted(w: World, steps: seq<Step>): seq<EventId>
    decreases |steps|
  {
    if steps == [] then []
    else
      var rest := Accepted(Next(w, steps[0]), steps[1..]);
      if steps[0].WebhookStep? && steps[0].event.id !in w.db.receipts
         && steps[0].event.id in Next(w, steps[0]).db.receipts
      then [steps[0].event.id] + rest else rest
  }

  /** Over every run from a reachable world no event is accepted twice. */
  lemma {:induction false} AcceptedOnce(w: World, steps: seq<Step>)
    requires Reachable(w)
    ensures forall i, j :: 0 <= i < j < |Accepted(w, steps)| ==> Accepted(w, steps)[i] != Accepted(w, steps)[j]
    ensures forall i :: 0 <= i < |Accepted(w, steps)| ==> Accepted(w, steps)[i] !in w.db.receipts
    decreases |steps|
  {
    hide Next, Reachable;
    if steps != [] {
      ReachableOn(w, [steps[0]]);
      OneStep(w, steps[0]);
      AcceptedOnce(Next(w, steps[0]), steps[1..]);
      RunsEvolve(w, [steps[0]]);
    }
  }

  /** Once accepted, an event is spent for the rest of every run, for every payload. */
  lemma SpentForEver(w: World, steps: seq<Step>, event: Event, now: Time)
    requires Reachable(w) && event.id in w.db.receipts
    ensures Next(Run(w, steps), WebhookStep(event, now)) == Run(w, steps)
  {
    hide Next, Run, Reachable;
    RunsEvolve(w, steps);
    RepeatChangesNothing(Run(w, steps), WebhookStep(event, now));
  }
}
