/** Webhook deduplication. */
module Webhooks {
  import opened Tables
  import opened Services
  import opened Invariant
  import opened Preservation

  predicate Accepted(step: Step, provider: string, eventId: string) {
    step.WebhookStep? && WellFormed(step.delivery)
    && step.delivery.provider == provider && step.delivery.eventId.t == eventId
  }

  /** The event was delivered in good form somewhere in these steps. */
  predicate Delivered(steps: seq<Step>, provider: string, eventId: string) {
    exists k :: 0 <= k < |steps| && Accepted(steps[k], provider, eventId)
  }

  predicate Repeats(before: seq<Step>, step: Step) {
    step.WebhookStep? && WellFormed(step.delivery)
    && Delivered(before, step.delivery.provider, step.delivery.eventId.t)
  }

  /** The same steps without the later occurrences of each event. */
  function DropRepeats(steps: seq<Step>): seq<Step> {
    if steps == [] then []
    else
      var before := steps[..|steps| - 1];
      if Repeats(before, steps[|steps| - 1]) then DropRepeats(before)
      else DropRepeats(before) + [steps[|steps| - 1]]
  }

  lemma EventsGrow(s: Db, step: Step)
    ensures s.events <= Exec(s, step).events
  {
  }

  lemma SeenGrows(before: seq<WebhookEvent>, after: seq<WebhookEvent>, provider: string, eventId: string)
    requires before <= after && EventSeen(before, provider, eventId)
    ensures EventSeen(after, provider, eventId)
  {
    var k :| 0 <= k < |before| && before[k].provider == provider && before[k].eventId == eventId;
    assert after[k] == before[k];
  }

  lemma AcceptedIsSeen(s: Db, d: Delivery)
    requires WellFormed(d)
    ensures EventSeen(Exec(s, WebhookStep(d)).events, d.provider, d.eventId.t)
  {
    var t := Exec(s, WebhookStep(d));
    if !EventSeen(s.events, d.provider, d.eventId.t) {
      assert t.events == Recorded(s, d).events;
      assert t.events[|s.events|].eventId == d.eventId.t;
    }
  }

  lemma {:induction false} DeliveredIsSeen(s: Db, steps: seq<Step>, provider: string, eventId: string)
    requires Delivered(steps, provider, eventId)
    ensures EventSeen(Run(s, steps).events, provider, eventId)
  {
    var before, last := steps[..|steps| - 1], steps[|steps| - 1];
    if Accepted(last, provider, eventId) {
      AcceptedIsSeen(Run(s, before), last.delivery);
    } else {
      assert Delivered(before, provider, eventId);
      DeliveredIsSeen(s, before, provider, eventId);
      EventsGrow(Run(s, before), last);
      SeenGrows(Run(s, before).events, Run(s, steps).events, provider, eventId);
    }
  }

  /** Any run ends in the same state as the run without its repeated deliveries, whatever
      happens between them. */
  lemma {:induction false} Deduplication(s: Db, steps: seq<Step>)
    ensures Run(s, DropRepeats(steps)) == Run(s, steps)
  {
    hide EventSeen, Delivered;
    if steps != [] {
      var before, last := steps[..|steps| - 1], steps[|steps| - 1];
      Deduplication(s, before);
      if Repeats(before, last) {
        DeliveredIsSeen(s, before, last.delivery.provider, last.delivery.eventId.t);
      } else {
        assert DropRepeats(steps)[..|DropRepeats(before)|] == DropRepeats(before);
      }
    }
  }

  /** A delivery is without effect exactly when it is malformed or its event is recorded. */
  lemma NoEffectIff(s: Db, d: Delivery)
    ensures Exec(s, WebhookStep(d)) == s <==> !WellFormed(d) || EventSeen(s.events, d.provider, d.eventId.t)
  {
    if WellFormed(d) && !EventSeen(s.events, d.provider, d.eventId.t) {
      assert |Exec(s, WebhookStep(d)).events| == |s.events| + 1;
    }
  }

  lemma OnlyAcceptedIsRecorded(s: Db, step: Step, provider: string, eventId: string)
    requires EventSeen(Exec(s, step).events, provider, eventId)
    ensures EventSeen(s.events, provider, eventId) || Accepted(step, provider, eventId)
  {
    hide Exec, WellFormed;
    var t := Exec(s, step);
    if step.WebhookStep? {
      RecordsOne(s, step.delivery);
    } else {
      RecordsNone(s, step);
    }
    EventsGrow(s, step);
    var k :| 0 <= k < |t.events| && t.events[k].provider == provider && t.events[k].eventId == eventId;
    assert k < |s.events| ==> s.events[k] == t.events[k];
  }

  lemma RecordsNone(s: Db, step: Step)
    requires !step.WebhookStep?
    ensures Exec(s, step).events == s.events
  {
    hide Settled, PrepareChoice, HasPeriodInvoice, Count;
  }

  lemma RecordsOne(s: Db, d: Delivery)
    ensures
      var t := Exec(s, WebhookStep(d));
      || t.events == s.events
      || (WellFormed(d) && |t.events| == |s.events| + 1 && s.events == t.events[..|s.events|]
          && t.events[|s.events|].provider == d.provider && t.events[|s.events|].eventId == d.eventId.t)
  {
    hide Settled, EventSeen;
  }

  /** An event is recorded exactly when it was delivered in good form. */
  lemma {:induction false} SeenIffDelivered(steps: seq<Step>, provider: string, eventId: string)
    ensures EventSeen(Run(Empty(), steps).events, provider, eventId) <==> Delivered(steps, provider, eventId)
  {
    if Delivered(steps, provider, eventId) {
      DeliveredIsSeen(Empty(), steps, provider, eventId);
    }
    if steps != [] {
      var before, last := steps[..|steps| - 1], steps[|steps| - 1];
      SeenIffDelivered(before, provider, eventId);
      if EventSeen(Run(Empty(), steps).events, provider, eventId) {
        OnlyAcceptedIsRecorded(Run(Empty(), before), last, provider, eventId);
        hide Exec, EventSeen, Accepted;
        if Delivered(before, provider, eventId) {
          var k :| 0 <= k < |before| && Accepted(before[k], provider, eventId);
          assert Accepted(steps[k], provider, eventId);
        }
      }
    }
  }

  /** After any run a delivery may be dropped exactly when it is malformed or its event was
      delivered in good form before. */
  lemma DropIsSoundIff(steps: seq<Step>, d: Delivery)
    ensures Run(Empty(), steps + [WebhookStep(d)]) == Run(Empty(), steps) <==>
            !WellFormed(d) || Delivered(steps, d.provider, d.eventId.t)
  {
    RunAppend(Empty(), steps, WebhookStep(d));
    NoEffectIff(Run(Empty(), steps), d);
    if WellFormed(d) {
      SeenIffDelivered(steps, d.provider, d.eventId.t);
    }
    hide Run, Exec, EventSeen;
  }

  /** A malformed first delivery is not recorded, so a later good one with the same event id
      still counts: only repeats of well-formed deliveries may be dropped. */
  lemma MalformedFirstIsNotRecorded()
    ensures
      var bad := WebhookStep(Delivery("mock", Text("evt"), Text("payment.updated"), NotObject));
      var good := WebhookStep(Delivery("mock", Text("evt"), Text("payment.updated"), Payload(Null, Null, Null)));
      Run(Empty(), [bad, good]) != Run(Empty(), [bad])
  {
    var bad := WebhookStep(Delivery("mock", Text("evt"), Text("payment.updated"), NotObject));
    var good := WebhookStep(Delivery("mock", Text("evt"), Text("payment.updated"), Payload(Null, Null, Null)));
    assert [bad, good][..1] == [bad] && [bad][..0] == [];
    assert Run(Empty(), [bad]) == Exec(Run(Empty(), []), bad) == Empty();
    NoEffectIff(Empty(), good.delivery);
  }

  /** One provider charge never pays two invoices: no charge id is bound to two attempts. */
  lemma ChargePaysOnce(steps: seq<Step>, a: nat, b: nat)
    requires a < |Run(Empty(), steps).attempts| && b < |Run(Empty(), steps).attempts|
    ensures Run(Empty(), steps).attempts[a].chargeId == Run(Empty(), steps).attempts[b].chargeId
            ==> a == b || Run(Empty(), steps).attempts[a].chargeId == ""
  {
    Reachable(steps);
    var s := Run(Empty(), steps);
    assert a != b ==> Apart(s.attempts[a], s.attempts[b]);
  }
}
