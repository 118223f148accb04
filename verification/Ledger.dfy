/** The append-only audit ledger. */
module Ledger {
  import opened Wrappers
  import opened Domain
  import opened Strings

  datatype AuditAppendError = NonMonotonicSequence(expected: nat, actual: nat)

  /** Sequence numbers count the events from 1 without a gap. */
  predicate Sequenced(events: seq<AuditEvent>) {
    forall k :: 0 <= k < |events| ==> events[k].sequence == k + 1
  }

  /** The event that a component named `source` writes next for run `runId`. */
  function NextEvent(events: seq<AuditEvent>, source: string, runId: string, kind: AuditEventKind): AuditEvent {
    AuditEvent(source + "-event-" + Decimal(|events| + 1), runId, |events| + 1, kind)
  }

  /** The ledger after `source` has recorded `kind`. */
  function Recorded(events: seq<AuditEvent>, source: string, runId: string, kind: AuditEventKind): seq<AuditEvent> {
    events + [NextEvent(events, source, runId, kind)]
  }

  /** The event at position `k` of a ledger that only `source` writes to, always for the same run. */
  predicate WrittenBy(events: seq<AuditEvent>, source: string, runId: string) {
    forall k :: 0 <= k < |events| ==>
      events[k] == AuditEvent(source + "-event-" + Decimal(k + 1), runId, k + 1, events[k].kind)
  }

  /** A ledger written by one component is gap-free and names every event differently. */
  lemma WrittenByOneSource(events: seq<AuditEvent>, source: string, runId: string)
    requires WrittenBy(events, source, runId)
    ensures Sequenced(events)
    ensures forall i, j :: 0 <= i < j < |events| ==> events[i].id != events[j].id
  {
    forall i, j | 0 <= i < j < |events|
      ensures events[i].id != events[j].id
    {
      var prefix := source + "-event-";
      assert events[i].id == prefix + Decimal(i + 1) && events[j].id == prefix + Decimal(j + 1);
      if events[i].id == events[j].id {
        assert Decimal(i + 1) == events[i].id[|prefix|..] == Decimal(j + 1);
        DecimalInjective(i + 1, j + 1);
      }
    }
  }

  class AuditLedger {
    var events: seq<AuditEvent>

    ghost predicate Valid()
      reads this
    {
      Sequenced(events)
    }

    constructor ()
      ensures Valid() && events == []
    {
      events := [];
    }

    function NextSequence(): (n: nat)
      reads this
      ensures Valid() && events != [] ==> n == events[|events| - 1].sequence + 1
    {
      |events| + 1
    }

    /** Accepts exactly the event that carries the next sequence number. */
    method Append(event: AuditEvent) returns (r: Outcome<AuditAppendError>)
      requires Valid()
      modifies this
      ensures Valid()
      ensures r.Pass? <==> event.sequence == |old(events)| + 1
      ensures events == if r.Pass? then old(events) + [event] else old(events)
      ensures r.Fail? ==> r.error == NonMonotonicSequence(|old(events)| + 1, event.sequence)
    {
      var expected := NextSequence();
      if event.sequence != expected {
        return Fail(NonMonotonicSequence(expected, event.sequence));
      }
      events := events + [event];
      return Pass;
    }

    /** Recording with the ledger's own next number cannot fail. */
    method Record(source: string, runId: string, kind: AuditEventKind) returns (r: Outcome<AuditAppendError>)
      requires Valid()
      modifies this
      ensures Valid() && r == Pass
      ensures events == Recorded(old(events), source, runId, kind)
    {
      var sequence := NextSequence();
      r := Append(AuditEvent(source + "-event-" + Decimal(sequence), runId, sequence, kind));
    }
  }
}
