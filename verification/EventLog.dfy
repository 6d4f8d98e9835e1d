// The shared, append-only event log and its per-run sequence numbers.

module EventLog {
  import opened Basics
  import opened RunState
  import opened History

  datatype EventRecord = EventRecord(runId: RunId, sequence: nat, event: Event)

  // A run's records, in the order they were appended.
  function RecordsOf(events: seq<EventRecord>, id: RunId): seq<EventRecord> {
    if events == [] then []
    else
      var last := events[|events| - 1];
      RecordsOf(events[..|events| - 1], id) + if last.runId == id then [last] else []
  }

  function Payloads(records: seq<EventRecord>): seq<Event> {
    seq(|records|, i requires 0 <= i < |records| => records[i].event)
  }

  function EventsOf(events: seq<EventRecord>, id: RunId): seq<Event> {
    Payloads(RecordsOf(events, id))
  }

  // A run's records carry the sequence numbers 1, 2, ... without a gap.
  ghost predicate Sequenced(events: seq<EventRecord>, id: RunId) {
    forall k :: 0 <= k < |RecordsOf(events, id)| ==> RecordsOf(events, id)[k].sequence == k + 1
  }

  lemma AppendedRecords(events: seq<EventRecord>, r: EventRecord, id: RunId)
    ensures RecordsOf(events + [r], id) == RecordsOf(events, id) + if r.runId == id then [r] else []
    ensures EventsOf(events + [r], id) == EventsOf(events, id) + if r.runId == id then [r.event] else []
    ensures Sequenced(events, id) && (r.runId == id ==> r.sequence == |RecordsOf(events, id)| + 1) ==> Sequenced(events + [r], id)
    ensures |EventsOf(events, id)| == |RecordsOf(events, id)|
  {
    assert (events + [r])[..|events|] == events;
  }
}
