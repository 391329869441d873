/** Envelope construction shared by every writer. */
module Lineages {
  import opened Types
  import opened Jobs

  /** Correlation and trace of the first envelope, causation of the last. */
  function LineageOf(s: Stream): Lineage {
    if |s| == 0 then Lineage(NIL_CORRELATION, None, None)
    else Lineage(s[0].lineage.correlation, Some(s[|s| - 1].eventId), s[0].lineage.traceparent)
  }

  function Wrap(
    ids: seq<EventId>, at: Time, stream: JobId, base: nat, lineage: Lineage, events: seq<JobEvent>
  ): (r: seq<Envelope>)
    requires |ids| >= |events|
    ensures Continues(stream, base, r) && EventsOf(r) == events
    ensures forall k :: 0 <= k < |r| ==> r[k].eventId == ids[k] && r[k].recordedAt == at
    ensures forall k :: 0 <= k < |r| ==> r[k].lineage == lineage && r[k].schemaVersion == SCHEMA_VERSION
  {
    seq(|events|, k requires 0 <= k < |events| =>
      Envelope(ids[k], stream, base + k + 1, at, lineage, SCHEMA_VERSION, events[k]))
  }

  method WrapEvents(ids: seq<EventId>, at: Time, stream: JobId, base: nat, lineage: Lineage, events: seq<JobEvent>)
    returns (r: seq<Envelope>)
    requires |ids| >= |events|
    ensures r == Wrap(ids, at, stream, base, lineage, events)
  {
    r := [];
    var version := base;
    for k := 0 to |events|
      invariant version == base + k
      invariant r == Wrap(ids, at, stream, base, lineage, events)[..k]
    {
      version := version + 1;
      r := r + [Envelope(ids[k], stream, version, at, lineage, SCHEMA_VERSION, events[k])];
    }
  }
}
