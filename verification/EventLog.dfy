/** The `events` table: an AUTOINCREMENT log, trimmed from the old end. */
module EventLog {
  import opened Rows

  datatype EventRow = EventRow(seqNo: nat, event: Event)

  /** `rows` in primary-key order; `autoinc` is the last sequence number ever handed out. */
  datatype EventTable = EventTable(rows: seq<EventRow>, autoinc: nat) {

    /** `append_event_tx`: one INSERT, numbered by the AUTOINCREMENT key. */
    function Append(e: Event): EventTable {
      EventTable(rows + [EventRow(autoinc + 1, e)], autoinc + 1)
    }

    /** The inserts of one transaction, in order. */
    function AppendAll(evs: seq<Event>): EventTable
      decreases |evs|
    {
      if evs == [] then this else AppendAll(evs[..|evs| - 1]).Append(evs[|evs| - 1])
    }

    /** `latest_event_seq`: COALESCE(MAX(seq), 0). */
    function Latest(): nat {
      if rows == [] then 0 else rows[|rows| - 1].seqNo
    }

    /** The lowest sequence number still present, or the next one to be written. */
    function Oldest(): nat {
      if rows == [] then autoinc + 1 else rows[0].seqNo
    }

    /** `trim_events`: delete every row numbered at or below MAX(seq) - keep. */
    function Trim(keep: int): EventTable {
      var kept := if keep < 0 then 0 else keep;
      EventTable(Above(rows, Latest() - kept), autoinc)
    }

    /** `events_since`: rows numbered above `since`, oldest first, at most `limit` of them. */
    function Since(since: int, limit: nat): seq<EventRow> {
      var newer := Above(rows, since);
      if |newer| <= limit then newer else newer[..limit]
    }

    /** The retained rows carry consecutive numbers ending at `autoinc`. */
    ghost predicate Contiguous() {
      && |rows| <= autoinc
      && forall i :: 0 <= i < |rows| ==> rows[i].seqNo == autoinc - |rows| + 1 + i
    }
  }

  const EMPTY: EventTable := EventTable([], 0)

  /** `WHERE seq > cut`, keeping the order. */
  function Above(rows: seq<EventRow>, cut: int): seq<EventRow> {
    if rows == [] then []
    else if rows[0].seqNo > cut then [rows[0]] + Above(rows[1..], cut)
    else Above(rows[1..], cut)
  }

  function Payloads(rows: seq<EventRow>): (evs: seq<Event>)
    ensures |evs| == |rows|
    ensures forall i :: 0 <= i < |rows| ==> evs[i] == rows[i].event
  {
    seq(|rows|, i requires 0 <= i < |rows| => rows[i].event)
  }

  /** On consecutively numbered rows, filtering by number is dropping a prefix. */
  lemma {:induction false} AboveIsSuffix(rows: seq<EventRow>, first: int, cut: int)
    requires forall i :: 0 <= i < |rows| ==> rows[i].seqNo == first + i
    ensures var k := if cut < first then 0 else if cut - first + 1 > |rows| then |rows| else cut - first + 1;
            Above(rows, cut) == rows[k..]
  {
    if rows == [] {
    } else {
      AboveIsSuffix(rows[1..], first + 1, cut);
    }
  }

  lemma {:induction false} AppendAllSpec(t: EventTable, evs: seq<Event>)
    ensures t.AppendAll(evs).autoinc == t.autoinc + |evs|
    ensures |t.AppendAll(evs).rows| == |t.rows| + |evs|
    ensures t.AppendAll(evs).rows[..|t.rows|] == t.rows
    ensures Payloads(t.AppendAll(evs).rows[|t.rows|..]) == evs
    ensures t.Contiguous() ==> t.AppendAll(evs).Contiguous()
    decreases |evs|
  {
    if evs == [] {
    } else {
      AppendAllSpec(t, evs[..|evs| - 1]);
    }
  }

  lemma AppendAllOne(t: EventTable, e: Event)
    ensures t.AppendAll([e]) == t.Append(e)
  {
    assert [e][..0] == [];
  }

  lemma AppendAllTwo(t: EventTable, e: Event, f: Event)
    ensures t.AppendAll([e, f]) == t.Append(e).Append(f)
  {
    assert [e, f][..1] == [e];
    AppendAllOne(t, e);
  }

  lemma {:induction false} AppendAllSplit(t: EventTable, evs: seq<Event>, more: seq<Event>)
    ensures t.AppendAll(evs + more) == t.AppendAll(evs).AppendAll(more)
    decreases |more|
  {
    if more == [] {
      assert evs + more == evs;
    } else {
      var k := |more| - 1;
      assert (evs + more)[..|evs + more| - 1] == evs + more[..k];
      AppendAllSplit(t, evs, more[..k]);
    }
  }

  /** Trimming a consecutive log leaves exactly its newest `keep` rows. */
  lemma TrimKeepsNewest(t: EventTable, keep: int)
    requires t.Contiguous()
    ensures var kept := if keep < 0 then 0 else if keep > |t.rows| then |t.rows| else keep;
            t.Trim(keep).rows == t.rows[|t.rows| - kept..]
    ensures t.Trim(keep).Contiguous()
    ensures t.Trim(keep).Oldest() >= t.Oldest()
  {
    AboveIsSuffix(t.rows, t.autoinc - |t.rows| + 1, t.Latest() - (if keep < 0 then 0 else keep));
  }

  /** A reader at `since` gets consecutive rows, starting right after its cursor unless those were trimmed. */
  lemma SinceSpec(t: EventTable, since: int, limit: nat)
    requires t.Contiguous() && limit > 0
    ensures var rows := t.Since(since, limit);
            var first := if since + 1 < t.Oldest() then t.Oldest() else since + 1;
            && |rows| <= limit
            && (forall i :: 0 <= i < |rows| ==> rows[i].seqNo == first + i && rows[i] in t.rows)
            && (rows == [] <==> first > t.autoinc)
            && (|rows| < limit ==> first + |rows| == if first > t.autoinc then first else t.autoinc + 1)
  {
    SinceIsWindow(t, since, limit);
  }

  /** The rows read are one stretch of the table. */
  lemma SinceIsWindow(t: EventTable, since: int, limit: nat)
    requires t.Contiguous()
    ensures t.Oldest() == t.autoinc - |t.rows| + 1
    ensures var k := FirstAbove(t, since);
            var n := if |t.rows| - k <= limit then |t.rows| - k else limit;
            t.Since(since, limit) == t.rows[k..k + n]
  {
    assert Above(t.rows, since) == t.rows[FirstAbove(t, since)..] by {
      AboveIsSuffix(t.rows, t.autoinc - |t.rows| + 1, since);
    }
  }

  /** The index of the oldest row numbered above `since`. */
  function FirstAbove(t: EventTable, since: int): (k: nat)
    ensures k <= |t.rows|
  {
    var oldest := t.autoinc - |t.rows| + 1;
    if since < oldest then 0 else if since - oldest + 1 > |t.rows| then |t.rows| else since - oldest + 1
  }
}
