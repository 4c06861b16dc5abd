/**
 * Event retention and delivery: the in-memory bus, the publishers that trim the log, and the subscription pumps
 * that read it, interleaved in any order.
 */
module EventPump {
  import opened Rows
  import opened EventLog

  /** The bus: highest sequence number announced, lowest one believed to be still replayable. */
  datatype Bus = Bus(latest: int, oldest: int) {

    function Published(newLatest: int): Bus {
      if newLatest > latest then Bus(newLatest, oldest) else this
    }

    function WithOldest(seqNo: int): Bus {
      Bus(latest, if seqNo >= 1 then seqNo else 1)
    }

    /** A reader that has consumed through `since` wants `since + 1`. */
    predicate Expired(since: int) {
      since + 1 < oldest
    }
  }

  function Seeded(latest: int, oldest: int): Bus {
    Bus(latest, if oldest >= 1 then oldest else 1)
  }

  datatype Wake = Ready | StillWaiting | ShuttingDown

  /** `EventBus`: the mutex-guarded state. */
  class EventBus {
    var latestSeq: int
    var oldestRetained: int
    var shuttingDown: bool

    ghost function State(): Bus
      reads this
    {
      Bus(latestSeq, oldestRetained)
    }

    constructor (latest: int, oldest: int)
      ensures State() == Seeded(latest, oldest) && !shuttingDown
      ensures latestSeq == latest && oldestRetained == (if oldest < 1 then 1 else oldest)
    {
      latestSeq := latest;
      oldestRetained := if oldest >= 1 then oldest else 1;
      shuttingDown := false;
    }

    method Published(newLatest: int)
      modifies this`latestSeq
      ensures State() == old(State()).Published(newLatest)
      ensures latestSeq >= old(latestSeq) && latestSeq >= newLatest
      ensures latestSeq == old(latestSeq) || latestSeq == newLatest
    {
      if newLatest > latestSeq {
        latestSeq := newLatest;
      }
    }

    method SetOldestRetained(seqNo: int)
      modifies this`oldestRetained
      ensures State() == old(State()).WithOldest(seqNo)
      ensures oldestRetained == if seqNo < 1 then 1 else seqNo
    {
      oldestRetained := if seqNo >= 1 then seqNo else 1;
    }

    method IsExpired(since: int) returns (expired: bool)
      ensures expired <==> State().Expired(since)
      ensures expired <==> oldestRetained > since + 1
    {
      expired := since + 1 < oldestRetained;
    }

    method Shutdown()
      modifies this`shuttingDown
      ensures shuttingDown
    {
      shuttingDown := true;
    }

    /** One pass of the wait loop: shutting down wins over readiness. */
    method Poll(want: int) returns (wake: Wake)
      ensures wake == ShuttingDown <==> shuttingDown
      ensures wake == Ready <==> !shuttingDown && latestSeq >= want
    {
      if shuttingDown {
        return ShuttingDown;
      }
      wake := if latestSeq >= want then Ready else StillWaiting;
    }
  }

  const BATCH: nat := 256

  /** The inner loop of the pump against a log that nobody changes meanwhile: batches until none is left. */
  method Drain(log: EventTable, since: nat) returns (next: nat, delivered: seq<EventRow>)
    requires log.Contiguous()
    ensures delivered == log.Since(since, |log.rows|)
    ensures next == LastSeq(delivered, since)
    ensures forall r :: r in log.rows ==> r.seqNo <= next
  {
    next, delivered := since, [];
    var batch := log.Since(next, BATCH);
    while batch != []
      invariant delivered + Above(log.rows, next) == Above(log.rows, since)
      invariant next == LastSeq(delivered, since)
      invariant batch == log.Since(next, BATCH)
      decreases log.autoinc - next
    {
      NextBatch(log, next);
      Regroup(delivered, batch, Above(log.rows, LastSeq(batch, 0)));
      delivered := delivered + batch;
      next := batch[|batch| - 1].seqNo;
      batch := log.Since(next, BATCH);
    }
    DrainedAll(log, since, next);
    assert delivered + [] == delivered;
  }

  lemma Regroup(a: seq<EventRow>, b: seq<EventRow>, c: seq<EventRow>)
    ensures (a + b) + c == a + (b + c)
  {
  }

  lemma DrainedAll(log: EventTable, since: nat, next: nat)
    requires log.Contiguous() && log.Since(next, BATCH) == []
    ensures Above(log.rows, next) == [] && log.Since(since, |log.rows|) == Above(log.rows, since)
    ensures forall r :: r in log.rows ==> r.seqNo <= next
  {
    AboveIsSuffix(log.rows, log.autoinc - |log.rows| + 1, next);
    AboveIsSuffix(log.rows, log.autoinc - |log.rows| + 1, since);
  }

  /** A batch is what comes next, and reading goes on right behind it. */
  lemma NextBatch(log: EventTable, next: nat)
    requires log.Contiguous() && log.Since(next, BATCH) != []
    ensures var upTo := LastSeq(log.Since(next, BATCH), 0);
            && next < upTo <= log.autoinc
            && Above(log.rows, next) == log.Since(next, BATCH) + Above(log.rows, upTo)
  {
    var first := log.autoinc - |log.rows| + 1;
    AboveIsSuffix(log.rows, first, next);
    AboveIsSuffix(log.rows, first, LastSeq(log.Since(next, BATCH), 0));
  }

  /** The number a reader of `rows` has come to. */
  function LastSeq(rows: seq<EventRow>, none: nat): nat {
    if rows == [] then none else rows[|rows| - 1].seqNo
  }

  // ---- the interleaving ----

  /** An in-flight `publish`: announced, found the log too long, trimmed it and about to report. */
  datatype Publisher = Announced | MustTrim | MustReport(oldest: nat)

  datatype SubPc = Checking | Draining | Delivering(rows: seq<EventRow>) | Gone

  /** A subscription that started after `since`; `next` is its cursor. */
  datatype Sub = Sub(since: nat, next: nat, pc: SubPc, delivered: seq<EventRow>)

  /** `history` is every event ever committed, in order; the log holds a window of it. */
  datatype Sys = Sys(log: EventTable, history: seq<Event>, bus: Bus, retention: nat,
                     publishers: map<nat, Publisher>, subs: map<nat, Sub>)

  datatype Step =
    | Append(evs: seq<Event>)
    | Announce(p: nat, seqNo: nat)
    | Measure(p: nat)
    | TrimLog(p: nat)
    | Report(p: nat)
    | Subscribe(c: nat, since: nat)
    | Watch(c: nat)
    | CheckExpiry(c: nat)
    | Read(c: nat)
    | Deliver(c: nat)
    | Hangup(c: nat)
    | Restart

  predicate Enabled(s: Sys, step: Step) {
    match step
    case Append(_) => true
    case Announce(p, seqNo) => p !in s.publishers && 1 <= seqNo <= s.log.autoinc
    case Measure(p) => p in s.publishers && s.publishers[p] == Announced
    case TrimLog(p) => p in s.publishers && s.publishers[p] == MustTrim
    case Report(p) => p in s.publishers && s.publishers[p].MustReport?
    case Subscribe(c, since) => c !in s.subs && !s.bus.Expired(since)
    case Watch(c) => c !in s.subs
    case CheckExpiry(c) => c in s.subs && s.subs[c].pc == Checking
    case Read(c) => c in s.subs && s.subs[c].pc == Draining
    case Deliver(c) => c in s.subs && s.subs[c].pc.Delivering? && s.subs[c].pc.rows != []
    case Hangup(c) => c in s.subs
    case Restart => true
  }

  function Opened(since: nat): Sub {
    Sub(since, since, Checking, [])
  }

  /** One subscriber's turn. */
  function Advance(s: Sys, sub: Sub, step: Step): Sub
    requires step.CheckExpiry? || step.Read? || step.Hangup?
             || (step.Deliver? && sub.pc.Delivering? && sub.pc.rows != [])
  {
    match step
    case CheckExpiry(_) => sub.(pc := if s.bus.Expired(sub.next) then Gone else Draining)
    case Read(_) =>
      var rows := s.log.Since(sub.next, BATCH);
      sub.(pc := if rows == [] then Checking else Delivering(rows))
    case Deliver(_) =>
      var row, rest := sub.pc.rows[0], sub.pc.rows[1..];
      Sub(sub.since, row.seqNo, if rest == [] then Draining else Delivering(rest), sub.delivered + [row])
    case Hangup(_) => sub.(pc := Gone)
  }

  function Do(s: Sys, step: Step): Sys
    requires Enabled(s, step)
  {
    match step
    case Append(evs) => s.(log := s.log.AppendAll(evs), history := s.history + evs)
    case Announce(p, seqNo) => s.(bus := s.bus.Published(seqNo), publishers := s.publishers[p := Announced])
    case Measure(p) =>
      if s.bus.latest - s.bus.oldest + 1 > s.retention then s.(publishers := s.publishers[p := MustTrim])
      else s.(publishers := s.publishers - {p})
    case TrimLog(p) =>
      var log := s.log.Trim(s.retention);
      s.(log := log, publishers := s.publishers[p := MustReport(if log.rows == [] then 0 else log.Oldest())])
    case Report(p) => s.(bus := s.bus.WithOldest(s.publishers[p].oldest), publishers := s.publishers - {p})
    case Subscribe(c, since) => s.(subs := s.subs[c := Opened(since)])
    case Watch(c) => s.(subs := s.subs[c := Opened(s.log.Latest())])
    case Restart => s.(bus := Seeded(s.log.Latest(), if s.log.rows == [] then s.log.Latest() + 1 else s.log.Oldest()),
                       publishers := map[], subs := map[])
    case _ => s.(subs := s.subs[step.c := Advance(s, s.subs[step.c], step)])
  }

  // ---- the invariant ----

  /** The window holds consecutive numbers, each with the event committed under it. */
  ghost predicate LogOk(s: Sys) {
    && s.log.Contiguous() && s.log.autoinc == |s.history| && (s.log.rows == [] ==> s.log.autoinc == 0)
    && (forall r :: r in s.log.rows ==> Genuine(s.history, r))
    && s.retention >= 1
  }

  predicate Genuine(history: seq<Event>, r: EventRow) {
    1 <= r.seqNo <= |history| && r.event == history[r.seqNo - 1]
  }

  /** The bus never claims more has been trimmed than has been. */
  ghost predicate BusOk(s: Sys) {
    && 1 <= s.bus.oldest <= s.log.Oldest() && s.bus.latest <= s.log.autoinc
    && forall p :: p in s.publishers && s.publishers[p].MustReport? ==> s.publishers[p].oldest <= s.log.Oldest()
  }

  predicate StrictlyAbove(rows: seq<EventRow>, n: nat) {
    && (forall i :: 0 <= i < |rows| ==> rows[i].seqNo > n)
    && forall i, j :: 0 <= i < j < |rows| ==> rows[i].seqNo < rows[j].seqNo
  }

  ghost predicate Has(rows: seq<EventRow>, k: nat) {
    exists i :: 0 <= i < |rows| && rows[i].seqNo == k
  }

  /**
   * `rows` is what there was to read in (from, upTo]: in order, as committed, and whatever is missing had been trimmed.
   */
  ghost predicate Reads(rows: seq<EventRow>, from: nat, upTo: nat, history: seq<Event>, oldest: nat) {
    && upTo == LastSeq(rows, from)
    && StrictlyAbove(rows, from)
    && (forall i :: 0 <= i < |rows| ==> Genuine(history, rows[i]))
    && forall k: nat :: from < k <= upTo && !Has(rows, k) ==> k < oldest
  }

  lemma ReadsHead(rows: seq<EventRow>, from: nat, upTo: nat, history: seq<Event>, oldest: nat)
    requires Reads(rows, from, upTo, history, oldest) && rows != []
    ensures Reads([rows[0]], from, rows[0].seqNo, history, oldest)
    ensures Reads(rows[1..], rows[0].seqNo, upTo, history, oldest)
  {
    forall k: nat | from < k <= rows[0].seqNo
      ensures Has([rows[0]], k) || k < oldest
    {
      if k < rows[0].seqNo {
        assert !Has(rows, k);
      } else {
        assert [rows[0]][0].seqNo == k;
      }
    }
    forall k: nat | rows[0].seqNo < k <= upTo
      ensures Has(rows[1..], k) || k < oldest
    {
      if Has(rows, k) {
        var i :| 0 <= i < |rows| && rows[i].seqNo == k;
        assert rows[1..][i - 1].seqNo == k;
      }
    }
  }

  lemma ReadsConcat(a: seq<EventRow>, from: nat, mid: nat, b: seq<EventRow>, upTo: nat, history: seq<Event>,
                    oldest: nat)
    requires Reads(a, from, mid, history, oldest) && Reads(b, mid, upTo, history, oldest)
    ensures Reads(a + b, from, upTo, history, oldest)
  {
    assert StrictlyAbove(a + b, from) by {
      OrderedConcat(a, from, mid, b);
    }
    forall k: nat | from < k <= upTo
      ensures Has(a + b, k) || k < oldest
    {
      if k <= mid && Has(a, k) {
        var i :| 0 <= i < |a| && a[i].seqNo == k;
        assert (a + b)[i].seqNo == k;
      } else if k > mid && Has(b, k) {
        var i :| 0 <= i < |b| && b[i].seqNo == k;
        assert (a + b)[|a| + i].seqNo == k;
      }
    }
  }

  lemma OrderedConcat(a: seq<EventRow>, from: nat, mid: nat, b: seq<EventRow>)
    requires StrictlyAbove(a, from) && StrictlyAbove(b, mid) && mid == LastSeq(a, from)
    ensures StrictlyAbove(a + b, from)
  {
    forall i | 0 <= i < |a|
      ensures a[i].seqNo <= mid
    {
    }
  }

  /** What a subscriber got so far, and what its pump has read ahead. */
  ghost predicate SubOk(sub: Sub, history: seq<Event>, oldest: nat) {
    && Reads(sub.delivered, sub.since, sub.next, history, oldest)
    && (sub.pc.Delivering? ==> Reads(sub.pc.rows, sub.next, LastSeq(sub.pc.rows, sub.next), history, oldest))
  }

  ghost predicate SysOk(s: Sys) {
    && LogOk(s) && BusOk(s)
    && forall c :: c in s.subs ==> SubOk(s.subs[c], s.history, s.log.Oldest())
  }

  lemma LogStep(s: Sys, step: Step)
    requires LogOk(s) && Enabled(s, step)
    ensures LogOk(Do(s, step)) && Do(s, step).log.Oldest() >= s.log.Oldest()
    ensures s.history <= Do(s, step).history
  {
    if step.Append? {
      AppendLog(s, step.evs);
    } else if step.TrimLog? {
      TrimKeepsNewest(s.log, s.retention);
    }
  }

  lemma AppendLog(s: Sys, evs: seq<Event>)
    requires LogOk(s)
    ensures LogOk(Do(s, Append(evs))) && Do(s, Append(evs)).log.Oldest() == s.log.Oldest()
  {
    var s' := Do(s, Append(evs));
    var n := |s.log.rows|;
    AppendAllSpec(s.log, evs);
    forall r | r in s'.log.rows
      ensures Genuine(s'.history, r)
    {
      var i :| 0 <= i < |s'.log.rows| && s'.log.rows[i] == r;
      if i < n {
        assert s'.log.rows[..n][i] == r;
        assert r in s.log.rows;
      } else {
        assert Payloads(s'.log.rows[n..])[i - n] == r.event;
      }
    }
    if n > 0 {
      assert s'.log.rows[..n][0] == s.log.rows[0];
    }
  }

  lemma BusStep(s: Sys, step: Step)
    requires LogOk(s) && BusOk(s) && Enabled(s, step)
    requires LogOk(Do(s, step)) && Do(s, step).log.Oldest() >= s.log.Oldest() && s.history <= Do(s, step).history
    ensures BusOk(Do(s, step))
  {
  }

  lemma SubKept(sub: Sub, history: seq<Event>, oldest: nat, history': seq<Event>, oldest': nat)
    requires SubOk(sub, history, oldest) && history <= history' && oldest <= oldest'
    ensures SubOk(sub, history', oldest')
  {
  }

  lemma ReadOk(s: Sys, sub: Sub, c: nat)
    requires LogOk(s) && SubOk(sub, s.history, s.log.Oldest()) && sub.pc == Draining
    ensures SubOk(Advance(s, sub, Read(c)), s.history, s.log.Oldest())
  {
    BatchReads(s, sub.next);
  }

  lemma BatchReads(s: Sys, next: nat)
    requires LogOk(s)
    ensures var rows := s.log.Since(next, BATCH);
            Reads(rows, next, LastSeq(rows, next), s.history, s.log.Oldest())
  {
    var rows := s.log.Since(next, BATCH);
    SinceSpec(s.log, next, BATCH);
    var first := if next + 1 < s.log.Oldest() then s.log.Oldest() else next + 1;
    forall k: nat | next < k <= LastSeq(rows, next)
      ensures Has(rows, k) || k < s.log.Oldest()
    {
      if k >= first {
        assert rows[k - first].seqNo == k;
      }
    }
  }

  lemma DeliverOk(s: Sys, sub: Sub, c: nat)
    requires SubOk(sub, s.history, s.log.Oldest()) && sub.pc.Delivering? && sub.pc.rows != []
    ensures SubOk(Advance(s, sub, Deliver(c)), s.history, s.log.Oldest())
  {
    var rows, upTo := sub.pc.rows, LastSeq(sub.pc.rows, sub.next);
    ReadsHead(rows, sub.next, upTo, s.history, s.log.Oldest());
    ReadsConcat(sub.delivered, sub.since, sub.next, [rows[0]], rows[0].seqNo, s.history, s.log.Oldest());
  }

  lemma StepOk(s: Sys, step: Step)
    requires SysOk(s) && Enabled(s, step)
    ensures SysOk(Do(s, step)) && Do(s, step).log.Oldest() >= s.log.Oldest()
  {
    var s' := Do(s, step);
    LogStep(s, step);
    BusStep(s, step);
    forall c | c in s'.subs
      ensures SubOk(s'.subs[c], s'.history, s'.log.Oldest())
    {
      if c in s.subs && s'.subs[c] == s.subs[c] {
        SubKept(s.subs[c], s.history, s.log.Oldest(), s'.history, s'.log.Oldest());
      } else if step.Read? {
        ReadOk(s, s.subs[c], c);
      } else if step.Deliver? {
        DeliverOk(s, s.subs[c], c);
      }
    }
  }

  // ---- whole runs ----

  predicate ValidSteps(s: Sys, steps: seq<Step>)
    decreases |steps|, 0
  {
    steps == []
    || (ValidSteps(s, steps[..|steps| - 1]) && Enabled(Reached(s, steps[..|steps| - 1]), steps[|steps| - 1]))
  }

  function Reached(s: Sys, steps: seq<Step>): Sys
    requires ValidSteps(s, steps)
    decreases |steps|, 1
  {
    if steps == [] then s else Do(Reached(s, steps[..|steps| - 1]), steps[|steps| - 1])
  }

  lemma {:induction false} RunOk(s: Sys, steps: seq<Step>)
    requires SysOk(s) && ValidSteps(s, steps)
    ensures SysOk(Reached(s, steps))
    decreases |steps|
  {
    if steps != [] {
      RunOk(s, steps[..|steps| - 1]);
      StepOk(Reached(s, steps[..|steps| - 1]), steps[|steps| - 1]);
    }
  }

  /** A freshly opened server over an empty store. */
  function Empty(retention: nat): Sys {
    Sys(EMPTY, [], Seeded(0, 1), retention, map[], map[])
  }

  /**
   * Delivery over any run: what a subscriber got is strictly increasing, without duplicates, exactly what was
   * committed under those numbers, and every number it passed over had been trimmed.
   */
  lemma DeliveryIsFaithful(retention: nat, steps: seq<Step>, c: nat)
    requires retention >= 1 && ValidSteps(Empty(retention), steps) && c in Reached(Empty(retention), steps).subs
    ensures var s := Reached(Empty(retention), steps);
            var sub := s.subs[c];
            && StrictlyAbove(sub.delivered, sub.since)
            && (forall r :: r in sub.delivered ==> Genuine(s.history, r))
            && forall k :: sub.since < k <= sub.next && !Has(sub.delivered, k) ==> k < s.log.Oldest()
  {
    RunOk(Empty(retention), steps);
  }

  /** Refusing a cursor is never premature: the event it wants next is gone. */
  lemma ExpiredMeansTrimmed(retention: nat, steps: seq<Step>, since: nat)
    requires retention >= 1 && ValidSteps(Empty(retention), steps)
    ensures var s := Reached(Empty(retention), steps);
            s.bus.Expired(since) ==> forall r :: r in s.log.rows ==> r.seqNo > since + 1
  {
    RunOk(Empty(retention), steps);
  }

  // ---- publishing ----

  /** The first half of a `publish` of the newest event: the bus is told, and the window measured. */
  function Measured(s: Sys, p: nat): Sys
    requires p !in s.publishers && s.log.autoinc >= 1
  {
    Do(Do(s, Announce(p, s.log.autoinc)), Measure(p))
  }

  /** The steps of one `publish` of the newest event, with no other thread in between. */
  function Publish(s: Sys, p: nat): Sys
    requires p !in s.publishers && s.log.autoinc >= 1
  {
    if p !in Measured(s, p).publishers then Measured(s, p) else Do(Do(Measured(s, p), TrimLog(p)), Report(p))
  }

  lemma MeasuredExactly(s: Sys, p: nat)
    requires SysOk(s) && p !in s.publishers && s.log.rows != [] && s.bus.oldest == s.log.Oldest()
    ensures var s', n := Measured(s, p), |s.log.rows|;
            && s'.log == s.log && s'.retention == s.retention && s'.history == s.history
            && s'.bus.latest == s.log.autoinc && s'.bus.oldest == s.bus.oldest
            && (p in s'.publishers <==> n > s.retention) && (p in s'.publishers ==> s'.publishers[p] == MustTrim)
  {
  }

  lemma TrimmedAndReported(s: Sys, p: nat)
    requires s.log.Contiguous() && p in s.publishers && s.publishers[p] == MustTrim
    requires 1 <= s.retention < |s.log.rows|
    ensures var s' := Do(Do(s, TrimLog(p)), Report(p));
            && s'.log.rows == s.log.rows[|s.log.rows| - s.retention..] && s'.log.autoinc == s.log.autoinc
            && s'.history == s.history && s'.bus.latest == s.bus.latest
            && s'.bus.oldest == s'.log.Oldest() && p !in s'.publishers
  {
    TrimKeepsNewest(s.log, s.retention);
  }

  /**
   * Retention: when the bus is up to date, a publish that runs undisturbed leaves the newest `retention` rows, or all
   * of them if there are no more than that, and the bus up to date.
   */
  lemma PublishKeepsRetention(s: Sys, p: nat)
    requires SysOk(s) && p !in s.publishers && s.log.rows != [] && s.bus.oldest == s.log.Oldest()
    ensures var s', n := Publish(s, p), |s.log.rows|;
            && s'.log.rows == (if n > s.retention then s.log.rows[n - s.retention..] else s.log.rows)
            && s'.log.autoinc == s.log.autoinc && s'.history == s.history
            && s'.bus.latest == s.log.autoinc && s'.bus.oldest == s'.log.Oldest() && p !in s'.publishers
  {
    MeasuredExactly(s, p);
    if |s.log.rows| > s.retention {
      TrimmedAndReported(Measured(s, p), p);
    }
  }

  /** A subscriber is turned away, at the start or later, exactly when the bus knows the event it wants next is gone. */
  lemma RefusedIffBehind(s: Sys, c: nat, since: nat)
    ensures c !in s.subs ==> (Enabled(s, Subscribe(c, since)) <==> s.bus.oldest <= since + 1)
    ensures c in s.subs && s.subs[c].pc == Checking ==>
              && Do(s, CheckExpiry(c)).subs[c].pc == (if s.bus.oldest > s.subs[c].next + 1 then Gone else Draining)
  {
  }

  /** A restarted server goes on behind the last event, and knows exactly what is still there. */
  lemma RestartIsUpToDate(s: Sys)
    requires SysOk(s)
    ensures var s' := Do(s, Restart);
            && s'.log == s.log && s'.bus.latest == s.log.autoinc && s'.bus.oldest == s.log.Oldest()
            && s'.publishers == map[] && s'.subs == map[]
  {
  }

  // ---- gaps ----

  predicate Consecutive(rows: seq<EventRow>, after: nat) {
    forall i :: 0 <= i < |rows| ==> rows[i].seqNo == after + 1 + i
  }

  predicate GapFree(sub: Sub) {
    && Consecutive(sub.delivered, sub.since) && sub.next == sub.since + |sub.delivered|
    && (sub.pc.Delivering? ==> Consecutive(sub.pc.rows, sub.next))
  }

  /** One read leaves a gap if and only if the wanted event had already been trimmed. */
  lemma ReadLeavesGap(s: Sys, sub: Sub, c: nat)
    requires LogOk(s) && sub.pc == Draining && GapFree(sub) && s.log.Since(sub.next, BATCH) != []
    ensures GapFree(Advance(s, sub, Read(c))) <==> sub.next + 1 >= s.log.Oldest()
  {
    SinceSpec(s.log, sub.next, BATCH);
    assert s.log.Since(sub.next, BATCH)[0].seqNo == if sub.next + 1 < s.log.Oldest() then s.log.Oldest()
           else sub.next + 1;
  }

  /** The pump is past its check and what it wants next is still there. */
  predicate Safe(sub: Sub, oldest: nat) {
    && GapFree(sub) && sub.pc != Checking
    && (sub.pc == Draining ==> sub.next + 1 >= oldest)
    && (sub.pc.Delivering? ==> sub.next + |sub.pc.rows| + 1 >= oldest)
  }

  /** No trim, and no re-check of the same pump: the rest of one drain. */
  ghost predicate WithinDrain(s: Sys, steps: seq<Step>, c: nat)
    requires ValidSteps(s, steps)
    decreases |steps|
  {
    steps == [] ||
    (var k := |steps| - 1;
     && WithinDrain(s, steps[..k], c) && !steps[k].TrimLog? && !steps[k].Restart?
     && c in Reached(s, steps[..k]).subs && Reached(s, steps[..k]).subs[c].pc != Checking)
  }

  lemma SafeStep(s: Sys, step: Step, c: nat)
    requires SysOk(s) && Enabled(s, step) && c in s.subs && Safe(s.subs[c], s.log.Oldest())
    requires !step.TrimLog? && !step.Restart?
    ensures c in Do(s, step).subs && GapFree(Do(s, step).subs[c])
    ensures Do(s, step).subs[c].pc != Checking ==> Safe(Do(s, step).subs[c], Do(s, step).log.Oldest())
  {
    if step.Append? {
      AppendLog(s, step.evs);
    } else if step.Read? && step.c == c {
      SafeRead(s, s.subs[c], c);
    } else if step.Deliver? && step.c == c {
      SafeDeliver(s, s.subs[c], c);
    }
  }

  lemma SafeRead(s: Sys, sub: Sub, c: nat)
    requires LogOk(s) && Safe(sub, s.log.Oldest()) && sub.pc == Draining
    ensures var sub' := Advance(s, sub, Read(c));
            GapFree(sub') && (sub'.pc != Checking ==> Safe(sub', s.log.Oldest()))
  {
    SinceSpec(s.log, sub.next, BATCH);
  }

  lemma SafeDeliver(s: Sys, sub: Sub, c: nat)
    requires Safe(sub, s.log.Oldest()) && sub.pc.Delivering? && sub.pc.rows != []
    ensures Safe(Advance(s, sub, Deliver(c)), s.log.Oldest())
  {
  }

  /** However the drain of subscriber `c` goes on, nothing is passed over. */
  ghost predicate DrainsWithoutGap(s: Sys, c: nat) {
    forall steps :: ValidSteps(s, steps) && WithinDrain(s, steps, c) ==>
      c in Reached(s, steps).subs && GapFree(Reached(s, steps).subs[c])
  }

  /**
   * When a drain is gap-free, exactly: for every way it may go on until a trim or its own end, if and only if the
   * event wanted next has not been trimmed when it starts. The expiry check before it does not establish that: it
   * asks the bus, which may lag behind the store. A bus that lags behind an older trim does no harm.
   */
  lemma DrainIsGapFree(s: Sys, c: nat)
    requires SysOk(s) && c in s.subs && s.subs[c].pc == Draining && GapFree(s.subs[c])
    ensures DrainsWithoutGap(s, c) <==> s.subs[c].next + 1 >= s.log.Oldest()
  {
    if s.subs[c].next + 1 >= s.log.Oldest() {
      forall steps | ValidSteps(s, steps) && WithinDrain(s, steps, c)
        ensures c in Reached(s, steps).subs && GapFree(Reached(s, steps).subs[c])
      {
        DrainFrom(s, steps, c);
      }
    } else {
      SinceSpec(s.log, s.subs[c].next, BATCH);
      ReadLeavesGap(s, s.subs[c], c);
      var read := [Read(c)];
      assert read[..0] == [];
      assert ValidSteps(s, read[..0]) && Reached(s, read[..0]) == s && WithinDrain(s, read[..0], c);
      assert ValidSteps(s, read) && WithinDrain(s, read, c) && !GapFree(Reached(s, read).subs[c]);
    }
  }

  /** After a passed check the same holds; a bus that is up to date suffices, and is more than is needed. */
  lemma CheckedDrain(s: Sys, c: nat)
    requires SysOk(s) && c in s.subs && s.subs[c].pc == Checking && GapFree(s.subs[c]) && !s.bus.Expired(s.subs[c].next)
    ensures DrainsWithoutGap(Do(s, CheckExpiry(c)), c) <==> s.subs[c].next + 1 >= s.log.Oldest()
    ensures s.bus.oldest == s.log.Oldest() ==> DrainsWithoutGap(Do(s, CheckExpiry(c)), c)
  {
    StepOk(s, CheckExpiry(c));
    DrainIsGapFree(Do(s, CheckExpiry(c)), c);
  }

  lemma {:induction false} DrainFrom(s: Sys, steps: seq<Step>, c: nat)
    requires SysOk(s) && c in s.subs && Safe(s.subs[c], s.log.Oldest()) && ValidSteps(s, steps)
             && WithinDrain(s, steps, c)
    ensures var s' := Reached(s, steps);
            && SysOk(s') && c in s'.subs && GapFree(s'.subs[c])
            && (s'.subs[c].pc != Checking ==> Safe(s'.subs[c], s'.log.Oldest()))
    decreases |steps|
  {
    if steps != [] {
      var k := |steps| - 1;
      DrainFrom(s, steps[..k], c);
      StepOk(Reached(s, steps[..k]), steps[k]);
      SafeStep(Reached(s, steps[..k]), steps[k], c);
    }
  }

  /** Two publishers report in the wrong order: the bus ends up behind the store with no publish in flight. */
  lemma LateReportMovesBusBack(s: Sys, p: nat, q: nat, c: nat)
    requires SysOk(s) && p in s.publishers && q in s.publishers && p != q && s.publishers.Keys == {p, q}
    requires s.publishers[p].MustReport? && s.publishers[q].MustReport?
    requires 1 <= s.publishers[p].oldest < s.publishers[q].oldest == s.log.Oldest()
    requires c in s.subs && s.subs[c] == Opened(s.publishers[p].oldest - 1) && s.log.rows != []
    ensures Enabled(s, Report(q)) && Enabled(Do(s, Report(q)), Report(p))
    ensures var s' := Do(Do(s, Report(q)), Report(p));
            var s'' := Do(s', CheckExpiry(c));
            && s'.publishers == map[] && s'.bus.oldest < s'.log.Oldest()
            && s''.subs[c].pc == Draining && !GapFree(Do(s'', Read(c)).subs[c])
  {
    var s' := Do(Do(s, Report(q)), Report(p));
    assert s'.publishers.Keys == {};
    StepOk(s, Report(q));
    StepOk(Do(s, Report(q)), Report(p));
    StepOk(s', CheckExpiry(c));
    SinceSpec(s'.log, s'.subs[c].next, BATCH);
    ReadLeavesGap(s', Do(s', CheckExpiry(c)).subs[c], c);
  }

  /** The steps that lead an empty server with retention 1 to two crossing reports and a subscriber at cursor 1. */
  function CrossingReports(e: Event): seq<Step> {
    [Append([e, e]), Announce(0, 2), Measure(0), TrimLog(0), Append([e]), Announce(1, 3), Measure(1), TrimLog(1),
     Subscribe(0, 1)]
  }

  /** The state after the first `k` of those steps. */
  function CrossingState(e: Event, k: nat): Sys
    requires k <= 9
  {
    var a, b, c := EventRow(1, e), EventRow(2, e), EventRow(3, e);
    if k == 0 then Empty(1)
    else if k <= 3 then Sys(EventTable([a, b], 2), [e, e], Bus(if k == 1 then 0 else 2, 1), 1,
                            if k == 1 then map[] else map[0 := if k == 2 then Announced else MustTrim], map[])
    else if k == 4 then Sys(EventTable([b], 2), [e, e], Bus(2, 1), 1, map[0 := MustReport(2)], map[])
    else if k <= 7 then Sys(EventTable([b, c], 3), [e, e, e], Bus(if k == 5 then 2 else 3, 1), 1,
                            if k == 5 then map[0 := MustReport(2)]
                            else map[0 := MustReport(2), 1 := if k == 6 then Announced else MustTrim], map[])
    else Sys(EventTable([c], 3), [e, e, e], Bus(3, 1), 1, map[0 := MustReport(2), 1 := MustReport(3)],
             if k == 8 then map[] else map[0 := Opened(1)])
  }

  lemma CrossingStep(e: Event, k: nat)
    requires k < 9
    ensures Enabled(CrossingState(e, k), CrossingReports(e)[k])
    ensures Do(CrossingState(e, k), CrossingReports(e)[k]) == CrossingState(e, k + 1)
  {
    if k < 4 {
      FirstCrossing(e, k);
    } else {
      SecondCrossing(e, k);
    }
  }

  lemma FirstCrossing(e: Event, k: nat)
    requires k < 4
    ensures Enabled(CrossingState(e, k), CrossingReports(e)[k])
    ensures Do(CrossingState(e, k), CrossingReports(e)[k]) == CrossingState(e, k + 1)
  {
    if k == 0 {
      AppendAllTwo(EMPTY, e, e);
    } else if k == 3 {
      TrimKeepsNewest(CrossingState(e, k).log, 1);
    }
  }

  lemma SecondCrossing(e: Event, k: nat)
    requires 4 <= k < 9
    ensures Enabled(CrossingState(e, k), CrossingReports(e)[k])
    ensures Do(CrossingState(e, k), CrossingReports(e)[k]) == CrossingState(e, k + 1)
  {
    if k == 4 {
      AppendAllOne(CrossingState(e, k).log, e);
    } else if k == 7 {
      TrimKeepsNewest(CrossingState(e, k).log, 1);
    }
  }

  /** That situation is reachable. */
  lemma {:induction false} LateReportsHappen(e: Event, k: nat)
    requires k <= 9
    ensures ValidSteps(Empty(1), CrossingReports(e)[..k])
            && Reached(Empty(1), CrossingReports(e)[..k]) == CrossingState(e, k)
  {
    if k > 0 {
      LateReportsHappen(e, k - 1);
      CrossingStep(e, k - 1);
      Prefix(Empty(1), CrossingReports(e), k - 1);
    }
  }

  lemma Prefix(s: Sys, steps: seq<Step>, k: nat)
    requires k < |steps| && ValidSteps(s, steps[..k]) && Enabled(Reached(s, steps[..k]), steps[k])
    ensures ValidSteps(s, steps[..k + 1]) && Reached(s, steps[..k + 1]) == Do(Reached(s, steps[..k]), steps[k])
  {
    assert steps[..k + 1][..k] == steps[..k];
  }
}
