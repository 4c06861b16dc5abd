/** Five-field cron: parsing the field sets and searching for the next fire at a constant offset from UTC. */
module Cron {
  import opened Rows
  import opened Calendar

  const TWO_32: nat := 0x1_0000_0000

  // ---- stepping through a range in 32-bit arithmetic ----

  /** The step after `v`, wrapping as an unchecked `u32` addition does. */
  function Next(v: nat, step: nat): nat {
    (v + step) % TWO_32
  }

  /** The values of a domain this small; all fields end at 59. */
  predicate Small(v: nat) {
    v < 100
  }

  /** Does the loop `while v <= hi { mark v; v += step }` mark `w`? */
  predicate Visits(v: nat, hi: nat, step: nat, w: nat)
    requires Small(hi) && 0 < step < TWO_32
    decreases if step < TWO_32 / 2 then hi as int - v else v
  {
    v <= hi && (w == v || (Next(v, step) <= hi && Visits(Next(v, step), hi, step, w)))
  }

  predicate Multiple(d: nat, step: nat)
    requires step > 0
  {
    d == 0 || (d >= step && Multiple(d - step, step))
  }

  /** The values a term is meant to denote. */
  predicate InRange(lo: nat, hi: nat, step: nat, w: nat)
    requires step > 0
  {
    lo <= w <= hi && Multiple(w - lo, step)
  }

  lemma {:induction false} VisitsRange(v: nat, hi: nat, step: nat, w: nat)
    requires Small(hi) && 0 < step && v + step < TWO_32 && hi + step < TWO_32
    ensures Visits(v, hi, step, w) <==> InRange(v, hi, step, w)
    decreases hi as int - v
  {
    if v <= hi && w != v {
      assert Next(v, step) == v + step;
      if v + step <= hi {
        VisitsRange(v + step, hi, step, w);
      }
    }
  }

  /**
   * A term denotes its stepped range if and only if the first step cannot overflow 32 bits. A step so large that
   * it does wraps around to values below the range.
   */
  lemma TermDenotes(lo: nat, hi: nat, step: nat)
    requires lo <= hi && Small(hi) && 0 < step < TWO_32
    ensures (forall w: nat :: Visits(lo, hi, step, w) <==> InRange(lo, hi, step, w)) <==> lo + step < TWO_32
  {
    if lo + step < TWO_32 {
      forall w: nat
        ensures Visits(lo, hi, step, w) <==> InRange(lo, hi, step, w)
      {
        VisitsBelowWrap(lo, hi, step, w);
      }
    } else {
      var below: nat := lo + step - TWO_32;
      assert Next(lo, step) == below < lo;
      assert Visits(below, hi, step, below);
      assert Visits(lo, hi, step, below) && !InRange(lo, hi, step, below);
    }
  }

  lemma VisitsBelowWrap(lo: nat, hi: nat, step: nat, w: nat)
    requires lo <= hi && Small(hi) && 0 < step && lo + step < TWO_32
    ensures Visits(lo, hi, step, w) <==> InRange(lo, hi, step, w)
  {
    if hi + step < TWO_32 {
      VisitsRange(lo, hi, step, w);
    } else {
      assert Next(lo, step) == lo + step > hi;
    }
  }

  // ---- parsing a field ----

  datatype FieldSet = FieldSet(allowed: seq<bool>, base: nat) {
    predicate Contains(v: nat) {
      v >= base && v - base < |allowed| && allowed[v - base]
    }
  }

  datatype Term = Term(lo: nat, hi: nat, step: nat)

  datatype TermError = EmptyTerm | BadStep | ZeroStep | BadValue | OutOfRange

  datatype ParsedTerm = GoodTerm(term: Term) | BadTerm(error: TermError)

  /** A parsed field, a rejected one, or an index below the domain, which the program does not survive. */
  datatype ParsedField = Parsed(field: FieldSet) | Rejected(error: TermError) | OutOfBounds

  /** The pieces between separators; always at least one. */
  function SplitOn(s: string, sep: char): (parts: seq<string>)
    ensures |parts| >= 1
  {
    if s == "" then [""]
    else
      var rest := SplitOn(s[1..], sep);
      if s[0] == sep then [""] + rest else [[s[0]] + rest[0]] + rest[1..]
  }

  /** `split_once`: the text before and after the first separator. */
  function SplitOnce(s: string, sep: char): Option<(string, string)> {
    if s == "" then None
    else if s[0] == sep then Some(("", s[1..]))
    else
      match SplitOnce(s[1..], sep)
      case None => None
      case Some((a, b)) => Some(([s[0]] + a, b))
  }

  function DigitsValue(s: string): Option<nat> {
    if s == "" then Some(0)
    else
      var c := s[|s| - 1];
      match DigitsValue(s[..|s| - 1])
      case None => None
      case Some(n) => if '0' <= c <= '9' then Some(10 * n + (c as int - '0' as int)) else None
  }

  /** `str::parse::<u32>`: an optional plus sign, at least one digit, a value below two to the 32. */
  function ParseU32(s: string): Option<nat> {
    var digits := if s != "" && s[0] == '+' then s[1..] else s;
    match DigitsValue(digits)
    case None => None
    case Some(n) => if digits == "" || n >= TWO_32 then None else Some(n)
  }

  /** One comma-separated term: `*`, a value, a range, each with an optional step. */
  function ParseTerm(part: string, min: nat, max: nat): (r: ParsedTerm)
    ensures r.GoodTerm? ==> min <= r.term.lo <= r.term.hi <= max && 0 < r.term.step < TWO_32
  {
    if part == "" then BadTerm(EmptyTerm)
    else
      var pieces := SplitOnce(part, '/');
      var range := if pieces.Some? then pieces.value.0 else part;
      var step := if pieces.Some? then ParseU32(pieces.value.1) else Some(1);
      if step.None? then BadTerm(BadStep)
      else if step.value == 0 then BadTerm(ZeroStep)
      else
        var ends := SplitOnce(range, '-');
        var lo := if range == "*" then Some(min) else if ends.Some? then ParseU32(ends.value.0) else ParseU32(range);
        var hi := if range == "*" then Some(max) else if ends.Some? then ParseU32(ends.value.1) else ParseU32(range);
        if lo.None? || hi.None? then BadTerm(BadValue)
        else if lo.value < min || hi.value > max || lo.value > hi.value then BadTerm(OutOfRange)
        else GoodTerm(Term(lo.value, hi.value, step.value))
  }

  predicate TermVisits(t: Term, w: nat)
    requires Small(t.hi) && 0 < t.step < TWO_32
  {
    Visits(t.lo, t.hi, t.step, w)
  }

  /** Bounds the steps still to come: small steps climb to `hi`, overflowing ones fall to zero. */
  function StepsLeft(v: nat, hi: nat, step: nat): nat {
    if v > hi then 0 else if step < TWO_32 / 2 then hi - v + 1 else v + 1
  }

  lemma StepTaken(v: nat, hi: nat, step: nat)
    requires Small(hi) && 0 < step < TWO_32 && v <= hi
    ensures StepsLeft(Next(v, step), hi, step) < StepsLeft(v, hi, step)
  {
    assert Next(v, step) == if v + step < TWO_32 then v + step else v + step - TWO_32;
  }

  /** Marks the values of one term; stops at a value below the domain. */
  method MarkTerm(field: FieldSet, max: nat, t: Term) returns (marked: FieldSet, inBounds: bool)
    requires field.base <= t.lo <= t.hi <= max && |field.allowed| == max - field.base + 1
    requires Small(max) && 0 < t.step < TWO_32
    ensures marked.base == field.base && |marked.allowed| == |field.allowed|
    ensures inBounds <==> forall w: nat :: TermVisits(t, w) ==> w >= field.base
    ensures inBounds ==> forall w: nat :: marked.Contains(w) <==> field.Contains(w) || TermVisits(t, w)
  {
    var min, allowed := field.base, field.allowed;
    var v: nat := t.lo;
    ghost var seen: set<nat> := {};
    while v <= t.hi
      invariant |allowed| == |field.allowed|
      invariant forall w: nat :: TermVisits(t, w) <==> w in seen || Visits(v, t.hi, t.step, w)
      invariant forall w :: w in seen ==> min <= w <= max
      invariant forall w: nat :: FieldSet(allowed, min).Contains(w) <==> field.Contains(w) || w in seen
      decreases StepsLeft(v, t.hi, t.step)
    {
      if v < min {
        assert Visits(v, t.hi, t.step, v);
        return FieldSet(allowed, min), false;
      }
      MarkOne(FieldSet(allowed, min), v);
      VisitOne(v, t.hi, t.step);
      StepTaken(v, t.hi, t.step);
      allowed := allowed[v - min := true];
      seen := seen + {v};
      v := Next(v, t.step);
    }
    marked, inBounds := FieldSet(allowed, min), true;
  }

  lemma VisitOne(v: nat, hi: nat, step: nat)
    requires Small(hi) && 0 < step < TWO_32 && v <= hi
    ensures forall w: nat :: Visits(v, hi, step, w) <==> w == v || Visits(Next(v, step), hi, step, w)
  {
  }

  lemma MarkOne(field: FieldSet, v: nat)
    requires field.base <= v < field.base + |field.allowed|
    ensures var marked := FieldSet(field.allowed[v - field.base := true], field.base);
            forall w: nat :: marked.Contains(w) <==> field.Contains(w) || w == v
  {
  }

  /** The terms of a field, or the first error among them. */
  predicate GoodTerms(parts: seq<string>, min: nat, max: nat) {
    forall i :: 0 <= i < |parts| ==> ParseTerm(parts[i], min, max).GoodTerm?
  }

  /** Some term marks `w`. */
  predicate Marked(parts: seq<string>, min: nat, max: nat, w: nat)
    requires GoodTerms(parts, min, max) && Small(max)
  {
    exists i :: 0 <= i < |parts| && TermVisits(ParseTerm(parts[i], min, max).term, w)
  }

  /** What parsing a field comes to: the set of marked values, an error, or a value marked below the domain. */
  ghost predicate ParsesTo(spec: string, min: nat, max: nat, r: ParsedField)
    requires min <= max && Small(max)
  {
    var parts := SplitOn(spec, ',');
    match r
    case Rejected(_) => !GoodTerms(parts, min, max)
    case OutOfBounds => GoodTerms(parts, min, max) ==> exists w: nat :: w < min && Marked(parts, min, max, w)
    case Parsed(field) =>
      && GoodTerms(parts, min, max) && field.base == min && |field.allowed| == max - min + 1
      && forall w: nat :: field.Contains(w) <==> Marked(parts, min, max, w)
  }

  method ParseField(spec: string, min: nat, max: nat) returns (r: ParsedField)
    requires min <= max && Small(max)
    ensures ParsesTo(spec, min, max, r)
  {
    var parts := SplitOn(spec, ',');
    var field := FieldSet(seq(max - min + 1, _ => false), min);
    var i := 0;
    while i < |parts|
      invariant i <= |parts| && field.base == min && |field.allowed| == max - min + 1
      invariant GoodTerms(parts[..i], min, max)
      invariant forall w: nat :: field.Contains(w) <==> Marked(parts[..i], min, max, w)
    {
      var term := ParseTerm(parts[i], min, max);
      if term.BadTerm? {
        return Rejected(term.error);
      }
      MarkedSnoc(parts, i, min, max);
      var marked, inBounds := MarkTerm(field, max, term.term);
      if !inBounds {
        OneOutIsOut(parts, i, min, max);
        return OutOfBounds;
      }
      field := marked;
      i := i + 1;
    }
    assert parts[..i] == parts;
    r := Parsed(field);
  }

  lemma OneOutIsOut(parts: seq<string>, i: nat, min: nat, max: nat)
    requires i < |parts| && ParseTerm(parts[i], min, max).GoodTerm? && Small(max)
    requires exists w: nat :: TermVisits(ParseTerm(parts[i], min, max).term, w) && w < min
    ensures GoodTerms(parts, min, max) ==> exists w: nat :: w < min && Marked(parts, min, max, w)
  {
    if GoodTerms(parts, min, max) {
      var w: nat :| TermVisits(ParseTerm(parts[i], min, max).term, w) && w < min;
      assert Marked(parts, min, max, w);
    }
  }

  lemma MarkedSnoc(parts: seq<string>, i: nat, min: nat, max: nat)
    requires i < |parts| && GoodTerms(parts[..i], min, max) && ParseTerm(parts[i], min, max).GoodTerm? && Small(max)
    ensures GoodTerms(parts[..i + 1], min, max)
    ensures forall w: nat :: Marked(parts[..i + 1], min, max, w)
              <==> Marked(parts[..i], min, max, w) || TermVisits(ParseTerm(parts[i], min, max).term, w)
  {
    var front, all := parts[..i], parts[..i + 1];
    assert all == front + [parts[i]];
    forall w: nat
      ensures Marked(all, min, max, w)
              <==> Marked(front, min, max, w) || TermVisits(ParseTerm(parts[i], min, max).term, w)
    {
      if Marked(front, min, max, w) {
        var k :| 0 <= k < |front| && TermVisits(ParseTerm(front[k], min, max).term, w);
        assert all[k] == front[k];
      }
      assert all[i] == parts[i];
    }
  }

  /** The union of the stepped ranges of a field's terms. */
  predicate Denotes(parts: seq<string>, min: nat, max: nat, w: nat)
    requires GoodTerms(parts, min, max)
  {
    exists i :: 0 <= i < |parts| && InTerm(ParseTerm(parts[i], min, max).term, w)
  }

  predicate InTerm(t: Term, w: nat)
    requires t.step > 0
  {
    InRange(t.lo, t.hi, t.step, w)
  }

  /** No step of the field overflows 32 bits. */
  predicate NoOverflow(parts: seq<string>, min: nat, max: nat)
    requires GoodTerms(parts, min, max)
  {
    forall i :: 0 <= i < |parts| ==> var t := ParseTerm(parts[i], min, max).term; t.lo + t.step < TWO_32
  }

  /** A field whose steps do not overflow parses, and holds exactly the union of its stepped ranges. */
  lemma FieldDenotes(spec: string, min: nat, max: nat, r: ParsedField)
    requires min <= max && Small(max) && ParsesTo(spec, min, max, r)
    requires GoodTerms(SplitOn(spec, ','), min, max) && NoOverflow(SplitOn(spec, ','), min, max)
    ensures r.Parsed? && forall w: nat :: r.field.Contains(w) <==> Denotes(SplitOn(spec, ','), min, max, w)
  {
    var parts := SplitOn(spec, ',');
    forall w: nat
      ensures Marked(parts, min, max, w) <==> Denotes(parts, min, max, w)
    {
      forall i | 0 <= i < |parts|
        ensures TermVisits(ParseTerm(parts[i], min, max).term, w) <==> InTerm(ParseTerm(parts[i], min, max).term, w)
      {
        var t := ParseTerm(parts[i], min, max).term;
        VisitsBelowWrap(t.lo, t.hi, t.step, w);
      }
    }
    forall w: nat | Denotes(parts, min, max, w)
      ensures min <= w
    {
      var i :| 0 <= i < |parts| && InTerm(ParseTerm(parts[i], min, max).term, w);
    }
  }

  /** 7 as well as 0 is Sunday. */
  predicate Folded(raw: FieldSet, w: nat) {
    w < 7 && (raw.Contains(w) || (w == 0 && raw.Contains(7)))
  }

  predicate FoldedUpTo(raw: FieldSet, v: nat, w: nat) {
    (w < v && raw.Contains(w)) || (w == 0 && v == 8 && raw.Contains(7))
  }

  lemma FoldStep(raw: FieldSet, v: nat)
    requires v <= 7
    ensures forall w: nat :: w < 7 ==>
              (FoldedUpTo(raw, v + 1, w) <==> FoldedUpTo(raw, v, w) || (raw.Contains(v) && w == v % 7))
  {
  }

  lemma FoldedAll(raw: FieldSet)
    ensures forall w: nat :: w < 7 ==> (FoldedUpTo(raw, 8, w) <==> Folded(raw, w))
  {
  }

  /** Day of week: 0 to 7 as written, folded so that 7 is Sunday again. */
  method ParseDow(spec: string) returns (r: ParsedField, raw: ParsedField)
    ensures ParsesTo(spec, 0, 7, raw)
    ensures r.Parsed? <==> raw.Parsed?
    ensures r.Parsed? ==> forall w: nat :: r.field.Contains(w) <==> Folded(raw.field, w)
  {
    raw := ParseField(spec, 0, 7);
    if !raw.Parsed? {
      return raw, raw;
    }
    var allowed := seq(7, _ => false);
    var v: nat := 0;
    while v <= 7
      invariant 0 <= v <= 8 && |allowed| == 7
      invariant forall w :: 0 <= w < 7 ==> (allowed[w] <==> FoldedUpTo(raw.field, v, w))
    {
      FoldStep(raw.field, v);
      if raw.field.Contains(v) {
        allowed := allowed[v % 7 := true];
      }
      v := v + 1;
    }
    FoldedAll(raw.field);
    r := Parsed(FieldSet(allowed, 0));
  }

  // ---- matching and searching ----

  datatype Cron = Expr(minute: FieldSet, hour: FieldSet, dom: FieldSet, month: FieldSet, dow: FieldSet,
                       domRestricted: bool, dowRestricted: bool)

  datatype ParsedCron = GoodCron(cron: Cron) | FieldCount | BadField(error: TermError) | Panics

  /** The five fields hold what their texts parse to; a day field is restricted unless it is written `*`. */
  ghost predicate Compiled(fields: seq<string>, c: Cron, rawDow: FieldSet)
    requires |fields| == 5
  {
    && ParsesTo(fields[0], 0, 59, Parsed(c.minute)) && ParsesTo(fields[1], 0, 23, Parsed(c.hour))
    && ParsesTo(fields[2], 1, 31, Parsed(c.dom)) && ParsesTo(fields[3], 1, 12, Parsed(c.month))
    && ParsesTo(fields[4], 0, 7, Parsed(rawDow)) && (forall w: nat :: c.dow.Contains(w) <==> Folded(rawDow, w))
    && c.domRestricted == (fields[2] != "*") && c.dowRestricted == (fields[4] != "*")
  }

  function Refusal(r: ParsedField): ParsedCron
    requires !r.Parsed?
  {
    if r.Rejected? then BadField(r.error) else Panics
  }

  /** Every term is well-formed and no step overflows 32 bits. */
  predicate Clean(spec: string, min: nat, max: nat) {
    GoodTerms(SplitOn(spec, ','), min, max) && NoOverflow(SplitOn(spec, ','), min, max)
  }

  predicate AllClean(fields: seq<string>)
    requires |fields| == 5
  {
    && Clean(fields[0], 0, 59) && Clean(fields[1], 0, 23) && Clean(fields[2], 1, 31) && Clean(fields[3], 1, 12)
    && Clean(fields[4], 0, 7)
  }

  lemma CleanParses(spec: string, min: nat, max: nat, r: ParsedField)
    requires min <= max && Small(max) && ParsesTo(spec, min, max, r)
    ensures Clean(spec, min, max) ==> r.Parsed?
  {
    if Clean(spec, min, max) {
      FieldDenotes(spec, min, max, r);
    }
  }

  /** `Cron::parse` on the white-space separated fields. */
  method ParseCron(fields: seq<string>) returns (r: ParsedCron)
    ensures r == FieldCount <==> |fields| != 5
    ensures |fields| == 5 && AllClean(fields) ==> r.GoodCron?
    ensures r.GoodCron? ==> exists rawDow :: Compiled(fields, r.cron, rawDow)
  {
    if |fields| != 5 {
      return FieldCount;
    }
    var minute := ParseField(fields[0], 0, 59);
    CleanParses(fields[0], 0, 59, minute);
    if !minute.Parsed? {
      return Refusal(minute);
    }
    var hour := ParseField(fields[1], 0, 23);
    CleanParses(fields[1], 0, 23, hour);
    if !hour.Parsed? {
      return Refusal(hour);
    }
    var dom := ParseField(fields[2], 1, 31);
    CleanParses(fields[2], 1, 31, dom);
    if !dom.Parsed? {
      return Refusal(dom);
    }
    var month := ParseField(fields[3], 1, 12);
    CleanParses(fields[3], 1, 12, month);
    if !month.Parsed? {
      return Refusal(month);
    }
    var dow, raw := ParseDow(fields[4]);
    CleanParses(fields[4], 0, 7, raw);
    if !dow.Parsed? {
      return Refusal(dow);
    }
    r := GoodCron(Expr(minute.field, hour.field, dom.field, month.field, dow.field, fields[2] != "*",
                       fields[4] != "*"));
    assert Compiled(fields, r.cron, raw.field);
  }

  /** When both day fields are restricted either one is enough, otherwise both must hold. */
  predicate DayMatches(c: Cron, dom: nat, dow: nat) {
    if c.domRestricted && c.dowRestricted then c.dom.Contains(dom) || c.dow.Contains(dow)
    else c.dom.Contains(dom) && c.dow.Contains(dow)
  }

  predicate Matches(c: Cron, hour: nat, minute: nat, dom: nat, month: nat, dow: nat) {
    c.minute.Contains(minute) && c.hour.Contains(hour) && c.month.Contains(month) && DayMatches(c, dom, dow)
  }

  /** Minutes of local time since the start of year 1. */
  predicate MatchesAt(c: Cron, minutes: nat) {
    var day := minutes / 1440;
    Matches(c, minutes % 1440 / 60, minutes % 60, DateOf(day).day, DateOf(day).month, Weekday(day))
  }

  const MAX_MINUTES: nat := 4 * 366 * 24 * 60

  /** Milliseconds of UTC since the start of year 1, from local minutes at a constant offset of whole minutes. */
  function Instant(minutes: int, offset: int): int {
    (minutes - offset) * 60000
  }

  /** `m` matches, lies strictly after `after`, and no earlier minute after it matches. */
  ghost predicate FirstMatch(c: Cron, after: int, offset: int, m: nat) {
    && Instant(m, offset) > after && MatchesAt(c, m)
    && forall k: nat :: Instant(k, offset) > after && k < m ==> !MatchesAt(c, k)
  }

  /** None of the next `MAX_MINUTES` minutes matches. */
  ghost predicate NoMatchSoon(c: Cron, after: int, offset: int) {
    forall k: nat :: after < Instant(k, offset) <= after + MAX_MINUTES * 60000 ==> !MatchesAt(c, k)
  }

  /** The least matching minute strictly after `after`; none exactly when the next `MAX_MINUTES` hold no match. */
  method NextAfter(c: Cron, after: int, offset: int) returns (next: Option<int>)
    requires after + offset * 60000 >= 0
    ensures next.Some? ==> exists m: nat :: next.value == Instant(m, offset) && FirstMatch(c, after, offset, m)
    ensures next.None? <==> NoMatchSoon(c, after, offset)
    ensures next.Some? ==>
              var was, local := after + offset * 60000, next.value + offset * 60000;
              && was < local <= was + 2_108_160 * 60000 && local % 60000 == 0 && MatchesAt(c, local / 60000)
              && forall k: nat :: was < k * 60000 && k < local / 60000 ==> !MatchesAt(c, k)
    ensures next.None? ==>
              var was := after + offset * 60000;
              forall k: nat :: was < k * 60000 <= was + 2_108_160 * 60000 ==> !MatchesAt(c, k)
  {
    var local := after + offset * 60000;
    var start: nat := local / 60000 + 1;
    var cursor := start;
    var i := 0;
    while i < MAX_MINUTES
      invariant i <= MAX_MINUTES && cursor == start + i
      invariant forall k: nat :: start <= k < cursor ==> !MatchesAt(c, k)
    {
      if MatchesAt(c, cursor) {
        assert FirstMatch(c, after, offset, cursor);
        return Some(Instant(cursor, offset));
      }
      cursor := cursor + 1;
      i := i + 1;
    }
    next := None;
  }

  // ---- what an expression means, by its text ----

  /** Decimal digits, written apart from any parser. */
  function Dec(n: nat): string {
    if n < 10 then [('0' as int + n) as char] else Dec(n / 10) + [('0' as int + n % 10) as char]
  }

  datatype RangeText = Star | Single(n: nat) | Between(a: nat, b: nat)

  datatype TermText = TermText(range: RangeText, every: Option<nat>)

  function RangeWritten(r: RangeText): string {
    match r
    case Star => "*"
    case Single(n) => Dec(n)
    case Between(a, b) => Dec(a) + "-" + Dec(b)
  }

  function TermWritten(t: TermText): string {
    RangeWritten(t.range) + if t.every.None? then "" else "/" + Dec(t.every.value)
  }

  /** The terms of a field, with commas between them. */
  function FieldWritten(ts: seq<TermText>): string
    requires ts != []
  {
    if |ts| == 1 then TermWritten(ts[0]) else TermWritten(ts[0]) + "," + FieldWritten(ts[1..])
  }

  function First(t: TermText, min: nat): nat {
    match t.range
    case Star => min
    case Single(n) => n
    case Between(a, _) => a
  }

  function Last(t: TermText, max: nat): nat {
    match t.range
    case Star => max
    case Single(n) => n
    case Between(_, b) => b
  }

  function Stride(t: TermText): nat {
    if t.every.None? then 1 else t.every.value
  }

  /** The range lies within the field and the step is a positive 32-bit number. */
  predicate Legal(t: TermText, min: nat, max: nat) {
    min <= First(t, min) <= Last(t, max) <= max && 1 <= Stride(t) < 0x1_0000_0000
  }

  /** The value `n` strides behind `first`. */
  function Nth(first: nat, stride: nat, n: nat): nat {
    first + n * stride
  }

  /** `w` is one of the values from the first to the last, at the stride. */
  ghost predicate Includes(t: TermText, min: nat, max: nat, w: nat) {
    w <= Last(t, max) && exists n: nat :: Nth(First(t, min), Stride(t), n) == w
  }

  predicate Plain(s: string) {
    s != "" && forall i :: 0 <= i < |s| ==> '0' <= s[i] <= '9'
  }

  /** A rendered number parses back to itself. */
  lemma {:induction false} DecParses(n: nat)
    ensures Plain(Dec(n)) && DigitsValue(Dec(n)) == Some(n)
    ensures ParseU32(Dec(n)) == if n < 0x1_0000_0000 then Some(n) else None
  {
    var s := Dec(n);
    if n < 10 {
      assert s[..0] == "";
    } else {
      DecParses(n / 10);
      assert s[..|s| - 1] == Dec(n / 10);
    }
  }

  lemma {:induction false} SplitOnceNone(s: string, sep: char)
    requires sep !in s
    ensures SplitOnce(s, sep) == None
  {
    if s != "" {
      SplitOnceNone(s[1..], sep);
    }
  }

  lemma {:induction false} SplitOnceAt(a: string, sep: char, b: string)
    requires sep !in a
    ensures SplitOnce(a + [sep] + b, sep) == Some((a, b))
  {
    var s := a + [sep] + b;
    if a == "" {
      assert s[1..] == b;
    } else {
      assert s[1..] == a[1..] + [sep] + b;
      SplitOnceAt(a[1..], sep, b);
      assert [a[0]] + a[1..] == a;
    }
  }

  lemma PlainHasNo(s: string, c: char)
    requires Plain(s) && !('0' <= c <= '9')
    ensures c !in s
  {
  }

  lemma RangeHasNo(r: RangeText, c: char)
    requires c == '/' || c == ','
    ensures c !in RangeWritten(r) && RangeWritten(r) != ""
  {
    match r
    case Star =>
    case Single(n) =>
      DecParses(n);
      PlainHasNo(Dec(n), c);
    case Between(a, b) =>
      DecParses(a);
      DecParses(b);
      PlainHasNo(Dec(a), c);
      PlainHasNo(Dec(b), c);
  }

  /** What the two ends of a range parse to. */
  lemma RangeParses(r: RangeText)
    ensures var s := RangeWritten(r);
            match r
            case Star => s == "*"
            case Single(n) => s != "*" && SplitOnce(s, '-') == None && ParseU32(s) == ParseU32(Dec(n))
            case Between(a, b) => s != "*" && SplitOnce(s, '-') == Some((Dec(a), Dec(b)))
  {
    match r
    case Star =>
    case Single(n) =>
      DecParses(n);
      PlainHasNo(Dec(n), '-');
      PlainHasNo(Dec(n), '*');
      SplitOnceNone(Dec(n), '-');
    case Between(a, b) =>
      DecParses(a);
      PlainHasNo(Dec(a), '-');
      SplitOnceAt(Dec(a), '-', Dec(b));
      assert Dec(a) + "-" + Dec(b) == Dec(a) + ['-'] + Dec(b);
      assert |Dec(a) + "-" + Dec(b)| >= 2;
  }

  lemma StepParses(t: TermText)
    ensures var pieces := SplitOnce(TermWritten(t), '/');
            && TermWritten(t) != ""
            && pieces == if t.every.None? then None else Some((RangeWritten(t.range), Dec(t.every.value)))
  {
    RangeHasNo(t.range, '/');
    if t.every.None? {
      SplitOnceNone(RangeWritten(t.range), '/');
      assert RangeWritten(t.range) + "" == RangeWritten(t.range);
    } else {
      SplitOnceAt(RangeWritten(t.range), '/', Dec(t.every.value));
      assert TermWritten(t) == RangeWritten(t.range) + ['/'] + Dec(t.every.value);
    }
  }

  /** A term is accepted exactly when it is legal, and then has exactly the ends and the stride it is written with. */
  lemma TermTextMeans(t: TermText, min: nat, max: nat)
    requires max < 0x1_0000_0000
    ensures ParseTerm(TermWritten(t), min, max).GoodTerm? <==> Legal(t, min, max)
    ensures Legal(t, min, max) ==>
              ParseTerm(TermWritten(t), min, max).term == Term(First(t, min), Last(t, max), Stride(t))
  {
    StepParses(t);
    RangeParses(t.range);
    if t.every.Some? {
      DecParses(t.every.value);
    } else {
      assert TermWritten(t) == RangeWritten(t.range);
    }
    match t.range
    case Star =>
    case Single(n) => DecParses(n);
    case Between(a, b) =>
      DecParses(a);
      DecParses(b);
  }

  lemma {:induction false} SplitOnNone(s: string, sep: char)
    requires sep !in s
    ensures SplitOn(s, sep) == [s]
  {
    if s != "" {
      SplitOnNone(s[1..], sep);
      assert [s[0]] + s[1..] == s;
    }
  }

  lemma {:induction false} SplitOnAt(a: string, sep: char, b: string)
    requires sep !in a
    ensures SplitOn(a + [sep] + b, sep) == [a] + SplitOn(b, sep)
  {
    var s := a + [sep] + b;
    if a == "" {
      assert s[1..] == b;
    } else {
      assert s[1..] == a[1..] + [sep] + b;
      SplitOnAt(a[1..], sep, b);
      assert [a[0]] + a[1..] == a;
      assert ([a[1..]] + SplitOn(b, sep))[1..] == SplitOn(b, sep);
    }
  }

  lemma TermHasNoComma(t: TermText)
    ensures ',' !in TermWritten(t)
  {
    RangeHasNo(t.range, ',');
    if t.every.Some? {
      DecParses(t.every.value);
      PlainHasNo(Dec(t.every.value), ',');
    }
  }

  lemma {:induction false} FieldSplits(ts: seq<TermText>)
    requires ts != []
    ensures |SplitOn(FieldWritten(ts), ',')| == |ts|
    ensures forall i :: 0 <= i < |ts| ==> SplitOn(FieldWritten(ts), ',')[i] == TermWritten(ts[i])
  {
    TermHasNoComma(ts[0]);
    if |ts| == 1 {
      SplitOnNone(TermWritten(ts[0]), ',');
    } else {
      FieldSplits(ts[1..]);
      SplitOnAt(TermWritten(ts[0]), ',', FieldWritten(ts[1..]));
      assert FieldWritten(ts) == TermWritten(ts[0]) + [','] + FieldWritten(ts[1..]);
    }
  }

  lemma {:induction false} MultipleIsNth(first: nat, w: nat, step: nat)
    requires step > 0 && first <= w
    ensures Multiple(w - first, step) <==> exists n: nat :: Nth(first, step, n) == w
    decreases w - first
  {
    if w - first >= step {
      MultipleIsNth(first, w - step, step);
      if n: nat :| Nth(first, step, n) == w - step {
        assert Nth(first, step, n + 1) == w;
      }
      if n: nat :| Nth(first, step, n) == w {
        assert n > 0 && Nth(first, step, n - 1) == w - step;
      }
    } else if w == first {
      assert Nth(first, step, 0) == w;
    } else {
      forall n: nat
        ensures Nth(first, step, n) != w
      {
        NthIsFar(first, step, n);
      }
    }
  }

  lemma NthIsFar(first: nat, step: nat, n: nat)
    ensures n > 0 ==> Nth(first, step, n) >= first + step
    ensures Nth(first, step, 0) == first && Nth(first, step, n) >= first
  {
  }

  /** Every term of the field is legal and no first step overflows 32 bits. */
  predicate AllLegal(ts: seq<TermText>, min: nat, max: nat) {
    forall i :: 0 <= i < |ts| ==> Legal(ts[i], min, max) && First(ts[i], min) + Stride(ts[i]) < 0x1_0000_0000
  }

  /** Some term of the field includes `w`. */
  ghost predicate Any(ts: seq<TermText>, min: nat, max: nat, w: nat) {
    exists i :: 0 <= i < |ts| && Includes(ts[i], min, max, w)
  }

  /** A field is refused when a term is not legal; otherwise it parses to exactly what its terms include. */
  lemma FieldTextMeans(ts: seq<TermText>, min: nat, max: nat, r: ParsedField)
    requires ts != [] && min <= max && Small(max) && ParsesTo(FieldWritten(ts), min, max, r)
    ensures AllLegal(ts, min, max) ==> r.Parsed? && forall w: nat :: r.field.Contains(w) <==> Any(ts, min, max, w)
    ensures (exists i :: 0 <= i < |ts| && !Legal(ts[i], min, max)) ==> !r.Parsed?
  {
    var parts := SplitOn(FieldWritten(ts), ',');
    FieldSplits(ts);
    forall i | 0 <= i < |ts|
      ensures ParseTerm(parts[i], min, max).GoodTerm? <==> Legal(ts[i], min, max)
      ensures Legal(ts[i], min, max) ==>
                ParseTerm(parts[i], min, max).term == Term(First(ts[i], min), Last(ts[i], max), Stride(ts[i]))
    {
      TermTextMeans(ts[i], min, max);
    }
    if AllLegal(ts, min, max) {
      FieldDenotes(FieldWritten(ts), min, max, r);
      forall w: nat
        ensures Denotes(parts, min, max, w) <==> Any(ts, min, max, w)
      {
        DenotesAny(ts, parts, min, max, w);
      }
    }
  }

  lemma DenotesAny(ts: seq<TermText>, parts: seq<string>, min: nat, max: nat, w: nat)
    requires |parts| == |ts| && GoodTerms(parts, min, max)
    requires forall i :: 0 <= i < |ts| ==>
               ParseTerm(parts[i], min, max).term == Term(First(ts[i], min), Last(ts[i], max), Stride(ts[i]))
    ensures Denotes(parts, min, max, w) <==> Any(ts, min, max, w)
  {
    forall i | 0 <= i < |ts|
      ensures InTerm(ParseTerm(parts[i], min, max).term, w) <==> Includes(ts[i], min, max, w)
    {
      var t := ParseTerm(parts[i], min, max).term;
      if t.lo <= w {
        MultipleIsNth(t.lo, w, t.step);
      } else {
        forall n: nat
          ensures Nth(t.lo, t.step, n) != w
        {
          NthIsFar(t.lo, t.step, n);
        }
      }
    }
  }

  /** The five fields of an expression. */
  datatype Text = Text(minute: seq<TermText>, hour: seq<TermText>, dom: seq<TermText>, month: seq<TermText>,
                       dow: seq<TermText>)

  predicate Complete(x: Text) {
    x.minute != [] && x.hour != [] && x.dom != [] && x.month != [] && x.dow != []
  }

  function Written(x: Text): seq<string>
    requires Complete(x)
  {
    [FieldWritten(x.minute), FieldWritten(x.hour), FieldWritten(x.dom), FieldWritten(x.month), FieldWritten(x.dow)]
  }

  predicate LegalText(x: Text) {
    && AllLegal(x.minute, 0, 59) && AllLegal(x.hour, 0, 23) && AllLegal(x.dom, 1, 31) && AllLegal(x.month, 1, 12)
    && AllLegal(x.dow, 0, 7)
  }

  const JUST_STAR: seq<TermText> := [TermText(Star, None)]

  /** The weekday is included as written, Sunday also as 7. */
  ghost predicate AnyWeekday(ts: seq<TermText>, w: nat) {
    Any(ts, 0, 7, w) || (w == 0 && Any(ts, 0, 7, 7))
  }

  /** The day counts: both day fields must include it, or either one when neither is a bare star. */
  ghost predicate DayCounts(x: Text, dom: nat, dow: nat) {
    if x.dom == JUST_STAR || x.dow == JUST_STAR then Any(x.dom, 1, 31, dom) && AnyWeekday(x.dow, dow)
    else Any(x.dom, 1, 31, dom) || AnyWeekday(x.dow, dow)
  }

  /** Only a bare star is written `*`. */
  lemma StarIsBare(ts: seq<TermText>)
    requires ts != []
    ensures FieldWritten(ts) == "*" <==> ts == JUST_STAR
  {
    BareTerm(ts[0]);
    assert |"*"| == 1;
  }

  lemma BareTerm(t: TermText)
    ensures |TermWritten(t)| >= 1
    ensures TermWritten(t) == "*" <==> t == TermText(Star, None)
  {
    RangeHasNo(t.range, '/');
    assert |"*"| == 1;
    if t.every.None? {
      assert TermWritten(t) == RangeWritten(t.range);
      RangeParses(t.range);
    } else {
      assert |TermWritten(t)| >= |RangeWritten(t.range)| + 1 >= 2;
    }
  }

  /**
   * The meaning of a legal expression, from its text: it matches a minute exactly when minute, hour and month are
   * included by their fields and the day counts.
   */
  lemma TextMeans(x: Text, c: Cron, raw: FieldSet, k: nat)
    requires Complete(x) && LegalText(x) && Compiled(Written(x), c, raw)
    ensures var date := DateOf(k / 1440);
            MatchesAt(c, k)
            <==> && Any(x.minute, 0, 59, k % 60) && Any(x.hour, 0, 23, k / 60 % 24)
                 && Any(x.month, 1, 12, date.month) && DayCounts(x, date.day, Weekday(k / 1440))
  {
    FieldTextMeans(x.minute, 0, 59, Parsed(c.minute));
    FieldTextMeans(x.hour, 0, 23, Parsed(c.hour));
    FieldTextMeans(x.dom, 1, 31, Parsed(c.dom));
    FieldTextMeans(x.month, 1, 12, Parsed(c.month));
    FieldTextMeans(x.dow, 0, 7, Parsed(raw));
    StarIsBare(x.dom);
    StarIsBare(x.dow);
    HourOfMinute(k);
    DayAgrees(x, c, raw, DateOf(k / 1440).day, Weekday(k / 1440));
  }

  lemma HourOfMinute(k: nat)
    ensures k % 1440 / 60 == k / 60 % 24
  {
  }

  lemma DayAgrees(x: Text, c: Cron, raw: FieldSet, dom: nat, dow: nat)
    requires dow < 7 && c.domRestricted == (x.dom != JUST_STAR) && c.dowRestricted == (x.dow != JUST_STAR)
    requires c.dom.Contains(dom) <==> Any(x.dom, 1, 31, dom)
    requires c.dow.Contains(dow) <==> Folded(raw, dow)
    requires forall w: nat :: raw.Contains(w) <==> Any(x.dow, 0, 7, w)
    ensures DayMatches(c, dom, dow) <==> DayCounts(x, dom, dow)
  {
  }

  // ---- which expressions always fire ----

  /** Every value of the domain is allowed, as after parsing `*`. */
  predicate AllDays(f: FieldSet, first: nat, last: nat) {
    forall v :: first <= v <= last ==> f.Contains(v)
  }

  /** Unless both day fields are restricted, one of them is open. */
  predicate DayRule(c: Cron) {
    (c.domRestricted && c.dowRestricted) || AllDays(c.dom, 1, 31) || AllDays(c.dow, 0, 6)
  }

  predicate TimeAllowed(c: Cron, hour: nat, minute: nat) {
    hour < 24 && minute < 60 && c.hour.Contains(hour) && c.minute.Contains(minute)
  }

  /** A month and day of month are allowed, and the weekday field does not take them back. */
  predicate AllowsDate(c: Cron, m: nat, d: nat) {
    && IsMonth(m) && c.month.Contains(m) && c.dom.Contains(d)
    && ((c.domRestricted && c.dowRestricted) || AllDays(c.dow, 0, 6))
  }

  /** The date exists every year. */
  predicate FiresByDate(c: Cron, m: nat, d: nat) {
    AllowsDate(c, m, d) && 1 <= d <= MonthLen(1, m)
  }

  /** Some allowed month and weekday, with the day of month left open or the either-rule in force. */
  predicate FiresByWeekday(c: Cron, m: nat, w: nat) {
    && IsMonth(m) && c.month.Contains(m) && w < 7 && c.dow.Contains(w)
    && ((c.domRestricted && c.dowRestricted) || AllDays(c.dom, 1, 31))
  }

  /** Something a reader of the expression can see: an allowed time on a date or weekday that comes every year. */
  ghost predicate Recurs(c: Cron) {
    && (exists hour, minute :: TimeAllowed(c, hour, minute))
    && exists m, x :: FiresByDate(c, m, x) || FiresByWeekday(c, m, x)
  }

  /** From every instant the search finds the next match. */
  ghost predicate AlwaysFound(c: Cron) {
    forall after, offset :: after + offset * 60000 >= 0 ==> !NoMatchSoon(c, after, offset)
  }

  lemma {:induction false} StarMarksAll(min: nat, max: nat, w: nat)
    requires min <= w <= max && Small(max)
    ensures GoodTerms(SplitOn("*", ','), min, max) && Marked(SplitOn("*", ','), min, max, w)
  {
    var parts := SplitOn("*", ',');
    assert "*"[1..] == "";
    assert SplitOn("", ',') == [""] && parts[0] == "*" && |parts| == 1;
    assert SplitOnce("", '/') == None && SplitOnce("*", '/') == None;
    assert ParseTerm(parts[0], min, max) == GoodTerm(Term(min, max, 1));
    VisitsRange(min, max, 1, w);
    EveryMultipleOfOne(w - min);
  }

  lemma {:induction false} EveryMultipleOfOne(d: nat)
    ensures Multiple(d, 1)
  {
    if d > 0 {
      EveryMultipleOfOne(d - 1);
    }
  }

  /** Parsed expressions obey the day rule, because a field counts as unrestricted only when it is written `*`. */
  lemma CompiledObeysDayRule(fields: seq<string>, c: Cron, rawDow: FieldSet)
    requires |fields| == 5 && Compiled(fields, c, rawDow)
    ensures DayRule(c)
  {
    if fields[2] == "*" {
      forall v | 1 <= v <= 31
        ensures c.dom.Contains(v)
      {
        StarMarksAll(1, 31, v);
      }
    }
    if fields[4] == "*" {
      forall v | 0 <= v <= 6
        ensures c.dow.Contains(v)
      {
        StarMarksAll(0, 7, v);
        assert rawDow.Contains(v) && Folded(rawDow, v);
      }
    }
  }

  /** A minute on a matching day within two years of `today`. */
  lemma MatchSoon(c: Cron, today: nat, hour: nat, minute: nat, m: nat, x: nat) returns (at: nat)
    requires TimeAllowed(c, hour, minute) && (FiresByDate(c, m, x) || FiresByWeekday(c, m, x))
    ensures (today + 1) * 1440 <= at < (today + 734) * 1440 && MatchesAt(c, at)
  {
    var start := ComesRound(today, m);
    var day;
    if FiresByDate(c, m, x) {
      day := start + x - 1;
    } else {
      day := WeekHasAll(start, x);
      assert DateOf(day).day <= 31;
    }
    assert DateOf(day).month == m && DayMatches(c, DateOf(day).day, Weekday(day));
    at := day * 1440 + hour * 60 + minute;
    MinuteOfDay(day, hour, minute);
  }

  lemma MinuteOfDay(day: nat, hour: nat, minute: nat)
    requires hour < 24 && minute < 60
    ensures var at := day * 1440 + hour * 60 + minute;
            at / 1440 == day && at % 1440 / 60 == hour && at % 60 == minute
  {
  }

  /** A recurring expression is found from every instant. */
  lemma AlwaysFires(c: Cron, after: int, offset: int)
    requires after + offset * 60000 >= 0 && Recurs(c)
    ensures !NoMatchSoon(c, after, offset)
  {
    var hour, minute :| TimeAllowed(c, hour, minute);
    var m, x :| FiresByDate(c, m, x) || FiresByWeekday(c, m, x);
    var local := after + offset * 60000;
    var today: nat := local / 86400000;
    var k := MatchSoon(c, today, hour, minute, m, x);
    assert after < Instant(k, offset) <= after + MAX_MINUTES * 60000;
  }

  /** Whatever matches without recurring is a 29 February. */
  lemma OnlyLeapDays(c: Cron, k: nat)
    requires DayRule(c) && !Recurs(c) && MatchesAt(c, k)
    ensures DateOf(k / 1440).month == 2 && DateOf(k / 1440).day == 29
    ensures AllowsDate(c, 2, 29) && TimeAllowed(c, k % 1440 / 60, k % 60)
  {
    var day := k / 1440;
    var date := DateOf(day);
    DateIsReal(day);
    assert TimeAllowed(c, k % 1440 / 60, k % 60);
    assert !FiresByDate(c, date.month, date.day) && !FiresByWeekday(c, date.month, Weekday(day));
  }

  /** 1 March 2096. */
  const MARCH_2096: nat := 765183 + 60

  /**
   * The search finds a match from every instant if and only if the expression recurs. The window of 1464 days is
   * too short for a leap day across 2100, although it was meant to suffice for any legal expression.
   */
  lemma FoundIffRecurs(c: Cron)
    requires DayRule(c)
    ensures AlwaysFound(c) <==> Recurs(c)
  {
    if Recurs(c) {
      forall after, offset | after + offset * 60000 >= 0
        ensures !NoMatchSoon(c, after, offset)
      {
        AlwaysFires(c, after, offset);
      }
    } else {
      NothingAfterMarch2096(c, 0);
    }
  }

  lemma NothingAfterMarch2096(c: Cron, offset: int)
    requires DayRule(c) && !Recurs(c)
    ensures NoMatchSoon(c, Instant(MARCH_2096 * 1440, offset), offset)
  {
    var after := Instant(MARCH_2096 * 1440, offset);
    forall k: nat | after < Instant(k, offset) <= after + MAX_MINUTES * 60000
      ensures !MatchesAt(c, k)
    {
      if MatchesAt(c, k) {
        OnlyLeapDays(c, k);
        NoLeapDay(k / 1440);
      }
    }
  }

  /**
   * The other expressions fall into two kinds. Those that allow no 29 February never match at all. Those that do
   * match on 29 February only: from 1 March 2096 the search finds nothing, although a later minute, in 2104, matches.
   */
  lemma OthersNeverMatchOrLeap(c: Cron, offset: int)
    requires DayRule(c) && !Recurs(c)
    ensures (forall k: nat :: !MatchesAt(c, k))
            <==> !(AllowsDate(c, 2, 29) && exists hour, minute :: TimeAllowed(c, hour, minute))
    ensures (exists k: nat :: MatchesAt(c, k)) ==>
              && NoMatchSoon(c, Instant(MARCH_2096 * 1440, offset), offset)
              && exists k: nat :: k > MARCH_2096 * 1440 && MatchesAt(c, k)
  {
    NothingAfterMarch2096(c, offset);
    if k: nat :| MatchesAt(c, k) {
      OnlyLeapDays(c, k);
    }
    if hour, minute :| TimeAllowed(c, hour, minute) && AllowsDate(c, 2, 29) {
      var day := LeapDay2104();
      var k := day * 1440 + hour * 60 + minute;
      MinuteOfDay(day, hour, minute);
      assert DayMatches(c, 29, Weekday(day));
      assert k > MARCH_2096 * 1440 && MatchesAt(c, k);
    }
  }

  lemma LeapDay2104() returns (day: nat)
    ensures day > MARCH_2096 && DateOf(day) == Date(2104, 2, 29)
  {
    DayOfYear(2103, 2, 29);
    SpanClosed(2103);
    day := Span(1, 2103) + MonthSpan(2104, 1, 2) + 28;
  }

  lemma NoLeapDay(day: nat)
    requires MARCH_2096 <= day <= MARCH_2096 + 1464
    ensures !(DateOf(day).month == 2 && DateOf(day).day == 29)
  {
    var n, k := YearOfDay(day, 1);
    YearBounds(n, k);
    DateInYearAfter(1, n, k);
    LeapDayIsDay59(k, 1 + n);
  }

  /** In that window lie the end of 2096 and four common years. */
  lemma YearBounds(n: nat, k: nat)
    requires MARCH_2096 <= Span(1, n) + k <= MARCH_2096 + 1464 && k < YearLen(1 + n)
    ensures n == 2095 ==> k >= 60
    ensures n != 2095 ==> 2096 <= n <= 2099 && !Leap(1 + n)
  {
    SpanClosed(2095);
    SpanClosed(2100);
    assert Span(1, 2095) == 765183 && Span(1, 2100) == 767009;
    if n < 2095 {
      SpanGrows(n + 1, 2095);
      SpanSnoc(1, n);
    } else if n > 2099 {
      SpanGrows(2100, n);
    }
  }

  lemma {:induction false} SpanGrows(n: nat, m: nat)
    requires n <= m
    ensures Span(1, n) <= Span(1, m)
  {
    if n < m {
      SpanGrows(n, m - 1);
      SpanSnoc(1, m - 1);
    }
  }
}
