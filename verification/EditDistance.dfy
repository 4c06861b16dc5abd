/** The two-row edit distance behind "did you mean", and the nearest known key. */
module EditDistance {
  import opened Rows

  function Least(x: nat, y: nat, z: nat): (m: nat)
    ensures m <= x && m <= y && m <= z && (m == x || m == y || m == z)
  {
    if x <= y && x <= z then x else if y <= z then y else z
  }

  function Mismatch(c: char, d: char): nat {
    if c == d then 0 else 1
  }

  /** The edit distance of the first `i` characters of `a` and the first `j` of `b`. */
  function Between(a: string, i: nat, b: string, j: nat): nat
    requires i <= |a| && j <= |b|
    decreases i + j, 1
  {
    if i == 0 then j else if j == 0 then i else Inner(a, i, b, j)
  }

  /** The recurrence: drop the last character of `a`, or of `b`, or pair them up. */
  function Inner(a: string, i: nat, b: string, j: nat): nat
    requires 0 < i <= |a| && 0 < j <= |b|
    decreases i + j, 0
  {
    Least(Between(a, i - 1, b, j) + 1, Between(a, i, b, j - 1) + 1,
          Between(a, i - 1, b, j - 1) + Mismatch(a[i - 1], b[j - 1]))
  }

  function Distance(a: string, b: string): nat {
    Between(a, |a|, b, |b|)
  }

  // ---- the two-row loop ----

  method Levenshtein(a: string, b: string) returns (d: nat)
    ensures d == Distance(a, b)
  {
    var prev := new nat[|b| + 1](j => j);
    var cur := new nat[|b| + 1](_ => 0);
    var i := 0;
    while i < |a|
      invariant i <= |a| && prev != cur && prev.Length == cur.Length == |b| + 1
      invariant fresh(prev) && fresh(cur)
      invariant forall j :: 0 <= j <= |b| ==> prev[j] == Between(a, i, b, j)
    {
      cur[0] := i + 1;
      var j := 0;
      while j < |b|
        invariant j <= |b|
        invariant forall k :: 0 <= k <= |b| ==> prev[k] == Between(a, i, b, k)
        invariant forall k :: 0 <= k <= j ==> cur[k] == Between(a, i + 1, b, k)
      {
        cur[j + 1] := Least(prev[j + 1] + 1, cur[j] + 1, prev[j] + Mismatch(a[i], b[j]));
        j := j + 1;
      }
      prev, cur := cur, prev;
      i := i + 1;
    }
    d := prev[|b|];
  }

  // ---- what the distance is: the cheapest edit script ----

  datatype Edit = Keep(c: char) | Replace(from: char, to: char) | Delete(c: char) | Insert(c: char)

  datatype Script = Empty | Then(before: Script, edit: Edit)

  function Source(s: Script): string {
    match s
    case Empty => ""
    case Then(before, Keep(c)) => Source(before) + [c]
    case Then(before, Replace(c, _)) => Source(before) + [c]
    case Then(before, Delete(c)) => Source(before) + [c]
    case Then(before, Insert(_)) => Source(before)
  }

  function Target(s: Script): string {
    match s
    case Empty => ""
    case Then(before, Keep(c)) => Target(before) + [c]
    case Then(before, Replace(_, c)) => Target(before) + [c]
    case Then(before, Delete(_)) => Target(before)
    case Then(before, Insert(c)) => Target(before) + [c]
  }

  /** How many single-character edits the script makes. */
  function Cost(s: Script): nat {
    match s
    case Empty => 0
    case Then(before, edit) => Cost(before) + if edit.Keep? then 0 else 1
  }

  lemma {:induction false} NoScriptIsCheaper(s: Script, a: string, i: nat, b: string, j: nat)
    requires i <= |a| && j <= |b| && Source(s) == a[..i] && Target(s) == b[..j]
    ensures Between(a, i, b, j) <= Cost(s)
  {
    match s
    case Empty =>
    case Then(before, edit) =>
      if !edit.Insert? {
        assert Source(before) == Source(s)[..i - 1] == a[..i - 1];
      }
      if !edit.Delete? {
        assert Target(before) == Target(s)[..j - 1] == b[..j - 1];
      }
      if edit.Delete? {
        NoScriptIsCheaper(before, a, i - 1, b, j);
      } else if edit.Insert? {
        NoScriptIsCheaper(before, a, i, b, j - 1);
      } else {
        NoScriptIsCheaper(before, a, i - 1, b, j - 1);
      }
  }

  lemma {:induction false} SomeScriptCostsThat(a: string, i: nat, b: string, j: nat) returns (s: Script)
    requires i <= |a| && j <= |b|
    ensures Source(s) == a[..i] && Target(s) == b[..j] && Cost(s) == Between(a, i, b, j)
    decreases i + j
  {
    if i == 0 && j == 0 {
      s := Empty;
    } else if j == 0 || (i > 0 && Between(a, i, b, j) == Between(a, i - 1, b, j) + 1) {
      s := SomeScriptCostsThat(a, i - 1, b, j);
      s := Then(s, Delete(a[i - 1]));
    } else if i == 0 || Between(a, i, b, j) == Between(a, i, b, j - 1) + 1 {
      s := SomeScriptCostsThat(a, i, b, j - 1);
      s := Then(s, Insert(b[j - 1]));
    } else {
      s := SomeScriptCostsThat(a, i - 1, b, j - 1);
      s := Then(s, if a[i - 1] == b[j - 1] then Keep(a[i - 1]) else Replace(a[i - 1], b[j - 1]));
    }
  }

  /** `Distance(a, b)` is the least cost of any script that turns `a` into `b`. */
  lemma DistanceIsLeastCost(a: string, b: string) returns (best: Script)
    ensures Source(best) == a && Target(best) == b && Cost(best) == Distance(a, b)
    ensures forall s :: Source(s) == a && Target(s) == b ==> Distance(a, b) <= Cost(s)
  {
    assert a[..|a|] == a && b[..|b|] == b;
    best := SomeScriptCostsThat(a, |a|, b, |b|);
    forall s | Source(s) == a && Target(s) == b
      ensures Distance(a, b) <= Cost(s)
    {
      NoScriptIsCheaper(s, a, |a|, b, |b|);
    }
  }

  // ---- a metric ----

  lemma {:induction false} BetweenIsSymmetric(a: string, i: nat, b: string, j: nat)
    requires i <= |a| && j <= |b|
    ensures Between(a, i, b, j) == Between(b, j, a, i)
    decreases i + j
  {
    if i > 0 && j > 0 {
      BetweenIsSymmetric(a, i - 1, b, j);
      BetweenIsSymmetric(a, i, b, j - 1);
      BetweenIsSymmetric(a, i - 1, b, j - 1);
    }
  }

  /** The distance bounds the difference in length, and never exceeds the sum of lengths. */
  lemma {:induction false} LengthBounds(a: string, i: nat, b: string, j: nat)
    requires i <= |a| && j <= |b|
    ensures i <= j + Between(a, i, b, j) && j <= i + Between(a, i, b, j) && Between(a, i, b, j) <= i + j
    decreases i + j
  {
    if i > 0 && j > 0 {
      LengthBounds(a, i - 1, b, j);
      LengthBounds(a, i, b, j - 1);
      LengthBounds(a, i - 1, b, j - 1);
    }
  }

  lemma {:induction false} ZeroIffEqualPrefixes(a: string, i: nat, b: string, j: nat)
    requires i <= |a| && j <= |b|
    ensures Between(a, i, b, j) == 0 <==> a[..i] == b[..j]
    decreases i + j
  {
    LengthBounds(a, i, b, j);
    if i > 0 && j > 0 {
      ZeroIffEqualPrefixes(a, i - 1, b, j - 1);
      assert a[..i] == a[..i - 1] + [a[i - 1]] && b[..j] == b[..j - 1] + [b[j - 1]];
    }
  }

  lemma {:induction false} TriangleOfPrefixes(a: string, i: nat, b: string, j: nat, c: string, k: nat)
    requires i <= |a| && j <= |b| && k <= |c|
    ensures Between(a, i, c, k) <= Between(a, i, b, j) + Between(b, j, c, k)
    decreases i + j + k
  {
    LengthBounds(a, i, b, j);
    LengthBounds(b, j, c, k);
    LengthBounds(a, i, c, k);
    if i > 0 && j > 0 && k > 0 {
      if Between(a, i, b, j) == Between(a, i - 1, b, j) + 1 {
        TriangleOfPrefixes(a, i - 1, b, j, c, k);
      } else if Between(b, j, c, k) == Between(b, j, c, k - 1) + 1 {
        TriangleOfPrefixes(a, i, b, j, c, k - 1);
      } else if Between(a, i, b, j) == Between(a, i, b, j - 1) + 1 {
        TriangleOfPrefixes(a, i, b, j - 1, c, k);
        TriangleOfPrefixes(a, i, b, j - 1, c, k - 1);
      } else {
        TriangleOfPrefixes(a, i - 1, b, j - 1, c, k);
        TriangleOfPrefixes(a, i - 1, b, j - 1, c, k - 1);
      }
    }
  }

  lemma DistanceIsMetric(a: string, b: string, c: string)
    ensures Distance(a, b) == 0 <==> a == b
    ensures Distance(a, b) == Distance(b, a)
    ensures Distance(a, c) <= Distance(a, b) + Distance(b, c)
  {
    ZeroIffEqualPrefixes(a, |a|, b, |b|);
    assert a[..|a|] == a && b[..|b|] == b;
    BetweenIsSymmetric(a, |a|, b, |b|);
    TriangleOfPrefixes(a, |a|, b, |b|, c, |c|);
  }

  // ---- the nearest key ----

  const MAX_SUGGESTION: nat := 2

  /** The first of the closest keys, if it is close enough to suggest. */
  ghost predicate IsNearest(key: string, known: seq<string>, i: nat) {
    && i < |known| && Distance(key, known[i]) <= MAX_SUGGESTION
    && (forall j :: 0 <= j < |known| ==> Distance(key, known[i]) <= Distance(key, known[j]))
    && forall j :: 0 <= j < i ==> Distance(key, known[i]) < Distance(key, known[j])
  }

  /** The first of the closest known keys within the limit, and nothing exactly when all are farther. */
  method NearestKey(key: string, known: seq<string>) returns (r: Option<string>)
    ensures r.None? <==> forall i :: 0 <= i < |known| ==> Distance(key, known[i]) > 2
    ensures r.Some? ==>
              && r.value in known && Distance(key, r.value) <= 2
              && forall k :: k in known ==> Distance(key, r.value) <= Distance(key, k)
    ensures r.Some? ==> exists i: nat :: IsNearest(key, known, i) && known[i] == r.value
  {
    r := None;
    var least := MAX_SUGGESTION + 1;
    ghost var at := 0;
    var i := 0;
    while i < |known|
      invariant i <= |known| && (r.None? <==> least == MAX_SUGGESTION + 1) && least <= MAX_SUGGESTION + 1
      invariant forall j :: 0 <= j < i ==> Distance(key, known[j]) >= least
      invariant r.Some? ==> 0 <= at < i && known[at] == r.value && Distance(key, known[at]) == least
      invariant r.Some? ==> forall j :: 0 <= j < at ==> least < Distance(key, known[j])
    {
      var d := Levenshtein(key, known[i]);
      if d <= MAX_SUGGESTION && d < least {
        r, least, at := Some(known[i]), d, i;
      }
      i := i + 1;
    }
    assert r.Some? ==> IsNearest(key, known, at);
  }
}
