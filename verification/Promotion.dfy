/**
 * The greedy two-level admission of `promote_queued`, on the providers of the queue in FIFO order.
 */
module Promotion {

  datatype Limits = Limits(globalMax: nat, caps: map<string, nat>) {
    /** The cap of one provider; an unlisted provider is only bounded by the global maximum. */
    function CapOf(p: string): nat {
      if p in caps then caps[p] else globalMax
    }
  }

  function UsedOf(used: map<string, nat>, p: string): nat {
    if p in used then used[p] else 0
  }

  function Bump(used: map<string, nat>, p: string): map<string, nat> {
    used[p := UsedOf(used, p) + 1]
  }

  predicate Admits(g: nat, used: map<string, nat>, lim: Limits, p: string) {
    g < lim.globalMax && UsedOf(used, p) < lim.CapOf(p)
  }

  /** Which queue entries are promoted: take each one that both limits still admit. */
  function Greedy(ps: seq<string>, g: nat, used: map<string, nat>, lim: Limits): (mask: seq<bool>)
    ensures |mask| == |ps|
  {
    if ps == [] then []
    else if Admits(g, used, lim, ps[0]) then [true] + Greedy(ps[1..], g + 1, Bump(used, ps[0]), lim)
    else [false] + Greedy(ps[1..], g, used, lim)
  }

  function Count(mask: seq<bool>): nat {
    if mask == [] then 0 else (if mask[0] then 1 else 0) + Count(mask[1..])
  }

  /** How many selected entries belong to provider `p`. */
  function CountFor(ps: seq<string>, mask: seq<bool>, p: string): nat
    requires |mask| == |ps|
  {
    if ps == [] then 0
    else (if mask[0] && ps[0] == p then 1 else 0) + CountFor(ps[1..], mask[1..], p)
  }

  /** A selection that overruns no limit it contributes to. */
  ghost predicate Feasible(ps: seq<string>, mask: seq<bool>, g: nat, used: map<string, nat>, lim: Limits) {
    && |mask| == |ps|
    && (Count(mask) > 0 ==> g + Count(mask) <= lim.globalMax)
    && forall p :: CountFor(ps, mask, p) > 0 ==> UsedOf(used, p) + CountFor(ps, mask, p) <= lim.CapOf(p)
  }

  lemma {:induction false} FullTakesNone(ps: seq<string>, g: nat, used: map<string, nat>, lim: Limits)
    requires g >= lim.globalMax
    ensures Count(Greedy(ps, g, used, lim)) == 0
  {
    if ps != [] {
      FullTakesNone(ps[1..], g, used, lim);
    }
  }

  /** Spending one more slot costs the greedy choice at most one promotion. */
  lemma {:induction false} OneSlotCostsOne(ps: seq<string>, g: nat, used: map<string, nat>, lim: Limits, p: string)
    ensures Count(Greedy(ps, g, used, lim)) <= 1 + Count(Greedy(ps, g + 1, Bump(used, p), lim))
  {
    if ps == [] {
    } else if !Admits(g, used, lim, ps[0]) {
      OneSlotCostsOne(ps[1..], g, used, lim, p);
    } else if g + 1 >= lim.globalMax {
      FullTakesNone(ps[1..], g + 1, Bump(used, ps[0]), lim);
    } else if !Admits(g + 1, Bump(used, p), lim, ps[0]) {
      assert ps[0] == p;
    } else {
      OneSlotCostsOne(ps[1..], g + 1, Bump(used, ps[0]), lim, p);
      assert Bump(Bump(used, ps[0]), p) == Bump(Bump(used, p), ps[0]);
    }
  }

  /** No feasible selection promotes more agents than the greedy one. */
  lemma {:induction false} GreedyIsMaximum(ps: seq<string>, mask: seq<bool>, g: nat, used: map<string, nat>,
                                           lim: Limits)
    requires Feasible(ps, mask, g, used, lim)
    ensures Count(mask) <= Count(Greedy(ps, g, used, lim))
  {
    if ps != [] {
      var p, rest := ps[0], mask[1..];
      if mask[0] {
        assert CountFor(ps, mask, p) >= 1;
        var used' := Bump(used, p);
        forall q | CountFor(ps[1..], rest, q) > 0
          ensures UsedOf(used', q) + CountFor(ps[1..], rest, q) <= lim.CapOf(q)
        {
          assert CountFor(ps, mask, q) == (if q == p then 1 else 0) + CountFor(ps[1..], rest, q);
        }
        GreedyIsMaximum(ps[1..], rest, g + 1, used', lim);
      } else {
        forall q
          ensures CountFor(ps, mask, q) == CountFor(ps[1..], rest, q)
        {
        }
        GreedyIsMaximum(ps[1..], rest, g, used, lim);
        if Admits(g, used, lim, p) {
          OneSlotCostsOne(ps[1..], g, used, lim, p);
        }
      }
    }
  }

  lemma {:induction false} GreedyIsFeasible(ps: seq<string>, g: nat, used: map<string, nat>, lim: Limits)
    ensures Feasible(ps, Greedy(ps, g, used, lim), g, used, lim)
  {
    if ps != [] {
      var mask := Greedy(ps, g, used, lim);
      if mask[0] {
        GreedyIsFeasible(ps[1..], g + 1, Bump(used, ps[0]), lim);
        var rest := Greedy(ps[1..], g + 1, Bump(used, ps[0]), lim);
        assert mask[1..] == rest;
        forall p | CountFor(ps, mask, p) > 0
          ensures UsedOf(used, p) + CountFor(ps, mask, p) <= lim.CapOf(p)
        {
          assert CountFor(ps, mask, p) == (if p == ps[0] then 1 else 0) + CountFor(ps[1..], rest, p);
        }
      } else {
        GreedyIsFeasible(ps[1..], g, used, lim);
        var rest := Greedy(ps[1..], g, used, lim);
        assert mask[1..] == rest;
        forall p
          ensures CountFor(ps, mask, p) == CountFor(ps[1..], rest, p)
        {
        }
      }
    }
  }

  /** Once a limit refuses a provider, every later entry of that provider is refused too. */
  lemma {:induction false} RefusedStaysRefused(ps: seq<string>, g: nat, used: map<string, nat>, lim: Limits, p: string,
                                               j: nat)
    requires !Admits(g, used, lim, p) && j < |ps| && ps[j] == p
    ensures !Greedy(ps, g, used, lim)[j]
  {
    if j > 0 {
      if Admits(g, used, lim, ps[0]) {
        RefusedStaysRefused(ps[1..], g + 1, Bump(used, ps[0]), lim, p, j - 1);
      } else {
        RefusedStaysRefused(ps[1..], g, used, lim, p, j - 1);
      }
    }
  }

  /** Within one provider the promoted entries are a prefix of the queue. */
  lemma {:induction false} GreedyIsFifo(ps: seq<string>, g: nat, used: map<string, nat>, lim: Limits, i: nat, j: nat)
    requires i < j < |ps| && ps[i] == ps[j] && Greedy(ps, g, used, lim)[j]
    ensures Greedy(ps, g, used, lim)[i]
  {
    if i == 0 {
      if !Admits(g, used, lim, ps[0]) {
        RefusedStaysRefused(ps, g, used, lim, ps[0], j);
      }
    } else if Admits(g, used, lim, ps[0]) {
      GreedyIsFifo(ps[1..], g + 1, Bump(used, ps[0]), lim, i - 1, j - 1);
    } else {
      GreedyIsFifo(ps[1..], g, used, lim, i - 1, j - 1);
    }
  }

  /** An entry stays queued only when, after the whole pass, its provider or the fleet is full. */
  lemma {:induction false} LeftOnlyWhenFull(ps: seq<string>, g: nat, used: map<string, nat>, lim: Limits, i: nat)
    requires i < |ps| && !Greedy(ps, g, used, lim)[i]
    ensures var mask := Greedy(ps, g, used, lim);
            || g + Count(mask) >= lim.globalMax
            || UsedOf(used, ps[i]) + CountFor(ps, mask, ps[i]) >= lim.CapOf(ps[i])
  {
    var mask := Greedy(ps, g, used, lim);
    if mask[0] {
      assert mask[1..] == Greedy(ps[1..], g + 1, Bump(used, ps[0]), lim);
      LeftOnlyWhenFull(ps[1..], g + 1, Bump(used, ps[0]), lim, i - 1);
    } else if i > 0 {
      assert mask[1..] == Greedy(ps[1..], g, used, lim);
      LeftOnlyWhenFull(ps[1..], g, used, lim, i - 1);
    }
  }
}
