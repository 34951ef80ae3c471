/** The minimum tail over the active consumers: the scalar loop of mpmc_queue.hpp and its properties. */
module TailScan {
  import opened RingIndex

  const MAX_CONSUMERS: nat := 32

  datatype Consumer = Consumer(tail: nat, active: bool)

  function Min(a: nat, b: nat): nat { if b < a then b else a }

  /** The scalar loop's variable mini after the given consumers. */
  function MinOver(cs: seq<Consumer>): nat {
    if cs == [] then INVALID_POS
    else
      var mini := MinOver(cs[..|cs| - 1]);
      var last := cs[|cs| - 1];
      if last.active then Min(mini, last.tail) else mini
  }

  function OrZero(m: nat): nat { if m == INVALID_POS then 0 else m }

  /** What the scalar scan stores: the minimum active tail, or 0 when there is none. */
  function ScalarMin(cs: seq<Consumer>): nat { OrZero(MinOver(cs)) }

  ghost predicate SomeActive(cs: seq<Consumer>) {
    exists c :: 0 <= c < |cs| && cs[c].active
  }

  ghost predicate TailsValid(cs: seq<Consumer>) {
    forall c :: 0 <= c < |cs| ==> cs[c].tail < INVALID_POS
  }

  /** MinOver is the greatest lower bound of the active tails, and is attained when one is active. */
  lemma {:induction false} MinOverBounds(cs: seq<Consumer>)
    ensures MinOver(cs) <= INVALID_POS
    ensures forall c :: 0 <= c < |cs| && cs[c].active ==> MinOver(cs) <= cs[c].tail
    ensures MinOver(cs) == INVALID_POS || exists c :: 0 <= c < |cs| && cs[c].active && cs[c].tail == MinOver(cs)
  {
    if cs != [] {
      var front := cs[..|cs| - 1];
      MinOverBounds(front);
      if MinOver(cs) == MinOver(front) && MinOver(cs) != INVALID_POS {
        var c :| 0 <= c < |front| && front[c].active && front[c].tail == MinOver(front);
        assert cs[c] == front[c];
      }
      forall c | 0 <= c < |cs| && cs[c].active ensures MinOver(cs) <= cs[c].tail {
        if c < |front| { assert front[c] == cs[c]; }
      }
    }
  }

  /** The scan yields the least active tail when there is one, and otherwise 0. */
  lemma ScalarMinMeaning(cs: seq<Consumer>)
    requires TailsValid(cs)
    ensures SomeActive(cs) ==>
              (exists c :: 0 <= c < |cs| && cs[c].active && cs[c].tail == ScalarMin(cs))
              && forall c :: 0 <= c < |cs| && cs[c].active ==> ScalarMin(cs) <= cs[c].tail
    ensures !SomeActive(cs) ==> ScalarMin(cs) == 0
  {
    MinOverBounds(cs);
  }

  // ---------------------------------------------------------------------------------------------
  // The four accumulators
  // ---------------------------------------------------------------------------------------------

  /** What accumulator k holds after the consumers so far: the minimum over every fourth of them. */
  function Lane(cs: seq<Consumer>, k: nat): nat {
    if cs == [] then INVALID_POS
    else
      var mini := Lane(cs[..|cs| - 1], k);
      var last := cs[|cs| - 1];
      if (|cs| - 1) % 4 == k && last.active then Min(mini, last.tail) else mini
  }

  lemma LaneNext(cs: seq<Consumer>, i: nat)
    requires i < |cs|
    ensures forall k :: 0 <= k < 4 ==>
              Lane(cs[..i + 1], k) == if i % 4 == k && cs[i].active then Min(Lane(cs[..i], k), cs[i].tail)
                                      else Lane(cs[..i], k)
  {
    assert cs[..i + 1][..i] == cs[..i];
  }

  /** The four accumulators after the first i consumers. */
  ghost predicate LanesAre(cs: seq<Consumer>, i: nat, min0: nat, min1: nat, min2: nat, min3: nat)
    requires i <= |cs|
  {
    min0 == Lane(cs[..i], 0) && min1 == Lane(cs[..i], 1) && min2 == Lane(cs[..i], 2) && min3 == Lane(cs[..i], 3)
  }

  function Take(m: nat, c: Consumer): nat { if c.active then Min(m, c.tail) else m }

  /** One unrolled iteration. */
  lemma LanesStep(cs: seq<Consumer>, i: nat, min0: nat, min1: nat, min2: nat, min3: nat)
    requires i + 4 <= |cs| && i % 4 == 0 && LanesAre(cs, i, min0, min1, min2, min3)
    ensures LanesAre(cs, i + 4, Take(min0, cs[i]), Take(min1, cs[i + 1]), Take(min2, cs[i + 2]), Take(min3, cs[i + 3]))
  {
    LaneNext(cs, i);
    LaneNext(cs, i + 1);
    LaneNext(cs, i + 2);
    LaneNext(cs, i + 3);
  }

  function Combine(acc: seq<nat>): nat
    requires |acc| == 4
  {
    Min(Min(acc[0], acc[1]), Min(acc[2], acc[3]))
  }

  /** Splitting the scan over four accumulators loses nothing. */
  lemma {:induction false} LanesCombine(cs: seq<Consumer>)
    ensures Combine([Lane(cs, 0), Lane(cs, 1), Lane(cs, 2), Lane(cs, 3)]) == MinOver(cs)
  {
    if cs != [] {
      LanesCombine(cs[..|cs| - 1]);
    }
  }
}
