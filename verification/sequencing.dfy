/**
 * Sequential composition in general: items laid out one after another, each
 * starting where the ones before it have moved a running start, and each
 * contributing a run of entries at its own start.
 */
module Sequencing {

  /** The total advance of `items`. */
  function Sum<C>(items: seq<C>, adv: C -> real): real
  {
    if |items| == 0 then 0.0 else adv(items[0]) + Sum(items[1..], adv)
  }

  /** The contributions of `items` laid out from `start`: item `k` contributes
      `piece(items[k], t)` where `t` is `start` plus the advances before it. */
  function Chain<C, E>(items: seq<C>, start: real, piece: (C, real) -> seq<E>, adv: C -> real): seq<E>
  {
    if |items| == 0 then []
    else piece(items[0], start) + Chain(items[1..], start + adv(items[0]), piece, adv)
  }

  /** Splitting the items at `i`: the prefix from `start`, then the suffix from
      `start` plus the prefix's advance. */
  lemma {:induction false} ChainSplit<C, E>(items: seq<C>, start: real, i: nat, piece: (C, real) -> seq<E>, adv: C -> real)
    requires i <= |items|
    ensures Chain(items, start, piece, adv)
         == Chain(items[..i], start, piece, adv) + Chain(items[i..], start + Sum(items[..i], adv), piece, adv)
    decreases i
  {
    if i == 0 {
      assert items[..0] == [] && items[0..] == items;
    } else {
      var tail := items[1..];
      var s1 := start + adv(items[0]);
      ChainSplit(tail, s1, i - 1, piece, adv);
      assert items[..i][0] == items[0] && items[..i][1..] == tail[..i - 1];
      assert items[i..] == tail[i - 1..];
      var a, b, c := piece(items[0], start), Chain(tail[..i - 1], s1, piece, adv),
        Chain(tail[i - 1..], s1 + Sum(tail[..i - 1], adv), piece, adv);
      assert a + (b + c) == (a + b) + c;
    }
  }

  /** The suffix from item `i` on: item `i` at `start`, then the rest. */
  lemma ChainAt<C, E>(items: seq<C>, i: nat, start: real, piece: (C, real) -> seq<E>, adv: C -> real)
    requires i < |items|
    ensures Chain(items[i..], start, piece, adv)
         == piece(items[i], start) + Chain(items[i + 1..], start + adv(items[i]), piece, adv)
  {
    assert items[i..][0] == items[i] && items[i..][1..] == items[i + 1..];
  }

  /** The advance of the first `i + 1` items: that of the first `i`, plus item `i`'s. */
  lemma {:induction false} SumSnoc<C>(items: seq<C>, i: nat, adv: C -> real)
    requires i < |items|
    ensures Sum(items[..i + 1], adv) == Sum(items[..i], adv) + adv(items[i])
    decreases i
  {
    if i > 0 {
      assert items[..i + 1][1..] == items[1..][..i];
      assert items[..i][1..] == items[1..][..i - 1];
      SumSnoc(items[1..], i - 1, adv);
    }
  }
}
