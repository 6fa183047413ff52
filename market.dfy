/**
 * The market-effects engine: timed percentage effects on every property's
 * stock value, applied once per turn and purged when their counter runs out.
 */
module Market {
  import opened Economy

  datatype EffectKind = Inflation | MarketDrop

  /** An active market effect: its kind, its percentage and the turns it has left. */
  datatype Effect = Effect(kind: EffectKind, amount: int, turnsLeft: int)

  /** The percentage change an effect applies: up for inflation, down for a drop. */
  function SignedPercent(e: Effect): int
  {
    match e.kind
    case Inflation => e.amount
    case MarketDrop => -e.amount
  }

  /**
   * One turn of decay of the effect list: every effect's counter drops by
   * exactly one, the effects whose counter reaches 0 or less are removed,
   * and the survivors keep their order.
   */
  function Decay(es: seq<Effect>): (r: seq<Effect>)
    ensures |r| <= |es|
    ensures forall k :: 0 <= k < |r| ==> r[k].turnsLeft > 0
  {
    if es == [] then []
    else
      var last := es[|es| - 1];
      var next := last.(turnsLeft := last.turnsLeft - 1);
      Decay(es[..|es| - 1]) + (if next.turnsLeft > 0 then [next] else [])
  }

  /** Every survivor of a turn of decay is an effect of the old list with one turn less. */
  lemma {:induction false} DecaySurvivor(es: seq<Effect>, e: Effect)
    requires e in Decay(es)
    ensures e.(turnsLeft := e.turnsLeft + 1) in es
  {
    var init := es[..|es| - 1];
    var last := es[|es| - 1];
    if e in Decay(init) {
      DecaySurvivor(init, e);
      assert e.(turnsLeft := e.turnsLeft + 1) in init;
    } else {
      assert e == last.(turnsLeft := last.turnsLeft - 1);
      assert es[|es| - 1] in es;
    }
  }

  /** Every effect with more than one turn left survives a turn of decay, one turn shorter. */
  lemma {:induction false} DecayKeeps(es: seq<Effect>, e: Effect)
    requires e in es && e.turnsLeft > 1
    ensures e.(turnsLeft := e.turnsLeft - 1) in Decay(es)
  {
    var init := es[..|es| - 1];
    assert es == init + [es[|es| - 1]];
    if e in init {
      DecayKeeps(init, e);
    }
  }

  /** The effect list after n turns of decay. */
  function DecayTurns(es: seq<Effect>, n: nat): seq<Effect>
    decreases n
  {
    if n == 0 then es else DecayTurns(Decay(es), n - 1)
  }

  /** One turn of decay removes every effect with at most one turn left. */
  lemma {:induction false} DecayRemovesLastTurn(es: seq<Effect>)
    requires forall k :: 0 <= k < |es| ==> es[k].turnsLeft <= 1
    ensures Decay(es) == []
  {
    if es != [] {
      DecayRemovesLastTurn(es[..|es| - 1]);
    }
  }

  /** Every effect with at most n turns left (n >= 1) is gone after n turns. */
  lemma {:induction false} EffectsExpire(es: seq<Effect>, n: nat)
    requires n >= 1
    requires forall k :: 0 <= k < |es| ==> es[k].turnsLeft <= n
    decreases n
    ensures DecayTurns(es, n) == []
  {
    var d := Decay(es);
    forall k | 0 <= k < |d|
      ensures d[k].turnsLeft <= n - 1
    {
      DecaySurvivor(es, d[k]);
      var e := d[k].(turnsLeft := d[k].turnsLeft + 1);
      assert e in es;
    }
    if n == 1 {
      DecayRemovesLastTurn(es);
    } else {
      EffectsExpire(d, n - 1);
    }
  }

  /** A stock value after the effects' percentages are applied one after another. */
  function StockAfter(v: int, es: seq<Effect>): int
  {
    if es == [] then v else UpdateStock(StockAfter(v, es[..|es| - 1]), SignedPercent(es[|es| - 1]))
  }

  /** After at least one effect the floor of 10 holds; with inflation only, no stock value at the floor or above falls. */
  lemma {:induction false} StockAfterBounds(v: int, es: seq<Effect>)
    ensures es != [] ==> StockAfter(v, es) >= StockFloor
    ensures v >= StockFloor && (forall k :: 0 <= k < |es| ==> es[k].kind == Inflation && es[k].amount >= 0) ==> StockAfter(v, es) >= v
  {
    if es != [] {
      var init := es[..|es| - 1];
      StockAfterBounds(v, init);
      if v >= StockFloor && (forall k :: 0 <= k < |es| ==> es[k].kind == Inflation && es[k].amount >= 0) {
        assert forall k :: 0 <= k < |init| ==> init[k] == es[k];
        assert StockAfter(v, init) >= v;
        RiseNeverLowers(StockAfter(v, init), SignedPercent(es[|es| - 1]));
      }
    }
  }

  /** No property object appears twice in the list. */
  ghost predicate Distinct(props: seq<Property>)
  {
    forall a, b :: 0 <= a < b < |props| ==> props[a] != props[b]
  }

  /** The list of active market effects (active_market_effects). */
  class MarketEffects {
    var active: seq<Effect>

    constructor ()
      ensures active == []
    {
      active := [];
    }

    /**
     * apply_market_effects: every effect moves every property's stock value
     * by its percentage, then its counter drops by one; expired effects are
     * purged.
     */
    method ApplyMarketEffects(props: seq<Property>)
      requires Distinct(props)
      modifies this`active, (set p: Property | p in props)`stockValue
      ensures active == Decay(old(active))
      ensures forall k :: 0 <= k < |active| ==> active[k].turnsLeft > 0
      ensures forall k :: 0 <= k < |props| ==> props[k].stockValue == StockAfter(old(props[k].stockValue), old(active))
    {
      var es := active;
      var kept: seq<Effect> := [];
      var i := 0;
      while i < |es|
        invariant 0 <= i <= |es|
        invariant kept == Decay(es[..i])
        invariant forall k :: 0 <= k < |props| ==> props[k].stockValue == StockAfter(old(props[k].stockValue), es[..i])
      {
        var e := es[i];
        Shift(props, SignedPercent(e));
        assert es[..i + 1][..i] == es[..i] && es[..i + 1][i] == e;
        var next := e.(turnsLeft := e.turnsLeft - 1);
        if next.turnsLeft > 0 {
          kept := kept + [next];
        }
        i := i + 1;
      }
      assert es[..i] == es;
      active := kept;
    }

    /**
     * The market cards of the chance deck: register a new effect and apply
     * its percentage to every property at once. The percentage and the
     * number of turns are the random draws, taken as inputs.
     */
    method Register(kind: EffectKind, amount: int, turns: int, props: seq<Property>)
      requires Distinct(props)
      requires kind == Inflation ==> 50 <= amount <= 100
      requires kind == MarketDrop ==> 25 <= amount <= 50
      requires 2 <= turns <= 4
      modifies this`active, (set p: Property | p in props)`stockValue
      ensures active == old(active) + [Effect(kind, amount, turns)]
      ensures forall k :: 0 <= k < |props| ==>
        props[k].stockValue == UpdateStock(old(props[k].stockValue), SignedPercent(Effect(kind, amount, turns)))
    {
      var e := Effect(kind, amount, turns);
      active := active + [e];
      Shift(props, SignedPercent(e));
    }
  }

  /** update_stock_value on every property of the list, by the same percentage. */
  method Shift(props: seq<Property>, percent: int)
    requires Distinct(props)
    modifies (set p: Property | p in props)`stockValue
    ensures forall k :: 0 <= k < |props| ==> props[k].stockValue == UpdateStock(old(props[k].stockValue), percent)
  {
    var j := 0;
    while j < |props|
      invariant 0 <= j <= |props|
      invariant forall k :: 0 <= k < j ==> props[k].stockValue == UpdateStock(old(props[k].stockValue), percent)
      invariant forall k :: j <= k < |props| ==> props[k].stockValue == old(props[k].stockValue)
    {
      props[j].UpdateStockValue(percent);
      j := j + 1;
    }
  }
}
