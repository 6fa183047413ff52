/**
 * Trade settlement (apply_trade): after the cash and ownership are checked
 * again, either nothing happens or both cash amounts move and every listed
 * property changes hands. The offered and requested properties are given
 * in the order the settlement visits them.
 */
module Trade {
  import opened Economy
  import opened Lists

  /** Every listed property belongs to the given player. */
  predicate AllOwnedBy(props: seq<Property>, owner: Player)
    reads props
  {
    forall k :: 0 <= k < |props| ==> props[k].owner == owner
  }

  /** The trade the settlement will accept: both cash amounts are covered and both sides still own what they list. */
  predicate Acceptable(current: Player, partner: Player, offer: seq<Property>, request: seq<Property>, offerCash: int, requestCash: int)
    reads current, partner, offer, request
  {
    && offerCash <= current.money && requestCash <= partner.money
    && AllOwnedBy(offer, current) && AllOwnedBy(request, partner)
  }

  /**
   * One half of the settlement: each listed property in turn gets the taker
   * as owner, leaves the giver's list if it is there and joins the end of the
   * taker's list if it is not there yet.
   */
  method HandOver(giver: Player, taker: Player, props: seq<Property>)
    requires giver != taker
    requires NoDuplicates(giver.properties) && NoDuplicates(taker.properties)
    modifies giver`properties, taker`properties, (set p: Property | p in props)`owner
    ensures AllOwnedBy(props, taker)
    ensures forall p :: p in giver.properties <==> p in old(giver.properties) && p !in props
    ensures forall p :: p in taker.properties <==> p in old(taker.properties) || p in props
    ensures NoDuplicates(giver.properties) && NoDuplicates(taker.properties)
  {
    var i := 0;
    while i < |props|
      invariant 0 <= i <= |props|
      invariant forall k :: 0 <= k < i ==> props[k].owner == taker
      invariant NoDuplicates(giver.properties) && NoDuplicates(taker.properties)
      invariant forall p :: p in giver.properties <==> p in old(giver.properties) && p !in props[..i]
      invariant forall p :: p in taker.properties <==> p in old(taker.properties) || p in props[..i]
    {
      var prop := props[i];
      prop.owner := taker;
      if prop in giver.properties {
        RemoveFirstFromDistinct(giver.properties, prop);
        forall p | p != prop
          ensures p in RemoveFirst(giver.properties, prop) <==> p in giver.properties
        {
          RemoveFirstMembers(giver.properties, prop, p);
        }
        giver.properties := RemoveFirst(giver.properties, prop);
      }
      if prop !in taker.properties {
        taker.properties := taker.properties + [prop];
      }
      assert props[..i + 1] == props[..i] + [prop];
      i := i + 1;
    }
    assert props[..i] == props;
  }

  /**
   * apply_trade: on acceptance the current player pays the offered cash and
   * receives the requested cash, every offered property goes to the partner
   * and every requested one to the current player, and each property list
   * loses what was given and gains what was received. On refusal no cash,
   * owner or list changes. Both property lists stay free of duplicates.
   */
  method ApplyTrade(current: Player, partner: Player, offer: seq<Property>, request: seq<Property>, offerCash: int, requestCash: int)
    returns (ok: bool)
    requires current != partner
    requires NoDuplicates(current.properties) && NoDuplicates(partner.properties)
    modifies current`money, partner`money, current`properties, partner`properties
    modifies (set p: Property | p in offer)`owner, (set p: Property | p in request)`owner
    ensures ok <==> old(Acceptable(current, partner, offer, request, offerCash, requestCash))
    ensures ok ==>
      && current.money == old(current.money) - offerCash + requestCash
      && partner.money == old(partner.money) + offerCash - requestCash
      && AllOwnedBy(offer, partner) && AllOwnedBy(request, current)
    ensures current.money + partner.money == old(current.money + partner.money)
    ensures ok ==> forall p :: p in current.properties <==> (p in old(current.properties) && p !in offer) || p in request
    ensures ok ==> forall p :: p in partner.properties <==> (p in old(partner.properties) || p in offer) && p !in request
    ensures !ok ==>
      && current.money == old(current.money) && partner.money == old(partner.money)
      && current.properties == old(current.properties) && partner.properties == old(partner.properties)
      && (forall k :: 0 <= k < |offer| ==> offer[k].owner == old(offer[k].owner))
      && (forall k :: 0 <= k < |request| ==> request[k].owner == old(request[k].owner))
    ensures NoDuplicates(current.properties) && NoDuplicates(partner.properties)
  {
    if offerCash > current.money || requestCash > partner.money {
      return false;
    }
    if exists k :: 0 <= k < |offer| && offer[k].owner != current {
      return false;
    }
    if exists k :: 0 <= k < |request| && request[k].owner != partner {
      return false;
    }
    current.money := current.money - offerCash;
    partner.money := partner.money + offerCash;
    partner.money := partner.money - requestCash;
    current.money := current.money + requestCash;
    assert forall k :: 0 <= k < |request| ==> request[k] !in offer;
    HandOver(current, partner, offer);
    assert forall k :: 0 <= k < |offer| ==> offer[k] !in request;
    HandOver(partner, current, request);
    ok := true;
  }
}
