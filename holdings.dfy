/**
 * What an owner may do with a property: the building permission rules
 * (full colour group, even building), the purchase of the property the
 * current player landed on, and the sell, sell-to-bank and mortgage actions.
 * The board is the sequence of every property on it, in board order.
 */
module Holdings {
  import opened Economy
  import opened Lists

  /** A street of the given colour. */
  predicate InColor(q: Property, color: Color)
  {
    q.kind == Street && q.color == color
  }

  /** The colour group: the streets on the board that carry the colour, in board order. */
  function ColorGroup(board: seq<Property>, color: Color): (g: seq<Property>)
    ensures forall k :: 0 <= k < |g| ==> g[k] in board && InColor(g[k], color)
    ensures forall k :: 0 <= k < |board| && InColor(board[k], color) ==> board[k] in g
  {
    if board == [] then []
    else
      var init := board[..|board| - 1];
      var last := board[|board| - 1];
      assert forall k :: 0 <= k < |init| ==> init[k] == board[k];
      ColorGroup(init, color) + (if InColor(last, color) then [last] else [])
  }

  /**
   * owns_color_set: the property is a street, its colour group is not empty
   * and the player owns every street in it.
   */
  function OwnsColorSet(board: seq<Property>, player: Player, prop: Property): (b: bool)
    reads board, prop
    ensures b <==>
      && prop.kind == Street
      && (exists k :: 0 <= k < |board| && InColor(board[k], prop.color))
      && (forall k :: 0 <= k < |board| && InColor(board[k], prop.color) ==> board[k].owner == player)
  {
    if prop.kind != Street then false
    else
      var g := ColorGroup(board, prop.color);
      assert g != [] ==> g[0] in g;
      g != [] && forall k :: 0 <= k < |g| ==> g[k].owner == player
  }

  /** The building level used by the even-building rule: 5 for a hotel, else the number of houses. */
  function Level(p: Property): nat
    reads p
  {
    if p.hotel then 5 else p.houses
  }

  /** The lowest level in a non-empty group. */
  function MinLevel(g: seq<Property>): (m: nat)
    requires g != []
    reads g
    ensures forall k :: 0 <= k < |g| ==> m <= Level(g[k])
    ensures exists k :: 0 <= k < |g| && m == Level(g[k])
  {
    if |g| == 1 then Level(g[0])
    else
      var init := g[..|g| - 1];
      var m := MinLevel(init);
      assert forall k :: 0 <= k < |init| ==> init[k] == g[k];
      if Level(g[|g| - 1]) < m then Level(g[|g| - 1]) else m
  }

  /**
   * The even-building rule of try_buy_house: the property's level must equal
   * the lowest level in its colour group (0 for an empty group). For a street
   * on the board this holds exactly when no street of its colour is lower.
   */
  function BuildsEvenly(board: seq<Property>, prop: Property): (b: bool)
    reads board, prop
    ensures prop in board && prop.kind == Street ==>
      (b <==> forall k :: 0 <= k < |board| && InColor(board[k], prop.color) ==> Level(prop) <= Level(board[k]))
  {
    var g := ColorGroup(board, prop.color);
    if g == [] then Level(prop) == 0
    else
      var m := MinLevel(g);
      assert prop in board && prop.kind == Street ==> prop in g;
      Level(prop) == m
  }

  /** Levels that differ by at most one across a group. */
  predicate EvenLevels(levels: seq<nat>)
  {
    forall a, b :: 0 <= a < |levels| && 0 <= b < |levels| ==> levels[a] <= levels[b] + 1
  }

  /**
   * Building on a lowest-level street keeps an evenly built group even: the
   * rule try_buy_house enforces is what keeps the group's levels within one
   * of each other.
   */
  lemma {:induction false} BuildOnLowestKeepsEven(levels: seq<nat>, i: nat)
    requires EvenLevels(levels) && i < |levels|
    requires forall k :: 0 <= k < |levels| ==> levels[i] <= levels[k]
    ensures EvenLevels(levels[i := levels[i] + 1])
  {
    var after := levels[i := levels[i] + 1];
    forall a, b | 0 <= a < |after| && 0 <= b < |after|
      ensures after[a] <= after[b] + 1
    {
      if a == i && b != i {
        assert levels[i] <= levels[b];
      } else if a != i && b == i {
        assert levels[a] <= levels[i] + 1;
      }
    }
  }

  /** Why a build request ended the way it did; Done carries the price paid. */
  datatype BuildOutcome = NotOwner | NoColorSet | NotBuildable | Uneven | PoolEmpty | TooPoor | Done(cost: nat)

  /**
   * try_buy_house: the checks in the source's order (ownership, full colour
   * group, a next house is possible, even building, a house left in the
   * bank), then the payment; on success the house goes up.
   */
  method TryBuyHouse(board: seq<Property>, bank: Bank, player: Player, prop: Property?) returns (o: BuildOutcome)
    requires bank.Valid() && (prop != null ==> prop.Valid())
    modifies player`money, bank`housePool, (if prop == null then {} else {prop})`houses
    ensures bank.Valid() && (prop != null ==> prop.Valid())
    ensures o == NotOwner <==> prop == null || old(prop.owner) != player
    ensures o == NoColorSet <==> prop != null && old(prop.owner) == player && !old(OwnsColorSet(board, player, prop))
    ensures o == NotBuildable <==>
      prop != null && old(prop.owner) == player && old(OwnsColorSet(board, player, prop)) && old(prop.NextHouseCost()).None?
    ensures o == Uneven <==>
      && prop != null && old(prop.owner) == player && old(OwnsColorSet(board, player, prop))
      && old(prop.NextHouseCost()).Some? && !old(BuildsEvenly(board, prop))
    ensures o == PoolEmpty <==>
      && prop != null && old(prop.owner) == player && old(OwnsColorSet(board, player, prop))
      && old(prop.NextHouseCost()).Some? && old(BuildsEvenly(board, prop)) && old(bank.housePool) <= 0
    ensures o == TooPoor <==>
      && prop != null && old(prop.owner) == player && old(OwnsColorSet(board, player, prop))
      && old(prop.NextHouseCost()).Some? && old(BuildsEvenly(board, prop)) && old(bank.housePool) > 0
      && old(player.money) < old(HouseCost(prop.price, prop.houses))
    ensures o.Done? <==>
      && prop != null && old(prop.owner) == player && old(OwnsColorSet(board, player, prop))
      && old(prop.NextHouseCost()).Some? && old(BuildsEvenly(board, prop)) && old(bank.housePool) > 0
      && old(player.money) >= old(HouseCost(prop.price, prop.houses))
    ensures o.Done? ==>
      && o.cost == HouseCost(prop.price, old(prop.houses))
      && player.money == old(player.money) - o.cost
      && prop.houses == old(prop.houses) + 1 && bank.housePool == old(bank.housePool) - 1
      && (prop in board ==> forall k :: 0 <= k < |board| && InColor(board[k], prop.color) ==> old(Level(prop)) <= old(Level(board[k])))
    ensures !o.Done? ==> player.money == old(player.money) && bank.housePool == old(bank.housePool)
    ensures !o.Done? && prop != null ==> prop.houses == old(prop.houses)
  {
    if prop == null || prop.owner != player {
      return NotOwner;
    }
    if !OwnsColorSet(board, player, prop) {
      return NoColorSet;
    }
    var houseCost := prop.NextHouseCost();
    if houseCost.None? {
      return NotBuildable;
    }
    if !BuildsEvenly(board, prop) {
      return Uneven;
    }
    if bank.housePool <= 0 {
      return PoolEmpty;
    }
    var paid := player.Pay(houseCost.value, null);
    if paid {
      var built := prop.BuildHouse(bank);
      o := Done(houseCost.value);
    } else {
      o := TooPoor;
    }
  }

  /**
   * try_buy_hotel: ownership, full colour group, exactly four houses and no
   * hotel yet, a hotel left in the bank, then the payment. Unlike houses,
   * hotels are not subject to the even-building rule.
   */
  method TryBuyHotel(board: seq<Property>, bank: Bank, player: Player, prop: Property?) returns (o: BuildOutcome)
    requires bank.Valid() && (prop != null ==> prop.Valid())
    modifies player`money, bank, (if prop == null then {} else {prop})`houses, (if prop == null then {} else {prop})`hotel
    ensures bank.Valid() && (prop != null ==> prop.Valid())
    ensures o == NotOwner <==> prop == null || old(prop.owner) != player
    ensures o == NoColorSet <==> prop != null && old(prop.owner) == player && !old(OwnsColorSet(board, player, prop))
    ensures o != Uneven
    ensures o == NotBuildable <==>
      prop != null && old(prop.owner) == player && old(OwnsColorSet(board, player, prop)) && old(prop.NextHotelCost()).None?
    ensures o == PoolEmpty <==>
      && prop != null && old(prop.owner) == player && old(OwnsColorSet(board, player, prop))
      && old(prop.NextHotelCost()).Some? && old(bank.hotelPool) <= 0
    ensures o == TooPoor <==>
      && prop != null && old(prop.owner) == player && old(OwnsColorSet(board, player, prop))
      && old(prop.NextHotelCost()).Some? && old(bank.hotelPool) > 0
      && old(player.money) < HotelCost(prop.price)
    ensures o.Done? <==>
      && prop != null && old(prop.owner) == player && old(OwnsColorSet(board, player, prop))
      && old(prop.NextHotelCost()).Some? && old(bank.hotelPool) > 0
      && old(player.money) >= HotelCost(prop.price)
    ensures o.Done? ==>
      && o.cost == HotelCost(prop.price) && player.money == old(player.money) - o.cost
      && prop.hotel && prop.houses == 0
      && bank.hotelPool == old(bank.hotelPool) - 1 && bank.housePool == old(bank.housePool) + 4
    ensures !o.Done? ==>
      && player.money == old(player.money)
      && bank.housePool == old(bank.housePool) && bank.hotelPool == old(bank.hotelPool)
    ensures !o.Done? && prop != null ==> prop.houses == old(prop.houses) && prop.hotel == old(prop.hotel)
  {
    if prop == null || prop.owner != player {
      return NotOwner;
    }
    if !OwnsColorSet(board, player, prop) {
      return NoColorSet;
    }
    var hotelCost := prop.NextHotelCost();
    if hotelCost.None? {
      return NotBuildable;
    }
    if bank.hotelPool <= 0 {
      return PoolEmpty;
    }
    var paid := player.Pay(hotelCost.value, null);
    if paid {
      var built := prop.BuildHotel(bank);
      o := Done(hotelCost.value);
    } else {
      o := TooPoor;
    }
  }

  /**
   * The buy button on a pending property: the player pays the price and
   * becomes the owner, the property joining the end of their list. When the
   * player cannot pay, nothing changes here; the auction the source then
   * starts is Auctions.Auction.Start, which this method does not call.
   */
  method BuyPending(player: Player, prop: Property) returns (bought: bool)
    modifies player`money, player`properties, prop`owner
    ensures bought <==> old(player.money) >= prop.price
    ensures bought ==>
      && prop.owner == player && player.properties == old(player.properties) + [prop]
      && player.money == old(player.money) - prop.price
    ensures !bought ==>
      && prop.owner == old(prop.owner) && player.properties == old(player.properties)
      && player.money == old(player.money)
  {
    bought := player.Pay(prop.price, null);
    if bought {
      prop.owner := player;
      player.properties := player.properties + [prop];
    }
  }

  /**
   * The sell-building button on one's own property: one house is sold back
   * (or a hotel broken back into four houses) and the refund credited; a
   * refund of 0 means nothing was sold.
   */
  method SellBuilding(bank: Bank, player: Player, prop: Property) returns (gain: nat)
    requires bank.Valid() && prop.Valid()
    modifies player`money, prop`houses, prop`hotel, bank
    ensures bank.Valid() && prop.Valid()
    ensures player.money == old(player.money) + gain
    ensures old(prop.houses) > 0 ==>
      && gain == HouseCost(prop.price, old(prop.houses) - 1) / 2
      && prop.houses == old(prop.houses) - 1 && prop.hotel == old(prop.hotel)
      && bank.housePool == old(bank.housePool) + 1 && bank.hotelPool == old(bank.hotelPool)
    ensures old(prop.houses) == 0 && old(prop.hotel) && old(bank.housePool) >= 4 ==>
      && gain == HotelCost(prop.price) / 2 && !prop.hotel && prop.houses == 4
      && bank.hotelPool == old(bank.hotelPool) + 1 && bank.housePool == old(bank.housePool) - 4
    ensures old(prop.houses) == 0 && (!old(prop.hotel) || old(bank.housePool) < 4) ==>
      && gain == 0 && player.money == old(player.money)
      && prop.houses == 0 && prop.hotel == old(prop.hotel)
      && bank.housePool == old(bank.housePool) && bank.hotelPool == old(bank.hotelPool)
    ensures gain == 0 ==> prop.houses == old(prop.houses) && prop.hotel == old(prop.hotel)
    ensures bank.housePool + prop.houses == old(bank.housePool + prop.houses)
    ensures bank.hotelPool + (if prop.hotel then 1 else 0) == old(bank.hotelPool + if prop.hotel then 1 else 0)
  {
    gain := prop.SellHouse(bank);
    if gain > 0 {
      player.Receive(gain);
    }
  }

  /**
   * Selling a property to the bank: refused while it carries buildings or is
   * mortgaged; otherwise the owner receives half the price, the property
   * leaves their list and returns to the bank.
   */
  method SellToBank(player: Player, prop: Property) returns (amount: Option<nat>)
    modifies player`money, player`properties, prop`owner
    ensures amount.Some? <==> old(prop.houses) == 0 && !old(prop.hotel) && !old(prop.mortgaged)
    ensures amount.Some? ==>
      && amount.value == MortgageValue(prop.price)
      && player.money == old(player.money) + amount.value
      && player.properties == RemoveFirst(old(player.properties), prop)
      && prop.owner == null
    ensures amount.None? ==>
      && player.money == old(player.money) && player.properties == old(player.properties)
      && prop.owner == old(prop.owner)
  {
    if prop.houses > 0 || prop.hotel {
      return None;
    }
    if prop.mortgaged {
      return None;
    }
    amount := prop.BankSaleValue();
    player.Receive(amount.value);
    if prop in player.properties {
      player.properties := RemoveFirst(player.properties, prop);
    }
    prop.owner := null;
  }

  /**
   * The mortgage button toggles: a mortgaged property is redeemed if the
   * owner can pay the unmortgage cost; an unmortgaged one is mortgaged for
   * half its price unless it carries buildings.
   */
  method ToggleMortgage(player: Player, prop: Property) returns (changed: bool)
    modifies player`money, prop`mortgaged
    ensures changed <==> if old(prop.mortgaged)
      then old(player.money) >= UnmortgageCost(prop.price)
      else prop.houses == 0 && !prop.hotel
    ensures changed ==> prop.mortgaged == !old(prop.mortgaged)
    ensures changed && old(prop.mortgaged) ==> player.money == old(player.money) - UnmortgageCost(prop.price)
    ensures changed && !old(prop.mortgaged) ==> player.money == old(player.money) + MortgageValue(prop.price)
    ensures !changed ==> prop.mortgaged == old(prop.mortgaged) && player.money == old(player.money)
  {
    if prop.mortgaged {
      var cost := UnmortgageCost(prop.price);
      changed := player.Pay(cost, null);
      if changed {
        var r := prop.Unmortgage();
      }
    } else {
      var value := prop.Mortgage();
      changed := value.Some?;
      if changed {
        player.Receive(value.value);
      }
    }
  }

  /**
   * Mortgaging and then redeeming a property costs its owner the difference
   * between the unmortgage cost and the mortgage value: ten percent of the
   * mortgage value, to the nearest dollar.
   */
  lemma MortgageRoundTrip(price: nat)
    ensures UnmortgageCost(price) >= MortgageValue(price)
    ensures MortgageValue(price) - 5 <= 10 * (UnmortgageCost(price) - MortgageValue(price)) <= MortgageValue(price) + 5
  {
  }
}
