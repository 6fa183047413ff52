/**
 * The property ledger of the game: the bank's finite house and hotel pools,
 * ownable properties with their building level, mortgage flag and stock value,
 * and the players' cash and token position.
 *
 * Building and mortgage costs are exact integer versions of the source's
 * floating-point formulas (see README, "Left out").
 */
module Economy {

  datatype Option<T> = None | Some(value: T)

  /** The three kinds of ownable board space. */
  datatype Kind = Street | TrainStation | Utility

  /** Colour groups; train stations are Black and utilities Gray on the board. */
  datatype Color = Brown | SkyBlue | Pink | Orange | Red | Yellow | Green | Blue | Black | Gray

  const BoardSize: nat := 40
  const HousePoolSize: int := 32
  const HotelPoolSize: int := 12
  const StartingMoney: int := 500
  const StockFloor: int := 10

  function Pow(b: nat, k: nat): nat
  {
    if k == 0 then 1 else b * Pow(b, k - 1)
  }

  lemma {:induction false} PowAtLeast(k: nat)
    ensures Pow(13, k) >= Pow(10, k) >= 1
  {
    if k > 0 {
      PowAtLeast(k - 1);
    }
  }

  /**
   * Python's round() on the exact rational n/d: the nearest integer, and on a
   * tie the even one.
   */
  function RoundHalfEven(n: nat, d: nat): (r: nat)
    requires d > 0
    ensures (2 * r - 1) * d <= 2 * n <= (2 * r + 1) * d
    ensures 2 * n == (2 * r + 1) * d || 2 * n == (2 * r - 1) * d ==> r % 2 == 0
  {
    var q, m := n / d, n % d;
    DivisionBounds(n, d, q, m);
    if 2 * m < d then q
    else if 2 * m > d then q + 1
    else if q % 2 == 0 then q
    else q + 1
  }

  /** The products that RoundHalfEven's bounds compare, written out for the candidates q and q + 1. */
  lemma DivisionBounds(n: nat, d: nat, q: nat, m: nat)
    requires d > 0 && q == n / d && m == n % d
    ensures 2 * n == 2 * (q * d) + 2 * m && 0 <= m < d
    ensures (2 * q - 1) * d == 2 * (q * d) - d && (2 * q + 1) * d == 2 * (q * d) + d
    ensures (2 * (q + 1) - 1) * d == 2 * (q * d) + d && (2 * (q + 1) + 1) * d == 2 * (q * d) + 3 * d
  {
  }

  /** get_base_build_cost: a quarter of the face price, at least 50. */
  function BaseBuildCost(price: nat): (r: nat)
    ensures r >= 50 && r >= price / 4
    ensures r == 50 || r == price / 4
  {
    if price / 4 > 50 then price / 4 else 50
  }

  /**
   * The cost of the house that raises a street from k to k + 1 houses: the
   * base cost times 1.3^k, rounded. The one tie on the game board where
   * CPython's floating-point evaluation rounds up (base 50, third house)
   * is taken as the source computes it.
   */
  function HouseCost(price: nat, k: nat): (r: nat)
    requires k < 4
    ensures (2 * r - 1) * Pow(10, k) <= 2 * BaseBuildCost(price) * Pow(13, k) <= (2 * r + 1) * Pow(10, k)
    ensures r >= BaseBuildCost(price)
  {
    var base := BaseBuildCost(price);
    PowAtLeast(k);
    ScaleAtLeast(base, Pow(13, k), Pow(10, k));
    if base == 50 && k == 2 then
      assert Pow(10, 2) == 100 && Pow(13, 2) == 169;
      assert (2 * 85 - 1) * 100 <= 2 * 50 * 169 <= (2 * 85 + 1) * 100;
      85
    else
      var n := base * Pow(13, k);
      var r := RoundHalfEven(n, Pow(10, k));
      assert 2 * n == 2 * base * Pow(13, k);
      RoundedAtLeast(n, Pow(10, k), r, base);
      r
  }

  /** Scaling both sides of x >= y by the same non-negative factor keeps the order (nonlinear, so Dafny needs it spelled out). */
  lemma ScaleAtLeast(b: nat, x: nat, y: nat)
    requires x >= y
    ensures b * x >= b * y
  {
  }

  /** A rounded quotient n/d is at least b when n is at least b * d. */
  lemma RoundedAtLeast(n: nat, d: nat, r: nat, b: nat)
    requires d > 0 && n >= b * d && 2 * n <= (2 * r + 1) * d
    ensures r >= b
  {
    CancelFactor(2 * r + 1, 2 * b, d);
  }

  /** A positive common factor can be cancelled from both sides of an inequality. */
  lemma CancelFactor(x: int, y: int, d: nat)
    requires d > 0 && x * d >= y * d
    ensures x >= y
  {
  }

  /** The cost of a hotel: the base cost times 1.3^4 times 2, rounded. */
  function HotelCost(price: nat): (r: nat)
    ensures (2 * r - 1) * 10000 <= 2 * BaseBuildCost(price) * 57122 <= (2 * r + 1) * 10000
    ensures r >= 5 * BaseBuildCost(price)
  {
    RoundHalfEven(BaseBuildCost(price) * 57122, 10000)
  }

  /** get_mortgage_value: half the face price, rounded down. */
  function MortgageValue(price: nat): (r: nat)
    ensures 2 * r <= price <= 2 * r + 1
  {
    price / 2
  }

  /**
   * get_unmortgage_cost: the mortgage value plus ten per cent, rounded. The
   * one tie on the game board where CPython's floating-point product rounds
   * up (mortgage value 175) is taken as the source computes it.
   */
  function UnmortgageCost(price: nat): (r: nat)
    ensures (2 * r - 1) * 10 <= 2 * MortgageValue(price) * 11 <= (2 * r + 1) * 10
    ensures r >= MortgageValue(price)
  {
    var m := MortgageValue(price);
    if m == 175 then 193 else RoundHalfEven(m * 11, 10)
  }

  /** Integer division truncating toward zero, as Python's int() of a quotient. */
  function TruncDiv(a: int, b: nat): (q: int)
    requires b > 0
    ensures a >= 0 ==> q * b <= a < q * b + b
    ensures a < 0 ==> q * b - b < a <= q * b
  {
    if a >= 0 then a / b else -((-a) / b)
  }

  /**
   * update_stock_value: scale by (100 + percent)/100, truncate toward zero,
   * and never go below the floor of 10.
   */
  function UpdateStock(v: int, percent: int): (r: int)
    ensures r >= StockFloor
    ensures r > StockFloor ==> 100 * r <= v * (100 + percent) < 100 * r + 100
    ensures r == StockFloor <==> v * (100 + percent) < 100 * StockFloor + 100
  {
    var t := TruncDiv(v * (100 + percent), 100);
    if t > StockFloor then t else StockFloor
  }

  /** A rise never lowers a stock value that is at least the floor. */
  lemma RiseNeverLowers(v: int, percent: int)
    requires v >= StockFloor && percent >= 0
    ensures UpdateStock(v, percent) >= v
  {
    assert v * (100 + percent) >= v * 100;
  }

  /** A drop never raises a stock value that is at least the floor. */
  lemma DropNeverRaises(v: int, percent: int)
    requires v >= StockFloor && percent <= 0
    ensures UpdateStock(v, percent) <= v
  {
    assert v * (100 + percent) <= v * 100;
  }

  /** The bank's supply of houses and hotels (HOUSE_POOL, HOTEL_POOL). */
  class Bank {
    var housePool: int
    var hotelPool: int

    ghost predicate Valid()
      reads this
    {
      housePool >= 0 && hotelPool >= 0
    }

    constructor ()
      ensures Valid()
      ensures housePool == HousePoolSize && hotelPool == HotelPoolSize
    {
      housePool := HousePoolSize;
      hotelPool := HotelPoolSize;
    }
  }

  class Property {
    const name: string
    const price: nat
    const color: Color
    const kind: Kind
    const baseRent: nat
    const position: nat
    var owner: Player?
    var houses: nat
    var hotel: bool
    var mortgaged: bool
    var stockValue: int

    /** Building invariant: at most four houses, a hotel replaces them, only streets are built on. */
    ghost predicate Valid()
      reads this
    {
      houses <= 4 && (hotel ==> houses == 0) && (kind != Street ==> houses == 0 && !hotel)
    }

    constructor (name: string, price: nat, color: Color, kind: Kind, baseRent: nat, position: nat)
      ensures Valid()
      ensures this.name == name && this.price == price && this.color == color && this.kind == kind
      ensures this.baseRent == baseRent && this.position == position
      ensures owner == null && houses == 0 && !hotel && !mortgaged && stockValue == price
    {
      this.name := name;
      this.price := price;
      this.color := color;
      this.kind := kind;
      this.baseRent := baseRent;
      this.position := position;
      owner := null;
      houses := 0;
      hotel := false;
      mortgaged := false;
      stockValue := price;
    }

    /** get_house_cost: the price of the next house, or None where no house can go. */
    function NextHouseCost(): (r: Option<nat>)
      reads this
      ensures r.Some? <==> kind == Street && !hotel && houses < 4
      ensures r.Some? ==> r.value == HouseCost(price, houses)
    {
      if kind != Street || hotel || houses >= 4 then None else Some(HouseCost(price, houses))
    }

    /** get_hotel_cost: the price of a hotel, or None unless exactly four houses stand. */
    function NextHotelCost(): (r: Option<nat>)
      reads this
      ensures r.Some? <==> kind == Street && !hotel && houses == 4
      ensures r.Some? ==> r.value == HotelCost(price)
    {
      if kind != Street || hotel || houses != 4 then None else Some(HotelCost(price))
    }

    /** build_house: one house moves from the bank's pool onto this street. */
    method BuildHouse(bank: Bank) returns (built: bool)
      requires Valid() && bank.Valid()
      modifies this`houses, bank`housePool
      ensures Valid() && bank.Valid()
      ensures built <==> kind == Street && old(houses) < 4 && !hotel && old(bank.housePool) > 0
      ensures houses == old(houses) + (if built then 1 else 0)
      ensures bank.housePool == old(bank.housePool) - (if built then 1 else 0)
      ensures bank.housePool + houses == old(bank.housePool + houses)
    {
      built := kind == Street && houses < 4 && !hotel && bank.housePool > 0;
      if built {
        houses := houses + 1;
        bank.housePool := bank.housePool - 1;
      }
    }

    /** build_hotel: four houses go back to the pool and one hotel comes out of it. */
    method BuildHotel(bank: Bank) returns (built: bool)
      requires Valid() && bank.Valid()
      modifies this`houses, this`hotel, bank
      ensures Valid() && bank.Valid()
      ensures built <==> kind == Street && old(houses) == 4 && !old(hotel) && old(bank.hotelPool) > 0
      ensures built ==> hotel && houses == 0
      ensures built ==> bank.hotelPool == old(bank.hotelPool) - 1 && bank.housePool == old(bank.housePool) + 4
      ensures !built ==> hotel == old(hotel) && houses == old(houses)
      ensures !built ==> bank.hotelPool == old(bank.hotelPool) && bank.housePool == old(bank.housePool)
      ensures bank.housePool + houses == old(bank.housePool + houses)
      ensures bank.hotelPool + (if hotel then 1 else 0) == old(bank.hotelPool + if hotel then 1 else 0)
    {
      built := kind == Street && houses == 4 && !hotel && bank.hotelPool > 0;
      if built {
        hotel := true;
        houses := 0;
        bank.hotelPool := bank.hotelPool - 1;
        bank.housePool := bank.housePool + 4;
      }
    }

    /** update_stock_value. */
    method UpdateStockValue(percent: int)
      modifies this`stockValue
      ensures stockValue == UpdateStock(old(stockValue), percent)
      ensures stockValue >= StockFloor
    {
      stockValue := UpdateStock(stockValue, percent);
    }

    /** mortgage: refused (None) when already mortgaged or built on; otherwise pays out the mortgage value. */
    method Mortgage() returns (r: Option<nat>)
      modifies this`mortgaged
      ensures r.Some? <==> !old(mortgaged) && houses == 0 && !hotel
      ensures r.Some? ==> mortgaged && r.value == MortgageValue(price)
      ensures r.None? ==> mortgaged == old(mortgaged)
    {
      if mortgaged {
        return None;
      }
      if houses > 0 || hotel {
        return None;
      }
      mortgaged := true;
      r := Some(MortgageValue(price));
    }

    /** unmortgage: refused (None) unless mortgaged; otherwise clears the flag and names the cost. */
    method Unmortgage() returns (r: Option<nat>)
      modifies this`mortgaged
      ensures r.Some? <==> old(mortgaged)
      ensures r.Some? ==> !mortgaged && r.value == UnmortgageCost(price)
      ensures r.None? ==> !mortgaged
    {
      if !mortgaged {
        return None;
      }
      var cost := UnmortgageCost(price);
      mortgaged := false;
      r := Some(cost);
    }

    /**
     * sell_house: a house goes back to the pool for half what it cost; a hotel
     * turns back into four houses for half the hotel cost, provided the pool
     * can supply the four houses.
     */
    method SellHouse(bank: Bank) returns (gain: nat)
      requires Valid() && bank.Valid()
      modifies this`houses, this`hotel, bank
      ensures Valid() && bank.Valid()
      ensures old(houses) > 0 ==>
        && houses == old(houses) - 1 && hotel == old(hotel)
        && bank.housePool == old(bank.housePool) + 1 && bank.hotelPool == old(bank.hotelPool)
        && gain == HouseCost(price, old(houses) - 1) / 2
      ensures old(houses) == 0 && old(hotel) && old(bank.housePool) >= 4 ==>
        && !hotel && houses == 4
        && bank.hotelPool == old(bank.hotelPool) + 1 && bank.housePool == old(bank.housePool) - 4
        && gain == HotelCost(price) / 2
      ensures old(houses) == 0 && (!old(hotel) || old(bank.housePool) < 4) ==>
        && gain == 0 && houses == 0 && hotel == old(hotel)
        && bank.housePool == old(bank.housePool) && bank.hotelPool == old(bank.hotelPool)
      ensures bank.housePool + houses == old(bank.housePool + houses)
      ensures bank.hotelPool + (if hotel then 1 else 0) == old(bank.hotelPool + if hotel then 1 else 0)
    {
      if houses > 0 {
        var lastCost := HouseCost(price, houses - 1);
        gain := lastCost / 2;
        houses := houses - 1;
        bank.housePool := bank.housePool + 1;
        return;
      }
      if hotel {
        if bank.housePool < 4 {
          return 0;
        }
        gain := HotelCost(price) / 2;
        hotel := false;
        houses := 4;
        bank.hotelPool := bank.hotelPool + 1;
        bank.housePool := bank.housePool - 4;
        return;
      }
      gain := 0;
    }

    /** sell_property_to_bank: half the face price, refused (None) while built on or mortgaged. */
    function BankSaleValue(): (r: Option<nat>)
      reads this
      ensures r.Some? <==> houses == 0 && !hotel && !mortgaged
      ensures r.Some? ==> 2 * r.value <= price <= 2 * r.value + 1
    {
      if houses > 0 || hotel then None
      else if mortgaged then None
      else Some(price / 2)
    }

    /**
     * The evaporator card's removal: a hotel disappears (its unit returns to
     * the hotel pool, no houses come back), otherwise one house returns to
     * the house pool.
     */
    method Evaporate(bank: Bank)
      requires Valid() && bank.Valid()
      modifies this`houses, this`hotel, bank
      ensures Valid() && bank.Valid()
      ensures old(hotel) ==> !hotel && houses == 0 && bank.hotelPool == old(bank.hotelPool) + 1 && bank.housePool == old(bank.housePool)
      ensures !old(hotel) && old(houses) > 0 ==> houses == old(houses) - 1 && !hotel && bank.housePool == old(bank.housePool) + 1 && bank.hotelPool == old(bank.hotelPool)
      ensures !old(hotel) && old(houses) == 0 ==> houses == 0 && !hotel && bank.housePool == old(bank.housePool) && bank.hotelPool == old(bank.hotelPool)
    {
      if hotel {
        hotel := false;
        houses := 0;
        bank.hotelPool := bank.hotelPool + 1;
      } else if houses > 0 {
        houses := houses - 1;
        bank.housePool := bank.housePool + 1;
      }
    }
  }

  class Player {
    var position: int
    var money: int
    var properties: seq<Property>
    var inJail: bool
    var jailTurns: int
    var consecutiveDoubles: int
    var nextRollMaxOne: bool

    constructor ()
      ensures position == 0 && money == StartingMoney && properties == []
      ensures !inJail && jailTurns == 0 && consecutiveDoubles == 0 && !nextRollMaxOne
    {
      position := 0;
      money := StartingMoney;
      properties := [];
      inJail := false;
      jailTurns := 0;
      consecutiveDoubles := 0;
      nextRollMaxOne := false;
    }

    /** move: advance the token cyclically around the 40 spaces. */
    method Move(spaces: int) returns (pos: int)
      modifies this`position
      ensures position == (old(position) + spaces) % BoardSize
      ensures 0 <= position < BoardSize && pos == position
    {
      position := (position + spaces) % BoardSize;
      pos := position;
    }

    /**
     * pay: succeeds only if the cash covers the amount; then the payer loses
     * exactly the amount and the recipient, if any, gains it.
     */
    method Pay(amount: int, recipient: Player?) returns (paid: bool)
      modifies this`money, (if recipient == null then {} else {recipient})`money
      ensures paid <==> old(money) >= amount
      ensures old(money) >= 0 ==> money >= 0
      ensures recipient == null ==> money == old(money) - (if paid then amount else 0)
      ensures recipient == this ==> money == old(money)
      ensures recipient != null && recipient != this ==>
        && money == old(money) - (if paid then amount else 0)
        && recipient.money == old(recipient.money) + (if paid then amount else 0)
      ensures recipient != null ==> money + recipient.money == old(money + recipient.money)
    {
      paid := money >= amount;
      if paid {
        money := money - amount;
        if recipient != null {
          recipient.money := recipient.money + amount;
        }
      }
    }

    method Receive(amount: int)
      modifies this`money
      ensures money == old(money) + amount
    {
      money := money + amount;
    }
  }

  /** How many of the properties have this kind and this owner. */
  function CountOwned(props: seq<Property>, kind: Kind, owner: Player?): (n: nat)
    reads props
    ensures n <= |props|
  {
    if props == [] then 0
    else (if props[0].kind == kind && props[0].owner == owner then 1 else 0) + CountOwned(props[1..], kind, owner)
  }

  lemma {:induction false} CountOwnedIncludes(props: seq<Property>, p: Property)
    requires p in props
    ensures CountOwned(props, p.kind, p.owner) >= 1
  {
    if props[0] != p {
      CountOwnedIncludes(props[1..], p);
    }
  }

  /** Rent of a train station owned together with k stations in all (k >= 1). */
  function StationRent(k: nat): nat
    requires k >= 1
  {
    25 * Pow(2, k - 1)
  }

  /** Rent of a utility: 10 times the roll if the owner holds both utilities, else 4 times; the roll counts as at least 1. */
  function UtilityRent(owned: nat, diceTotal: int): nat
  {
    (if owned == 2 then 10 else 4) * (if diceTotal > 1 then diceTotal else 1)
  }

  /**
   * get_rent for a train station or a utility (street rent depends on the
   * floating-point stock ratio and is not modelled). A mortgaged property
   * charges nothing.
   */
  function Rent(props: seq<Property>, p: Property, diceTotal: int): (r: nat)
    reads props, p
    requires p in props && p.kind != Street
    ensures r == 0 <==> p.mortgaged
    ensures !p.mortgaged && p.kind == TrainStation ==> r % 25 == 0 && r >= 25
    ensures !p.mortgaged && p.kind == TrainStation ==>
      CountOwned(props, TrainStation, p.owner) >= 1 && r == StationRent(CountOwned(props, TrainStation, p.owner))
    ensures !p.mortgaged && p.kind == Utility ==> r >= 4 && r % 2 == 0
    ensures !p.mortgaged && p.kind == Utility ==>
      r == (if CountOwned(props, Utility, p.owner) == 2 then 10 else 4) * (if diceTotal >= 1 then diceTotal else 1)
  {
    CountOwnedIncludes(props, p);
    if p.mortgaged then 0
    else if p.kind == TrainStation then
      var k := CountOwned(props, TrainStation, p.owner);
      StationRentDoubles(k);
      StationRent(k)
    else
      var u := CountOwned(props, Utility, p.owner);
      UtilityRentEven(u, diceTotal);
      UtilityRent(u, diceTotal)
  }

  lemma UtilityRentEven(owned: nat, diceTotal: int)
    ensures UtilityRent(owned, diceTotal) >= 4 && UtilityRent(owned, diceTotal) % 2 == 0
  {
    var m := if diceTotal > 1 then diceTotal else 1;
    if owned == 2 {
      assert UtilityRent(owned, diceTotal) == 2 * (5 * m);
    } else {
      assert UtilityRent(owned, diceTotal) == 2 * (2 * m);
    }
  }

  /** Each further station owned by the same player doubles station rent. */
  lemma StationRentDoubles(k: nat)
    requires k >= 1
    ensures StationRent(k + 1) == 2 * StationRent(k)
    ensures StationRent(k) >= 25 && StationRent(k) % 25 == 0
  {
    PowPositive(2, k - 1);
  }

  lemma {:induction false} PowPositive(b: nat, k: nat)
    requires b >= 1
    ensures Pow(b, k) >= 1
  {
    if k > 0 {
      PowPositive(b, k - 1);
    }
  }
}
