/**
 * The item chest deck, which is drawn from the front and returned to the
 * back, and the money-transfer chance cards. Every card payment is
 * clamped to the payer's cash. The card effects are specified on the
 * vector of the players' cash, in seating order.
 */
module Cards {
  import opened Economy
  import opened Lists

  datatype ChestCard = RiggedDice | Evaporator | CoinFlip | CoinBag

  /** The chest deck in its initial order. */
  const InitialChestDeck: seq<ChestCard> := [RiggedDice, Evaporator, CoinFlip, CoinBag]

  /** One draw: the front card moves to the back. */
  function Rotate<T>(s: seq<T>): (r: seq<T>)
    requires s != []
    ensures |r| == |s| && r[|r| - 1] == s[0]
    ensures multiset(r) == multiset(s)
  {
    assert s == [s[0]] + s[1..];
    s[1..] + [s[0]]
  }

  /** The deck after k draws. */
  function RotateTimes<T>(s: seq<T>, k: nat): (r: seq<T>)
    ensures |r| == |s|
  {
    if k == 0 || s == [] then s else Rotate(RotateTimes(s, k - 1))
  }

  /** After k draws, for k up to the deck size, the deck is the old deck cut at k. */
  lemma {:induction false} RotateTimesIsCut<T>(s: seq<T>, k: nat)
    requires k <= |s|
    ensures RotateTimes(s, k) == s[k..] + s[..k]
  {
    if k > 0 && s != [] {
      RotateTimesIsCut(s, k - 1);
      var prev := s[k - 1..] + s[..k - 1];
      assert prev[0] == s[k - 1];
      assert prev[1..] == s[k..] + s[..k - 1];
      assert s[..k] == s[..k - 1] + [s[k - 1]];
    }
  }

  /** A full cycle of draws restores the deck, and the k-th draw (k below the deck size) shows card k. */
  lemma ChestDeckCycles<T>(s: seq<T>, k: nat)
    requires k < |s|
    ensures RotateTimes(s, |s|) == s
    ensures RotateTimes(s, k)[0] == s[k]
  {
    RotateTimesIsCut(s, |s|);
    assert s[|s|..] + s[..|s|] == s;
    RotateTimesIsCut(s, k);
  }

  /** The chest deck (item_chest_cards). */
  class ChestDeck {
    var cards: seq<ChestCard>

    constructor ()
      ensures cards == InitialChestDeck
    {
      cards := InitialChestDeck;
    }

    /** handle_item_chest's draw: pop the front card and append it at the back. */
    method Draw() returns (card: ChestCard)
      requires cards != []
      modifies this
      ensures card == old(cards)[0]
      ensures cards == Rotate(old(cards))
    {
      card := cards[0];
      cards := cards[1..];
      cards := cards + [card];
    }
  }

  function Min(a: int, b: int): int
  {
    if a <= b then a else b
  }

  function Max(a: int, b: int): int
  {
    if a >= b then a else b
  }

  /** The coin bag: int(money * 0.1), the tenth of the cash rounded toward zero. */
  function CoinBagBonus(money: int): (b: int)
    ensures money >= 0 ==> 0 <= b && 10 * b <= money < 10 * b + 10
    ensures money < 0 ==> b <= 0 && 10 * b - 10 < money <= 10 * b
  {
    TruncDiv(money, 10)
  }

  function Sum(s: seq<int>): int
  {
    if s == [] then 0 else Sum(s[..|s| - 1]) + s[|s| - 1]
  }

  /** Replacing one entry changes the sum by the difference. */
  lemma {:induction false} SumSet(s: seq<int>, i: nat, v: int)
    requires i < |s|
    ensures Sum(s[i := v]) == Sum(s) - s[i] + v
  {
    var t := s[i := v];
    if i < |s| - 1 {
      assert t[..|t| - 1] == s[..|s| - 1][i := v];
      SumSet(s[..|s| - 1], i, v);
    } else {
      assert t[..|t| - 1] == s[..|s| - 1];
    }
  }

  /** One payment between two players, clamped to the payer's cash. */
  function Transfer(s: seq<int>, from: nat, to: nat, amount: int): (r: seq<int>)
    requires from < |s| && to < |s| && from != to
    ensures |r| == |s|
  {
    var x := Min(amount, s[from]);
    s[from := s[from] - x][to := s[to] + x]
  }

  lemma TransferConserves(s: seq<int>, from: nat, to: nat, amount: int)
    requires from < |s| && to < |s| && from != to
    ensures Sum(Transfer(s, from, to, amount)) == Sum(s)
  {
    var x := Min(amount, s[from]);
    var u := s[from := s[from] - x][to := s[to] + x];
    assert Transfer(s, from, to, amount) == u;
    TwoUpdates(s, from, to, x);
  }

  lemma TwoUpdates(s: seq<int>, a: nat, b: nat, x: int)
    requires a < |s| && b < |s| && a != b
    ensures Sum(s[a := s[a] - x][b := s[b] + x]) == Sum(s)
  {
    var t := s[a := s[a] - x];
    SumSet(s, a, s[a] - x);
    SumSet(t, b, s[b] + x);
  }

  /** Collect: every other player pays the collector; PayOut: the payer pays every other player. */
  datatype Direction = Collect | PayOut

  /** The cash after the card has visited the first i seats (the card's own player, seat c, is skipped). */
  function Round(cash: seq<int>, c: nat, amount: int, dir: Direction, i: nat): (r: seq<int>)
    requires c < |cash| && i <= |cash|
    ensures |r| == |cash|
  {
    if i == 0 then cash
    else
      var s := Round(cash, c, amount, dir, i - 1);
      if i - 1 == c then s
      else if dir == Collect then Transfer(s, i - 1, c, amount)
      else Transfer(s, c, i - 1, amount)
  }

  /** A round of card payments creates and destroys no money. */
  lemma {:induction false} RoundConserves(cash: seq<int>, c: nat, amount: int, dir: Direction, i: nat)
    requires c < |cash| && i <= |cash|
    ensures Sum(Round(cash, c, amount, dir, i)) == Sum(cash)
  {
    if i > 0 {
      RoundConserves(cash, c, amount, dir, i - 1);
      var s := Round(cash, c, amount, dir, i - 1);
      if i - 1 != c {
        if dir == Collect {
          TransferConserves(s, i - 1, c, amount);
        } else {
          TransferConserves(s, c, i - 1, amount);
        }
      }
    }
  }

  /** No payment of a round drives anybody's cash below zero. */
  lemma {:induction false} RoundKeepsNonNegative(cash: seq<int>, c: nat, amount: int, dir: Direction, i: nat)
    requires c < |cash| && i <= |cash| && amount >= 0
    requires forall k :: 0 <= k < |cash| ==> cash[k] >= 0
    ensures forall k :: 0 <= k < |cash| ==> Round(cash, c, amount, dir, i)[k] >= 0
  {
    if i > 0 {
      RoundKeepsNonNegative(cash, c, amount, dir, i - 1);
    }
  }

  /** When collecting, each other player pays the amount or, if poorer, all their cash. */
  lemma {:induction false} CollectTakesClamped(cash: seq<int>, c: nat, amount: int, i: nat, k: nat)
    requires c < |cash| && i <= |cash| && k < |cash| && k != c
    ensures Round(cash, c, amount, Collect, i)[k] == if k < i then cash[k] - Min(amount, cash[k]) else cash[k]
  {
    if i > 0 {
      CollectTakesClamped(cash, c, amount, i - 1, k);
    }
  }

  /** How many seats other than c lie below i. */
  function Others(c: nat, i: nat): nat
  {
    if c < i then i - 1 else i
  }

  /** When paying out, the payer pays the amount to each other player until the cash runs out. */
  lemma {:induction false} PayOutDrains(cash: seq<int>, c: nat, amount: int, i: nat)
    requires c < |cash| && i <= |cash| && amount >= 0 && cash[c] >= 0
    ensures Round(cash, c, amount, PayOut, i)[c] == Max(0, cash[c] - amount * Others(c, i))
  {
    if i > 0 {
      PayOutDrains(cash, c, amount, i - 1);
      if i - 1 != c {
        var before := Others(c, i - 1);
        assert Others(c, i) == before + 1;
        assert amount * (before + 1) == amount * before + amount;
      }
    }
  }

  datatype MoneyCard =
    | CanadaGold | FriendMoney | BakeSale | Jackpot | MrMonopolyTax
    | WheelFortune | ConcertTickets | SpareMoney | PartyMoney | HugeApology

  /** A fee to the bank, clamped to the payer's cash. */
  function PayFee(cash: seq<int>, c: nat, fee: int): (r: seq<int>)
    requires c < |cash|
  {
    cash[c := cash[c] - Min(fee, cash[c])]
  }

  /** A clamped fee takes exactly the clamped amount out of the game. */
  lemma FeeBalance(cash: seq<int>, c: nat, fee: int)
    requires c < |cash|
    ensures Sum(PayFee(cash, c, fee)) == Sum(cash) - Min(fee, cash[c])
  {
    SumSet(cash, c, cash[c] - Min(fee, cash[c]));
  }

  /** The effect of a money-transfer card drawn by the player in seat c on the cash of all players. */
  function CardEffect(card: MoneyCard, cash: seq<int>, c: nat): (r: seq<int>)
    requires c < |cash|
    ensures |r| == |cash|
  {
    match card
    case CanadaGold => cash[c := cash[c] + 100]
    case FriendMoney => PayFee(cash, c, 25)
    case BakeSale => cash[c := cash[c] + 10]
    case Jackpot => cash[c := cash[c] + 200]
    case MrMonopolyTax => PayFee(cash, c, 100)
    case WheelFortune => cash[c := cash[c] + 50]
    case ConcertTickets => PayFee(cash, c, 50)
    case SpareMoney => Round(cash, c, 10, Collect, |cash|)
    case PartyMoney => Round(cash, c, 25, Collect, |cash|)
    case HugeApology => Round(cash, c, 50, PayOut, |cash|)
  }

  /** The money the card brings into the game (a gain), takes out (a clamped fee) or moves (0). */
  function CardDelta(card: MoneyCard, money: int): int
  {
    match card
    case CanadaGold => 100
    case FriendMoney => -Min(25, money)
    case BakeSale => 10
    case Jackpot => 200
    case MrMonopolyTax => -Min(100, money)
    case WheelFortune => 50
    case ConcertTickets => -Min(50, money)
    case SpareMoney => 0
    case PartyMoney => 0
    case HugeApology => 0
  }

  /** A card changes the total cash by exactly its delta: transfers between players conserve it. */
  lemma CardMoneyBalance(card: MoneyCard, cash: seq<int>, c: nat)
    requires c < |cash|
    ensures Sum(CardEffect(card, cash, c)) == Sum(cash) + CardDelta(card, cash[c])
  {
    match card
    case SpareMoney => RoundConserves(cash, c, 10, Collect, |cash|);
    case PartyMoney => RoundConserves(cash, c, 25, Collect, |cash|);
    case HugeApology => RoundConserves(cash, c, 50, PayOut, |cash|);
    case CanadaGold => SumSet(cash, c, cash[c] + 100);
    case BakeSale => SumSet(cash, c, cash[c] + 10);
    case Jackpot => SumSet(cash, c, cash[c] + 200);
    case WheelFortune => SumSet(cash, c, cash[c] + 50);
    case FriendMoney => FeeBalance(cash, c, 25);
    case MrMonopolyTax => FeeBalance(cash, c, 100);
    case ConcertTickets => FeeBalance(cash, c, 50);
  }

  /** With nobody in debt, no money card puts anybody in debt. */
  lemma CardKeepsCashNonNegative(card: MoneyCard, cash: seq<int>, c: nat)
    requires c < |cash|
    requires forall k :: 0 <= k < |cash| ==> cash[k] >= 0
    ensures forall k :: 0 <= k < |cash| ==> CardEffect(card, cash, c)[k] >= 0
  {
    match card
    case SpareMoney => RoundKeepsNonNegative(cash, c, 10, Collect, |cash|);
    case PartyMoney => RoundKeepsNonNegative(cash, c, 25, Collect, |cash|);
    case HugeApology => RoundKeepsNonNegative(cash, c, 50, PayOut, |cash|);
    case _ =>
  }

  /** The players' cash in seating order. */
  function Cash(players: seq<Player>): (r: seq<int>)
    reads players
    ensures |r| == |players|
    ensures forall k :: 0 <= k < |players| ==> r[k] == players[k].money
  {
    if players == [] then []
    else Cash(players[..|players| - 1]) + [players[|players| - 1].money]
  }

  /** friend_money, mr_monopoly_tax, concert_tickets: pay the fee to the bank, or all one's cash if less. */
  method PayClamped(player: Player, fee: int)
    modifies player`money
    ensures player.money == old(player.money) - Min(fee, old(player.money))
  {
    var amount := Min(fee, player.money);
    var paid := player.Pay(amount, null);
  }

  /**
   * spare_money, party_money (Collect) and huge_apology (PayOut): the card
   * visits the players in seating order, skipping the drawer, and each
   * visited pair settles one clamped payment. The total is what the drawer
   * collected or paid.
   */
  method PaymentRound(players: seq<Player>, c: nat, amount: int, dir: Direction) returns (total: int)
    requires NoDuplicates(players) && c < |players|
    modifies (set p: Player | p in players)`money
    ensures forall k :: 0 <= k < |players| ==> players[k].money == Round(old(Cash(players)), c, amount, dir, |players|)[k]
    ensures dir == Collect ==> total == players[c].money - old(players[c].money)
    ensures dir == PayOut ==> total == old(players[c].money) - players[c].money
  {
    ghost var start := Cash(players);
    var drawer := players[c];
    total := 0;
    var i := 0;
    while i < |players|
      invariant 0 <= i <= |players|
      invariant forall k :: 0 <= k < |players| ==> players[k].money == Round(start, c, amount, dir, i)[k]
      invariant dir == Collect ==> total == drawer.money - start[c]
      invariant dir == PayOut ==> total == start[c] - drawer.money
    {
      var other := players[i];
      if other != drawer {
        ghost var s := Round(start, c, amount, dir, i);
        if dir == Collect {
          var paid := Min(amount, other.money);
          var ok := other.Pay(paid, null);
          drawer.Receive(paid);
          total := total + paid;
          assert Round(start, c, amount, dir, i + 1) == Transfer(s, i, c, amount);
        } else {
          var paid := Min(amount, drawer.money);
          var ok := drawer.Pay(paid, other);
          total := total + paid;
          assert Round(start, c, amount, dir, i + 1) == Transfer(s, c, i, amount);
        }
      }
      i := i + 1;
    }
  }

  /** handle_chance's money-transfer branch for the player in seat c. */
  method ApplyMoneyCard(card: MoneyCard, players: seq<Player>, c: nat)
    requires NoDuplicates(players) && c < |players|
    modifies (set p: Player | p in players)`money
    ensures forall k :: 0 <= k < |players| ==> players[k].money == CardEffect(card, old(Cash(players)), c)[k]
  {
    var player := players[c];
    match card {
      case CanadaGold => player.Receive(100);
      case FriendMoney => PayClamped(player, 25);
      case BakeSale => player.Receive(10);
      case Jackpot => player.Receive(200);
      case MrMonopolyTax => PayClamped(player, 100);
      case WheelFortune => player.Receive(50);
      case ConcertTickets => PayClamped(player, 50);
      case SpareMoney => var t := PaymentRound(players, c, 10, Collect);
      case PartyMoney => var t := PaymentRound(players, c, 25, Collect);
      case HugeApology => var t := PaymentRound(players, c, 50, PayOut);
    }
  }
}
