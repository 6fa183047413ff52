/**
 * Turn sequencing: the roll button (jail fee, the capped roll, three doubles,
 * the GO bonus), the choice of the next player, bankruptcy and the win, and
 * the chest and chance cards drawn on landing.
 */
module Turns {
  import opened Economy
  import opened Lists
  import opened Dice
  import opened Market
  import opened Cards
  import Auctions

  /** The jail space ("the Arctic"), the fee to leave it and the bonus for passing GO. */
  const JailPosition: int := 10
  const JailFee: int := 50
  const GoBonus: int := 200

  /** A move of roll spaces from pos wraps past GO exactly when the new position is below the roll. */
  lemma PassingGo(pos: int, roll: int)
    requires 0 <= pos < BoardSize && 1 <= roll <= BoardSize
    ensures (pos + roll) % BoardSize < roll <==> pos + roll >= BoardSize
  {
    if pos + roll < BoardSize {
      assert (pos + roll) % BoardSize == pos + roll;
    } else {
      assert (pos + roll) % BoardSize == pos + roll - BoardSize;
    }
  }

  /**
   * next_turn as written: an extra turn keeps the seat, a lost turn passes
   * it, and a double keeps it unless the dice's double counter has reached 3.
   */
  function NextSeatAsWritten(t: nat, n: nat, extra: bool, lose: bool, isDouble: bool, doubleCount: int): (r: nat)
    requires t < n
    ensures r == t || r == Auctions.NextIndex(t, n)
    ensures extra ==> r == t
  {
    if extra then t
    else if lose then Auctions.NextIndex(t, n)
    else if isDouble && !(doubleCount >= 3) then t
    else Auctions.NextIndex(t, n)
  }

  /**
   * The dice's double counter is never updated and stays 0, so after a third
   * double, which sends the roller to jail, the jailed roller keeps the turn.
   */
  lemma JailedRollerKeepsTurnAsWritten(t: nat, n: nat)
    requires t < n
    ensures NextSeatAsWritten(t, n, false, false, true, 0) == t
  {
  }

  /**
   * The seat that plays next: the same seat on an extra turn or after a
   * double that left the roller free, otherwise the next seat round the
   * table. A lost turn is an ordinary pass to the next seat.
   */
  function NextSeat(t: nat, n: nat, extra: bool, lose: bool, isDouble: bool, jailed: bool): (r: nat)
    requires t < n
    ensures r < n
    ensures r == t || r == Auctions.NextIndex(t, n)
    ensures n > 1 ==> (r == t <==> extra || (!lose && isDouble && !jailed))
  {
    Auctions.NextInRange(t, n);
    if extra then t
    else if lose then Auctions.NextIndex(t, n)
    else if isDouble && !jailed then t
    else Auctions.NextIndex(t, n)
  }

  /** With more than one player, a roller the dice sent to jail never keeps the turn through the double. */
  lemma JailedRollerPasses(t: nat, n: nat)
    requires t < n && n > 1
    ensures NextSeat(t, n, false, false, true, true) == Auctions.NextIndex(t, n) != t
  {
    Auctions.NextInRange(t, n);
  }

  /** A lost turn moves the turn exactly as an ordinary turn without a double does. */
  lemma LoseTurnIsOrdinaryPass(t: nat, n: nat, isDouble: bool, jailed: bool)
    requires t < n
    ensures NextSeat(t, n, false, true, isDouble, jailed) == NextSeat(t, n, false, false, false, jailed)
  {
  }

  /**
   * handle_bankruptcy as written removes the player but leaves the turn
   * index where it was: when the player in the last seat goes bankrupt on
   * their turn, the index |s| - 1 left in place is not below the new number
   * of players, so it names no seat.
   */
  lemma BankruptLastSeatAsWritten(s: seq<Player>)
    requires NoDuplicates(s) && |s| >= 1
    ensures RemoveFirst(s, s[|s| - 1]) == s[..|s| - 1]
    ensures |s| - 1 >= |RemoveFirst(s, s[|s| - 1])|
  {
    IndexOfDistinct(s, |s| - 1);
  }

  /**
   * The turn index after removing seat r of n while seat t has the turn:
   * seats past the removed one shift down by one, and when the removed seat
   * had the turn, the seat that followed it takes the turn.
   */
  function SeatAfterRemoval(t: nat, r: nat, n: nat): (s: nat)
    requires t < n && r < n && n >= 2
    ensures s < n - 1
  {
    if r < t then t - 1 else if t < n - 1 then t else 0
  }

  /** Without duplicates, the first occurrence of the element at r is at r. */
  lemma IndexOfDistinct<T>(s: seq<T>, r: nat)
    requires NoDuplicates(s) && r < |s|
    ensures IndexOf(s, s[r]) == r
  {
  }

  /** Deleting seat r moves the turn to the seat SeatAfterRemoval names. */
  lemma DeletedSeat<T>(s: seq<T>, t: nat, r: nat)
    requires |s| >= 2 && t < |s| && r < |s|
    ensures r != t ==> (s[..r] + s[r + 1..])[SeatAfterRemoval(t, r, |s|)] == s[t]
    ensures r == t ==> (s[..r] + s[r + 1..])[SeatAfterRemoval(t, r, |s|)] == s[Auctions.NextIndex(t, |s|)]
  {
    var u := SeatAfterRemoval(t, r, |s|);
    DeleteShifts(s, r, u);
    Auctions.NextInRange(t, |s|);
  }

  /**
   * After the removal the same player keeps the turn, or, when the removed
   * player had it, the player who sat after them round the table.
   */
  lemma RemovalKeepsTurnOrder<T>(s: seq<T>, t: nat, r: nat)
    requires NoDuplicates(s) && |s| >= 2 && t < |s| && r < |s|
    ensures RemoveFirst(s, s[r]) == s[..r] + s[r + 1..]
    ensures r != t ==> RemoveFirst(s, s[r])[SeatAfterRemoval(t, r, |s|)] == s[t]
    ensures r == t ==> RemoveFirst(s, s[r])[SeatAfterRemoval(t, r, |s|)] == s[Auctions.NextIndex(t, |s|)]
  {
    IndexOfDistinct(s, r);
    DeletedSeat(s, t, r);
  }

  /** The drawable chance cards, with their random draws taken as inputs. */
  datatype ChanceCard =
    | MarketCard(kind: EffectKind, amount: int, turns: int)
    | MoneyTransfer(card: MoneyCard)
    | HackathonLaptop
    | EvaporatorChance
    | CoinFlipChance
    | CoinBagChance

  /** A chance card whose random draws lie in the source's ranges. */
  predicate DrawnInRange(card: ChanceCard)
  {
    card.MarketCard? ==>
      && 2 <= card.turns <= 4
      && (card.kind == Inflation ==> 50 <= card.amount <= 100)
      && (card.kind == MarketDrop ==> 25 <= card.amount <= 50)
  }

  /** Some property of the board carries a building and has an owner. */
  predicate SomeBuilding(board: seq<Property>)
    reads board
  {
    exists k :: 0 <= k < |board| && (board[k].houses > 0 || board[k].hotel) && board[k].owner != null
  }

  /** The turn state of the game. */
  class Game {
    var players: seq<Player>
    var currentIndex: nat
    var rollValue: int
    var isDouble: bool
    var diceRolled: bool
    var justPassedGo: bool
    var extraTurn: bool
    var loseTurn: bool
    var waitingForAction: bool
    var hackathonPending: bool
    var evaporatorPending: bool
    var gameOver: bool
    var winner: Player?
    const dice: Dice
    const market: MarketEffects
    const chest: ChestDeck
    const board: seq<Property>

    /**
     * The players are distinct and on the board, the turn index names one
     * of them, and the dice's double counter still holds its initial 0.
     */
    ghost predicate Valid()
      reads this, players, dice
    {
      && NoDuplicates(players)
      && (players == [] || currentIndex < |players|)
      && (forall k :: 0 <= k < |players| ==> 0 <= players[k].position < BoardSize)
      && dice.doubleCount == 0
    }

    /** setup_game: n fresh players, each with the starting money on GO; the first has the turn. */
    constructor (n: nat, props: seq<Property>)
      requires 1 <= n <= 4
      ensures Valid()
      ensures |players| == n && currentIndex == 0 && board == props
      ensures forall k :: 0 <= k < n ==> players[k].money == StartingMoney && players[k].position == 0
      ensures !diceRolled && !isDouble && !extraTurn && !loseTurn && waitingForAction && !gameOver && winner == null
      ensures fresh(dice) && fresh(market) && fresh(chest)
    {
      var ps: seq<Player> := [];
      while |ps| < n
        invariant |ps| <= n
        invariant NoDuplicates(ps)
        invariant forall k :: 0 <= k < |ps| ==> ps[k].money == StartingMoney && ps[k].position == 0
      {
        var p := new Player();
        ps := ps + [p];
      }
      players := ps;
      currentIndex := 0;
      rollValue := 0;
      isDouble := false;
      diceRolled := false;
      justPassedGo := false;
      extraTurn := false;
      loseTurn := false;
      waitingForAction := true;
      hackathonPending := false;
      evaporatorPending := false;
      gameOver := false;
      winner := null;
      dice := new Dice();
      market := new MarketEffects();
      chest := new ChestDeck();
      board := props;
    }

    /**
     * The roll button for the player whose turn it is: a jailed player tries
     * to pay the fee, anyone else rolls. The die faces are the random draws,
     * taken as inputs.
     */
    method RollButton(die1: int, die2: int)
      requires Valid() && players != [] && !diceRolled && waitingForAction
      requires die1 in FaceValues(dice.diceType) && die2 in FaceValues(dice.diceType)
      modifies this`rollValue, this`isDouble, this`diceRolled, this`justPassedGo, dice`rollResult
      modifies {players[currentIndex]}`money, {players[currentIndex]}`position, {players[currentIndex]}`inJail
      modifies {players[currentIndex]}`jailTurns, {players[currentIndex]}`consecutiveDoubles, {players[currentIndex]}`nextRollMaxOne
      ensures Valid()
      ensures diceRolled <==> !old(players[currentIndex].inJail)
      ensures old(players[currentIndex].inJail) ==>
        && players[currentIndex].money == old(players[currentIndex].money) - (if old(players[currentIndex].money) >= JailFee then JailFee else 0)
        && (players[currentIndex].inJail <==> old(players[currentIndex].money) < JailFee)
        && players[currentIndex].jailTurns == (if old(players[currentIndex].money) >= JailFee then 0 else old(players[currentIndex].jailTurns))
        && players[currentIndex].position == old(players[currentIndex].position)
        && rollValue == old(rollValue) && isDouble == old(isDouble) && justPassedGo == old(justPassedGo)
      ensures !old(players[currentIndex].inJail) ==>
        && !players[currentIndex].nextRollMaxOne
        && rollValue == (if old(players[currentIndex].nextRollMaxOne) then 1 else die1 + die2)
        && (isDouble <==> die1 == die2 && !old(players[currentIndex].nextRollMaxOne))
      ensures !old(players[currentIndex].inJail) && isDouble && old(players[currentIndex].consecutiveDoubles) + 1 >= 3 ==>
        && players[currentIndex].position == JailPosition && players[currentIndex].inJail
        && players[currentIndex].consecutiveDoubles == 0 && players[currentIndex].money == old(players[currentIndex].money)
      ensures !old(players[currentIndex].inJail) && !(isDouble && old(players[currentIndex].consecutiveDoubles) + 1 >= 3) ==>
        && players[currentIndex].position == (old(players[currentIndex].position) + rollValue) % BoardSize
        && !players[currentIndex].inJail
        && players[currentIndex].consecutiveDoubles == (if isDouble then old(players[currentIndex].consecutiveDoubles) + 1 else 0)
        && (justPassedGo <==> old(players[currentIndex].position) + rollValue >= BoardSize)
        && players[currentIndex].money == old(players[currentIndex].money) + (if justPassedGo then GoBonus else 0)
    {
      var player := players[currentIndex];
      if player.inJail {
        PayJailFee(player);
      } else {
        RollFor(player, die1, die2);
      }
    }

    /**
     * The jail branch of the roll button: the player goes free by paying the
     * fee when the cash covers it, and otherwise nothing changes.
     */
    method PayJailFee(player: Player)
      modifies player`money, player`inJail, player`jailTurns
      ensures player.money == old(player.money) - (if old(player.money) >= JailFee then JailFee else 0)
      ensures player.inJail <==> old(player.inJail) && old(player.money) < JailFee
      ensures old(player.money) >= JailFee ==> player.jailTurns == 0
      ensures old(player.money) < JailFee ==> player.jailTurns == old(player.jailTurns)
    {
      var paid := player.Pay(JailFee, null);
      if paid {
        player.inJail := false;
        player.jailTurns := 0;
      }
    }

    /**
     * The rolling branch of the roll button: a pending cap turns the roll
     * into 1 and no double; a third double in a row sends the roller to
     * jail; otherwise the token moves and the GO bonus is paid exactly when
     * the move wraps past GO.
     */
    method RollFor(player: Player, die1: int, die2: int)
      requires 0 <= player.position < BoardSize && !player.inJail
      requires die1 in FaceValues(dice.diceType) && die2 in FaceValues(dice.diceType)
      modifies this`rollValue, this`isDouble, this`diceRolled, this`justPassedGo, dice`rollResult
      modifies player`money, player`position, player`inJail, player`consecutiveDoubles, player`nextRollMaxOne
      ensures 0 <= player.position < BoardSize
      ensures diceRolled && !player.nextRollMaxOne
      ensures rollValue == (if old(player.nextRollMaxOne) then 1 else die1 + die2)
      ensures isDouble <==> die1 == die2 && !old(player.nextRollMaxOne)
      ensures isDouble && old(player.consecutiveDoubles) + 1 >= 3 ==>
        && player.position == JailPosition && player.inJail
        && player.consecutiveDoubles == 0 && player.money == old(player.money)
      ensures !(isDouble && old(player.consecutiveDoubles) + 1 >= 3) ==>
        && player.position == (old(player.position) + rollValue) % BoardSize
        && !player.inJail
        && player.consecutiveDoubles == (if isDouble then old(player.consecutiveDoubles) + 1 else 0)
        && (justPassedGo <==> old(player.position) + rollValue >= BoardSize)
        && player.money == old(player.money) + (if justPassedGo then GoBonus else 0)
    {
      var roll, dbl := dice.Roll(die1, die2);
      rollValue, isDouble := roll, dbl;
      if player.nextRollMaxOne {
        rollValue := Min(rollValue, 1);
        isDouble := false;
        player.nextRollMaxOne := false;
      }
      diceRolled := true;
      if isDouble {
        player.consecutiveDoubles := player.consecutiveDoubles + 1;
      } else {
        player.consecutiveDoubles := 0;
      }
      if isDouble && player.consecutiveDoubles >= 3 {
        player.position := JailPosition;
        player.inJail := true;
        player.consecutiveDoubles := 0;
      } else {
        var oldPos := player.position;
        var newPos := player.Move(rollValue);
        PassingGo(oldPos, rollValue);
        justPassedGo := newPos < rollValue;
        if justPassedGo {
          player.Receive(GoBonus);
        }
      }
    }

    /**
     * next_turn: the market effects run for the turn, then an extra turn
     * keeps the seat and is used up, a lost turn passes the seat and is used
     * up, a double keeps the seat unless the roll sent the player to jail,
     * and otherwise the next seat plays with the dice not yet rolled.
     */
    method NextTurn()
      requires Valid() && players != [] && Distinct(board)
      modifies this`currentIndex, this`extraTurn, this`loseTurn, this`diceRolled
      modifies market`active, (set p: Property | p in board)`stockValue
      ensures Valid()
      ensures currentIndex == NextSeat(old(currentIndex), |players|, old(extraTurn), old(loseTurn), isDouble, old(players[currentIndex].inJail))
      ensures !extraTurn && (loseTurn <==> old(extraTurn) && old(loseTurn))
      ensures diceRolled == (old(diceRolled) && (old(extraTurn) || old(loseTurn) || (isDouble && !old(players[currentIndex].inJail))))
      ensures market.active == Decay(old(market.active))
      ensures forall k :: 0 <= k < |board| ==> board[k].stockValue == StockAfter(old(board[k].stockValue), old(market.active))
    {
      market.ApplyMarketEffects(board);
      var n := |players|;
      if extraTurn {
        extraTurn := false;
        return;
      }
      if loseTurn {
        loseTurn := false;
        currentIndex := (currentIndex + 1) % n;
        return;
      }
      if isDouble && !players[currentIndex].inJail {
        return;
      }
      currentIndex := (currentIndex + 1) % n;
      diceRolled := false;
    }

    /**
     * The main loop's step once a roll is done: while the dice have been
     * rolled and the game waits for the player, the turn ends (next_turn)
     * and the dice are cleared, so whoever has the seat next rolls again.
     */
    method EndTurn()
      requires Valid() && players != [] && Distinct(board)
      modifies this`currentIndex, this`extraTurn, this`loseTurn, this`diceRolled, this`waitingForAction
      modifies market`active, (set p: Property | p in board)`stockValue
      ensures Valid()
      ensures old(diceRolled && waitingForAction) ==>
        && currentIndex == NextSeat(old(currentIndex), |players|, old(extraTurn), old(loseTurn), isDouble, old(players[currentIndex].inJail))
        && !extraTurn && (loseTurn <==> old(extraTurn) && old(loseTurn))
        && !diceRolled && waitingForAction
        && market.active == Decay(old(market.active))
        && (forall k :: 0 <= k < |board| ==> board[k].stockValue == StockAfter(old(board[k].stockValue), old(market.active)))
      ensures !old(diceRolled && waitingForAction) ==>
        && currentIndex == old(currentIndex) && extraTurn == old(extraTurn) && loseTurn == old(loseTurn)
        && diceRolled == old(diceRolled) && waitingForAction == old(waitingForAction)
        && market.active == old(market.active)
        && (forall k :: 0 <= k < |board| ==> board[k].stockValue == old(board[k].stockValue))
    {
      if diceRolled && waitingForAction {
        NextTurn();
        diceRolled := false;
        waitingForAction := true;
      }
    }

    /**
     * handle_bankruptcy: the player leaves the table; the turn stays with
     * the same player, or passes to the one who followed the bankrupt
     * player; with one player left the game is over and that player wins.
     */
    method HandleBankruptcy(p: Player)
      requires Valid() && p in players
      modifies this`players, this`currentIndex, this`gameOver, this`winner
      ensures Valid()
      ensures players == RemoveFirst(old(players), p) && p !in players
      ensures |players| == |old(players)| - 1
      ensures old(players[currentIndex]) != p ==> players[currentIndex] == old(players[currentIndex])
      ensures old(players[currentIndex]) == p && players != [] ==>
        players[currentIndex] == old(players[Auctions.NextIndex(currentIndex, |players|)])
      ensures |players| == 1 ==> gameOver && winner == players[0]
      ensures |players| != 1 ==> gameOver == old(gameOver) && winner == old(winner)
    {
      var ps := players;
      var r := IndexOf(ps, p);
      var n := |ps|;
      var q := RemoveFirst(ps, p);
      RemoveFirstFromDistinct(ps, p);
      assert q == ps[..r] + ps[r + 1..];
      forall k | 0 <= k < |q|
        ensures 0 <= q[k].position < BoardSize
      {
        DeleteShifts(ps, r, k);
      }
      if n >= 2 {
        RemovalKeepsTurnOrder(ps, currentIndex, r);
        currentIndex := SeatAfterRemoval(currentIndex, r, n);
      } else {
        currentIndex := 0;
      }
      players := q;
      if |players| == 1 {
        gameOver := true;
        winner := players[0];
      }
    }

    /**
     * force_bankruptcy_if_needed: a running game whose current player is in
     * debt sets that player's cash to 0 and removes them; otherwise nothing
     * changes.
     */
    method ForceBankruptcyIfNeeded()
      requires Valid()
      modifies this`players, this`currentIndex, this`gameOver, this`winner, (set q: Player | q in players)`money
      ensures Valid()
      ensures old(gameOver) || old(players) == [] || old(players[currentIndex].money) >= 0 ==>
        && players == old(players) && currentIndex == old(currentIndex)
        && gameOver == old(gameOver) && winner == old(winner)
        && (forall k :: 0 <= k < |players| ==> players[k].money == old(players[k].money))
      ensures !old(gameOver) && old(players) != [] && old(players[currentIndex].money) < 0 ==>
        && old(players[currentIndex]).money == 0
        && players == RemoveFirst(old(players), old(players[currentIndex]))
        && old(players[currentIndex]) !in players
        && (players != [] ==> players[currentIndex] == old(players[Auctions.NextIndex(currentIndex, |players|)]))
        && (|players| == 1 ==> gameOver && winner == players[0])
        && (|players| != 1 ==> gameOver == old(gameOver) && winner == old(winner))
        && (forall q :: q in players ==> q.money == old(q.money))
    {
      if gameOver || players == [] {
        return;
      }
      var current := players[currentIndex];
      if current.money < 0 {
        current.money := 0;
        HandleBankruptcy(current);
      }
    }

    /**
     * handle_item_chest: the front card of the chest deck is drawn and goes
     * to the back. The capped-dice card caps the player's next roll, the
     * evaporator card does nothing, the coin flip (its outcome an input)
     * grants an extra turn or costs a turn, and the coin bag pays a tenth of
     * the player's cash rounded toward zero.
     */
    method HandleItemChest(player: Player, heads: bool) returns (card: ChestCard)
      requires chest.cards != []
      modifies chest, this`extraTurn, this`loseTurn, player`nextRollMaxOne, player`money
      ensures card == old(chest.cards[0]) && chest.cards == Rotate(old(chest.cards))
      ensures player.nextRollMaxOne == (old(player.nextRollMaxOne) || card == RiggedDice)
      ensures extraTurn == (old(extraTurn) || (card == CoinFlip && heads))
      ensures loseTurn == (old(loseTurn) || (card == CoinFlip && !heads))
      ensures player.money == old(player.money) + (if card == CoinBag then CoinBagBonus(old(player.money)) else 0)
    {
      card := chest.Draw();
      match card {
        case RiggedDice => player.nextRollMaxOne := true;
        case Evaporator =>
        case CoinFlip =>
          if heads {
            extraTurn := true;
          } else {
            loseTurn := true;
          }
        case CoinBag =>
          var bonus := CoinBagBonus(player.money);
          player.Receive(bonus);
      }
    }

    /**
     * handle_chance for the player whose turn it is: a market card registers
     * its effect and applies it at once, a money card settles its payments,
     * the hackathon card waits for the player to pick a space, the
     * evaporator card waits for a pick only if some owned property carries a
     * building, and the coin cards act as their chest counterparts.
     */
    method HandleChance(card: ChanceCard, heads: bool)
      requires Valid() && players != [] && Distinct(board) && DrawnInRange(card)
      modifies this`extraTurn, this`loseTurn, this`waitingForAction, this`hackathonPending, this`evaporatorPending
      modifies market`active, (set p: Property | p in board)`stockValue, (set q: Player | q in players)`money
      ensures card.MarketCard? ==>
        && market.active == old(market.active) + [Effect(card.kind, card.amount, card.turns)]
        && forall k :: 0 <= k < |board| ==>
             board[k].stockValue == UpdateStock(old(board[k].stockValue), SignedPercent(Effect(card.kind, card.amount, card.turns)))
      ensures !card.MarketCard? ==>
        && market.active == old(market.active)
        && forall k :: 0 <= k < |board| ==> board[k].stockValue == old(board[k].stockValue)
      ensures card.MoneyTransfer? ==>
        forall k :: 0 <= k < |players| ==> players[k].money == CardEffect(card.card, old(Cash(players)), currentIndex)[k]
      ensures card == CoinBagChance ==>
        && players[currentIndex].money == old(players[currentIndex].money) + CoinBagBonus(old(players[currentIndex].money))
        && forall k :: 0 <= k < |players| && k != currentIndex ==> players[k].money == old(players[k].money)
      ensures !card.MoneyTransfer? && card != CoinBagChance ==>
        forall k :: 0 <= k < |players| ==> players[k].money == old(players[k].money)
      ensures hackathonPending == (old(hackathonPending) || card == HackathonLaptop)
      ensures evaporatorPending == (old(evaporatorPending) || (card == EvaporatorChance && old(SomeBuilding(board))))
      ensures waitingForAction == (old(waitingForAction) && !(card == HackathonLaptop || (card == EvaporatorChance && old(SomeBuilding(board)))))
      ensures extraTurn == (old(extraTurn) || (card == CoinFlipChance && heads))
      ensures loseTurn == (old(loseTurn) || (card == CoinFlipChance && !heads))
    {
      var player := players[currentIndex];
      match card {
        case MarketCard(kind, amount, turns) =>
          market.Register(kind, amount, turns, board);
        case MoneyTransfer(m) =>
          ApplyMoneyCard(m, players, currentIndex);
        case HackathonLaptop =>
          hackathonPending := true;
          waitingForAction := false;
        case EvaporatorChance =>
          if SomeBuilding(board) {
            evaporatorPending := true;
            waitingForAction := false;
          }
        case CoinFlipChance =>
          if heads {
            extraTurn := true;
          } else {
            loseTurn := true;
          }
        case CoinBagChance =>
          var bonus := CoinBagBonus(player.money);
          player.Receive(bonus);
      }
    }

    /**
     * The hackathon pick: the waiting player jumps to the chosen space
     * (1 to 12) and the game stops waiting. The landing that follows is
     * not part of this model.
     */
    method HackathonPick(player: Player, n: int)
      requires hackathonPending && 1 <= n <= 12
      modifies player`position, this`hackathonPending, this`waitingForAction
      ensures player.position == n && 0 <= player.position < BoardSize
      ensures !hackathonPending && waitingForAction
    {
      player.position := n % BoardSize;
      hackathonPending := false;
      waitingForAction := true;
    }
  }
}
