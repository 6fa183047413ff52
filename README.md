# A verified model of a Monopoly-style economic engine

This project models the game engine of `main2.py` in Dafny. The engine is a
Monopoly-style board game on 40 spaces, which the code plays under a
Canadian theme. The engine is fully sequential; its pygame front end is not
modelled. The model covers:

- **Property ledger and bank pools** (`economy.dfy`, module `Economy`).
  - The bank's finite supplies of 32 houses and 12 hotels.
  - Building, selling, mortgaging and evaporating buildings on a property.
  - The stock value and its floor of 10.
  - Integer rent for train stations and utilities.
  - Player cash and token movement.
- **Building rules and the management buttons** (`holdings.dfy`, module `Holdings`).
  - Full colour set and even building.
  - Buying a house or a hotel.
  - Buying a pending property.
  - Selling a building or the property.
  - The mortgage toggle.
- **Trade settlement** (`trade.dfy`, module `Trade`).
- **The auction state machine** (`auction.dfy`, module `Auctions`).
- **Market effects** (`market.dfy`, module `Market`): timed percentage effects applied once per turn.
- **The chest deck and the money-transfer cards** (`cards.dfy`, module `Cards`).
- **Turn sequencing** (`turns.dfy`, module `Turns`).
  - The roll button: the jail fee, the capped roll, three doubles and the GO bonus.
  - The choice of the next player.
  - Bankruptcy and the win.
  - Chest and chance dispatch.
- **The dice model** (`dice.dfy`, module `Dice`): the exact distribution of two dice as counts out of 36.
- **List helpers** (`lists.dfy`, module `Lists`): Python's `list.remove` and the filtering comprehension the source uses, with their properties.

Objects whose fields the source updates in place are classes:
- `Bank` holds the global `HOUSE_POOL` and `HOTEL_POOL`.
- `Property`, `Player`, `Dice` and `ChestDeck` mirror the source's objects of the same names.
- `MarketEffects` holds the global `active_market_effects`.
- `Auction` holds the auction fields of the game.
- `Game` holds the turn fields of the game.

Pure rules are functions: costs, rent, the colour-set test, the distribution, the turn order and the card effects on a cash vector. Random draws are method parameters. These are the die faces, the chance card, the market percentage and duration, and the coin flip.

Three behaviours of the code that differ from the usual rules of the game:
- A lost turn (`lose_turn`) passes the turn to the next player. It does not skip to the player after next (main2.py:1161-1164).
- Nothing stops building on a mortgaged property, because `try_buy_house` does not look at the mortgage flag (main2.py:1041-1065). So "mortgaged implies no buildings" is not an invariant of the model.
- The money cards clamp every payment to the payer's cash. A payer whose cash is already negative therefore pays a negative amount (main2.py:807-838). The model computes exactly that.

## Model

| member | source | states |
|---|---|---|
| Economy.RoundHalfEven | main2.py:124 | the result is the integer nearest n/d, and on a tie the even one (Python's `round`) |
| Economy.BaseBuildCost | main2.py:117-118 | the base build cost is a quarter of the price rounded down, but at least 50 |
| Economy.HouseCost | main2.py:120-124 | the cost of the (k+1)-th house is the base cost times 1.3^k rounded to nearest, and never below the base cost |
| Economy.HotelCost | main2.py:126-130 | the hotel cost is the base cost times 1.3^4 times 2 rounded to nearest, at least five times the base cost |
| Economy.MortgageValue | main2.py:194-195 | the mortgage value is half the price rounded down |
| Economy.UnmortgageCost | main2.py:197-198 | unmortgaging costs the mortgage value plus ten per cent rounded to nearest, never less than the mortgage value |
| Economy.TruncDiv | main2.py:191 | division rounds toward zero for both signs, as `int()` of a quotient does |
| Economy.UpdateStock | main2.py:190-192 | the new stock value is never below 10; above the floor it is the scaled value truncated; the floor is hit exactly when the scaled value is below 11 |
| Economy.RiseNeverLowers | main2.py:190-192 | a non-negative percentage never lowers a stock value that is at least the floor |
| Economy.DropNeverRaises | main2.py:190-192 | a non-positive percentage never raises a stock value that is at least the floor |
| Economy.Bank.constructor | main2.py:87-88 | the pools start at 32 houses and 12 hotels |
| Economy.Property.constructor | main2.py:104-115 | a new property is unowned, unbuilt, unmortgaged, and its stock value is its price |
| Economy.Property.NextHouseCost | main2.py:120-124 | a house price exists exactly for a street with no hotel and fewer than 4 houses, and it is the cost of the next house |
| Economy.Property.NextHotelCost | main2.py:126-130 | a hotel price exists exactly for a street with no hotel and exactly 4 houses |
| Economy.Property.BuildHouse | main2.py:172-178 | succeeds exactly on a street with under 4 houses, no hotel and a non-empty pool; it then moves one house from pool to street; otherwise nothing changes; pool plus houses is conserved and the building invariant holds |
| Economy.Property.BuildHotel | main2.py:180-188 | succeeds exactly with 4 houses, no hotel and a hotel in the pool; it then leaves a hotel and 0 houses, takes one hotel and returns 4 houses; otherwise nothing changes |
| Economy.Property.UpdateStockValue | main2.py:190-192 | the stock value becomes the scaled, truncated, floored value, and it is at least 10 |
| Economy.Property.Mortgage | main2.py:200-206 | refused (None) with nothing changed when already mortgaged or built on; otherwise sets the flag and returns half the price |
| Economy.Property.Unmortgage | main2.py:208-213 | refused (None) unless mortgaged; otherwise clears the flag and returns the unmortgage cost |
| Economy.Property.SellHouse | main2.py:215-234 | selling a house returns it to the pool for half its cost; selling a hotel restores 4 houses for half the hotel cost when the pool has 4 houses, and otherwise pays 0 and changes nothing; both pools are conserved |
| Economy.Property.BankSaleValue | main2.py:236-242 | a sale price exists exactly for an unbuilt, unmortgaged property, and it is half the price rounded down |
| Economy.Property.Evaporate | main2.py:2003-2013 | the evaporator removes a hotel (its unit back to the hotel pool, no houses back), or else one house back to the house pool |
| Economy.Player.constructor | main2.py:247-258 | a new player stands on GO with 500, no properties, out of jail, no doubles, no roll cap |
| Economy.Player.Move | main2.py:268-270 | the new position is the old one plus the spaces, modulo 40, and lies on the board |
| Economy.Player.Pay | main2.py:272-278 | the payment succeeds exactly when the cash covers it; the payer loses exactly the amount and the recipient, if any, gains it; payer plus recipient is conserved; a failure changes nobody's cash |
| Economy.Player.Receive | main2.py:280-281 | the cash rises by exactly the amount |
| Economy.CountOwnedIncludes | main2.py:143-147 | a property is counted among its own owner's properties of its kind |
| Economy.Rent | main2.py:138-149 | rent is 0 exactly when mortgaged; an unmortgaged station charges 25 times 2^(k-1) for the k stations its owner holds, a positive multiple of 25; an unmortgaged utility charges 10 times the dice total (at least 1) when its owner holds both utilities and 4 times otherwise, an even amount of at least 4 |
| Economy.StationRentDoubles | main2.py:142-144 | each further station owned by the same player doubles the station rent |
| Dice.Faces | main2.py:671-676 | every face of every die shows 1 to 6 |
| Dice.FacesMass | main2.py:671-679 | every kind of die has six sides in all, so two dice give 36 outcomes |
| Dice.TotalDistribution | main2.py:670-684 | the loop yields 36 outcomes, and for every total the weighted number of face pairs with that sum; only totals 2 to 12 appear |
| Dice.Counts | main2.py:670-684 | regular dice give 6 - \|t-7\| outcomes of 36 for totals 2..12; stable dice 9/18/9 on 6/7/8; high-explosive 9/18/9 on 2/7/12 |
| Dice.CountOutsideRange | main2.py:680-683 | no total below 2 or above 12 has an outcome |
| Dice.CountsSumToOutcomes | main2.py:679-683 | the counts of all totals add up to 36, so the probabilities sum to 1 |
| Dice.ExpectedRollIsSeven | main2.py:686-688 | the expected total is 7 for every kind of die |
| Dice.RollVariance | main2.py:690-693 | the variance of the total is 35/6, 1/2 and 25/2 for regular, stable and high-explosive dice |
| Dice.DoublesProbabilityMatchesFaces | main2.py:695-698 | the stated doubles probability (1/6, or 1/2 for the two-valued dice) equals the share of equal face pairs |
| Dice.Dice.constructor | main2.py:286-289 | new dice are regular, show (0, 0), and have a double counter of 0 |
| Dice.Dice.Roll | main2.py:291-307 | the total is the sum of the two faces, between 2 and 12 and with a positive count; a double means two equal faces |
| Dice.Dice.ChangeDiceType | main2.py:309-313 | the die type moves to the next of the three, and three changes return to the start |
| Market.Decay | main2.py:512-526 | one turn of decay never lengthens the list, and no survivor has a counter at or below 0 |
| Market.DecaySurvivor | main2.py:522-526 | every effect left after a turn of decay is an effect of the old list with exactly one turn less |
| Market.DecayKeeps | main2.py:522-526 | every effect with more than one turn left survives the turn, one turn shorter |
| Market.DecayRemovesLastTurn | main2.py:522-526 | effects with at most one turn left are all removed |
| Market.EffectsExpire | main2.py:512-526 | effects with at most n turns left are all gone after n turns |
| Market.StockAfterBounds | main2.py:516-521 | after any effect the stock value is at least 10, and inflation alone never lowers it |
| Market.MarketEffects.constructor | main2.py:509 | the effect list starts empty |
| Market.MarketEffects.ApplyMarketEffects | main2.py:512-526 | every property's stock value becomes the result of applying every effect in order; the list becomes its one-turn decay, with no counter at or below 0 |
| Market.Shift | main2.py:517-521 | every property of the list has its stock value moved by the same percentage, with the floor of 10 |
| Market.MarketEffects.Register | main2.py:758-772 | a market card appends its effect and applies its percentage to every property at once |
| Lists.RemoveFirst | main2.py:2138-2139 | removing a missing value changes nothing; removing a present one shortens the list by one |
| Lists.RemoveFirstMultiset | main2.py:2138-2139 | removal takes away exactly one copy of the value |
| Lists.RemoveFirstMembers | main2.py:1136-1146 | removal keeps every other value |
| Lists.RemoveFirstFromDistinct | main2.py:1136-1146 | in a list without duplicates, removal leaves no copy and no duplicates |
| Lists.Without | main2.py:2066 | the comprehension never yields the excluded value |
| Lists.WithoutMembers | main2.py:2066 | the comprehension keeps exactly the elements different from the excluded one |
| Lists.WithoutAt | main2.py:2066 | without duplicates, filtering out the element at t deletes position t |
| Lists.WithoutKeepsDistinct | main2.py:2066 | filtering keeps a list free of duplicates |
| Holdings.ColorGroup | main2.py:1090-1094 | the group holds exactly the board's streets of the colour |
| Holdings.OwnsColorSet | main2.py:1087-1095 | true exactly for a street whose colour group is non-empty and entirely owned by the player |
| Holdings.MinLevel | main2.py:1053-1054 | the minimum level is at most every level in the group and equal to one of them |
| Holdings.BuildsEvenly | main2.py:1052-1057 | for a street on the board, true exactly when its level (hotel counts 5) is at most every same-colour street's level |
| Holdings.BuildOnLowestKeepsEven | main2.py:1052-1062 | adding a house at a lowest level keeps all levels within one of each other |
| Holdings.TryBuyHouse | main2.py:1041-1065 | each outcome (not owner, no colour set, not buildable, uneven, pool empty, too poor, done) exactly when the earlier checks pass and its own fails, in source order; on success the cash drops by the cost and one house moves from pool to street; any refusal changes nothing |
| Holdings.TryBuyHotel | main2.py:1067-1085 | each outcome (not owner, no colour set, not buildable, pool empty, too poor, done) exactly when the earlier checks pass and its own fails, in source order, and never an evenness refusal; a hotel is built exactly on a fully owned set with 4 houses, a hotel in the pool and the cash; then the cash drops by the hotel cost and the hotel replaces the houses; any refusal changes nothing |
| Holdings.BuyPending | main2.py:2089-2094 | the purchase succeeds exactly when the cash covers the price; the buyer then pays it, owns the property and lists it; otherwise nothing changes |
| Holdings.SellBuilding | main2.py:2120-2127 | the player receives exactly the refund `sell_house` computes: half the cost of the last house, or half the hotel cost when a hotel breaks back into four houses; with nothing to sell, or a hotel and fewer than four houses in the pool, nothing changes; both pools are conserved |
| Holdings.SellToBank | main2.py:2128-2142 | a sale happens exactly for an unbuilt, unmortgaged property; the player gains half the price, the property becomes unowned and leaves the player's list; otherwise nothing changes |
| Holdings.ToggleMortgage | main2.py:2143-2158 | a mortgaged property is redeemed exactly when the cash covers the cost; an unmortgaged one is mortgaged exactly when unbuilt, paying the mortgage value; otherwise nothing changes |
| Holdings.MortgageRoundTrip | main2.py:194-198 | unmortgaging never costs less than the mortgage paid, and the surcharge is ten per cent of it within rounding |
| Trade.HandOver | main2.py:1131-1146 | every handed-over property belongs to the taker; the giver's list loses exactly them, the taker's list gains exactly them, and neither list gets duplicates |
| Trade.ApplyTrade | main2.py:1121-1147 | the trade goes through exactly when both cash amounts are covered and both sides still own what they list; then the cash moves both ways with the total conserved, ownership swaps, and each list loses what it gave and gains what it received; a refusal changes no cash, owner or list |
| Auctions.Solvent | main2.py:944 | every admitted bidder has money |
| Auctions.SolventMembers | main2.py:944 | exactly the players with money are admitted |
| Auctions.SolventDistinct | main2.py:944 | distinct players give distinct bidders |
| Auctions.OpeningBid | main2.py:942 | the opening bid is half the price rounded down, but at least 1 |
| Auctions.NextIndex | main2.py:980 | the advanced turn index lies in range |
| Auctions.NextInRange | main2.py:980 | an advance moves to the next seat, and from the last seat back to the first |
| Auctions.AdvanceByIsRotation | main2.py:980 | m advances from seat t reach seat t + m round the table |
| Auctions.EveryBidderGetsATurn | main2.py:967-981 | within n advances every one of the n bidders has the turn |
| Auctions.IndexAfterLeaveAsWritten | main2.py:2066-2067 | the index the leave handler leaves: the ordinary advance applied to the shortened list |
| Auctions.LeaveSkipsABidder | main2.py:2066-2067 | with bidders A, B, C and B leaving, the turn as written goes to A, skipping C |
| Auctions.IndexAfterLeave | main2.py:2066-2067 | the corrected index lies inside the shortened list |
| Auctions.DeletionKeepsFollower | main2.py:2066-2067 | after deleting seat t, the corrected index names the bidder who followed t |
| Auctions.LeaveKeepsRoundRobin | main2.py:2066-2067 | after a leave, the corrected index names the bidder who sat after the leaver |
| Auctions.Auction.constructor | main2.py:597-601 | the game starts with no auction running |
| Auctions.Auction.Start | main2.py:939-948 | the auction opens on the lot at the opening bid with no leader, the players with money as bidders in seating order, and the first bidder to act |
| Auctions.Auction.CurrentBidder | main2.py:967-971 | with no bidders the result is None; otherwise the index is reduced modulo the bidder count and names the bidder |
| Auctions.Auction.Finish | main2.py:950-965 | a leader pays the bid and owns and lists the lot; with no leader the lot stays as it was; everything is reset |
| Auctions.Auction.Advance | main2.py:973-981 | with at most one bidder the auction finishes; otherwise the turn passes to the next bidder |
| Auctions.Auction.Raise | main2.py:2069-2084 | a raise of 5, 20 or 100 is accepted exactly when the new bid does not exceed the bidder's cash; the bidder then leads at the new bid and the turn advances with no cash or ownership moving (a lone bidder wins and pays at once); a refused raise changes nothing but bringing the turn index into range |
| Auctions.Auction.Leave | main2.py:2065-2068 | the current bidder leaves; with two or fewer the auction finishes, the leader paying the bid if the cash covers it and taking the lot; otherwise the remaining bidders keep their order, no cash or ownership moves, and the turn goes to the bidder who followed the leaver (the corrected index) |
| Cards.Rotate | main2.py:721-722 | a draw keeps the deck's cards and puts the drawn card last |
| Cards.RotateTimesIsCut | main2.py:721-722 | after k draws the deck is the old deck cut at k |
| Cards.ChestDeckCycles | main2.py:721-722 | a full cycle of draws restores the deck, and the k-th draw shows card k |
| Cards.ChestDeck.constructor | main2.py:379-388 | the deck starts in the source's order |
| Cards.ChestDeck.Draw | main2.py:721-722 | the drawn card is the front card, and the deck is rotated by one |
| Cards.CoinBagBonus | main2.py:743 | the bonus is a tenth of the cash rounded toward zero |
| Cards.TransferConserves | main2.py:807-838 | one clamped payment between two players creates and destroys no money |
| Cards.RoundConserves | main2.py:807-838 | a full collect or pay-out round creates and destroys no money |
| Cards.RoundKeepsNonNegative | main2.py:807-838 | from non-negative cash, no payment of a round drives anyone below zero |
| Cards.CollectTakesClamped | main2.py:807-826 | in a collect round each other player pays the smaller of the amount and their cash |
| Cards.PayOutDrains | main2.py:827-838 | in a pay-out round the payer ends with their cash minus the amount times the number of others paid, or 0 |
| Cards.FeeBalance | main2.py:780-806 | a clamped fee to the bank removes exactly the fee or all of the payer's cash |
| Cards.CardMoneyBalance | main2.py:776-838 | each money card changes the players' total cash by exactly the bank's share: gains add, fees subtract, transfers net zero |
| Cards.CardKeepsCashNonNegative | main2.py:776-838 | from non-negative cash, no money card leaves anyone below zero |
| Cards.PayClamped | main2.py:780-806 | the player pays the fee, or all their cash if it is less |
| Cards.PaymentRound | main2.py:807-838 | the players' cash becomes the round's result on the old cash, and the total is what the drawer collected or paid |
| Cards.ApplyMoneyCard | main2.py:776-838 | every player's cash becomes the card's effect on the old cash vector |
| Turns.PassingGo | main2.py:2191-2194 | a move wraps past GO exactly when the new position is below the roll |
| Turns.NextSeatAsWritten | main2.py:1158-1168 | next_turn as written: an extra turn keeps the seat, otherwise the seat stays or moves one |
| Turns.JailedRollerKeepsTurnAsWritten | main2.py:1165-1166 | with the double counter at 0, a double keeps the seat even for a roller the third double jailed |
| Turns.NextSeat | main2.py:1158-1168 | the next seat is in range and is this seat or the next; with two or more players it stays exactly on an extra turn, or on a double that did not jail the roller when no turn is lost |
| Turns.JailedRollerPasses | main2.py:1165-1168 | under the corrected rule, a roller jailed by the third double passes the turn |
| Turns.LoseTurnIsOrdinaryPass | main2.py:1161-1168 | a lost turn moves the turn exactly as an ordinary turn without a double |
| Turns.BankruptLastSeatAsWritten | main2.py:923-937 | for any table of distinct players, removing the player in the last seat deletes that seat, and the index handle_bankruptcy leaves in place is not below the new number of players |
| Turns.SeatAfterRemoval | main2.py:923-928 | the corrected index after a removal lies inside the shorter list |
| Turns.IndexOfDistinct | main2.py:924 | without duplicates, `list.remove` finds a player at their own seat |
| Turns.DeletedSeat | main2.py:923-928 | deleting a seat leaves the turn with the same player, or with the follower of the deleted seat when it had the turn |
| Turns.RemovalKeepsTurnOrder | main2.py:923-928 | after a removal the same player keeps the turn, or, when the removed player had it, the player who followed them |
| Turns.Game.constructor | main2.py:713-718 | setup creates n distinct players with 500 each on GO, and the first has the turn |
| Turns.Game.RollButton | main2.py:2160-2210 | a jailed player pays 50 and goes free with the jail counter reset exactly when the cash covers it, without moving or rolling; anyone else rolls: a capped roll counts 1 and no double, a third double in a row jails the player on space 10, otherwise the token moves modulo 40, doubles are counted or reset, and 200 is paid exactly when the move wraps past GO; the game invariant holds |
| Turns.Game.PayJailFee | main2.py:2162-2166 | a jailed player with at least 50 pays 50 and goes free with the jail counter reset; otherwise nothing changes |
| Turns.Game.RollFor | main2.py:2168-2210 | a capped roll counts 1 and no double, and the cap is cleared; a third double in a row jails the player on space 10 with the count reset and no move; otherwise the token moves modulo 40, doubles are counted or reset, and 200 is paid exactly when the move wraps past GO |
| Turns.Game.NextTurn | main2.py:1149-1168 | market effects decay and apply; the next seat is NextSeat of the flags, with an extra or lost turn used up; the dice are reset only on an ordinary pass |
| Turns.Game.EndTurn | main2.py:2266-2270 | once the dice are rolled and the game waits, the turn ends as next_turn decides and the dice are cleared for the next roll; otherwise nothing changes |
| Turns.Game.HandleBankruptcy | main2.py:923-928 | the player leaves the table and the others keep their order; the turn stays with the same player or passes to the follower; with one player left the game is over and that player wins |
| Turns.Game.ForceBankruptcyIfNeeded | main2.py:930-937 | in a running game, a current player in debt is set to 0 and removed; the turn passes to the player who followed them, the others keep their cash, and with one player left the game is over and that player wins; otherwise nothing changes, game-over flag and winner included |
| Turns.Game.HandleItemChest | main2.py:720-744 | the front card is drawn and goes last; the capped-dice card caps the next roll, heads grants an extra turn, tails costs a turn, and the coin bag pays a tenth of the cash |
| Turns.Game.HandleChance | main2.py:750-870 | a market card registers and applies its effect; a money card applies its cash effect; hackathon, and evaporator when something is built, suspend the turn for a pick; coin cards act as in the chest, the coin bag crediting only the drawer; no other card touches the effects or the stock values |
| Turns.Game.HackathonPick | main2.py:1987-1996 | the waiting player jumps to the chosen space 1 to 12 and play resumes |

## Left out

- Presentation: rendering, fonts, hover tooltips, animations, messages and their timers, the statistics in `record_roll_stats`, and the settings panels. None of these touch the game state the model keeps.
- The random sources: `Dice.roll`'s draws, `draw_chance_card`'s weighted draw, the coin flips, and the market card's percentage and duration. Each is a parameter of the member that uses it. The chance category weights are not modelled.
- Holdings.BuyPending: when the cash does not cover the price the source starts an auction and clears the pending property (main2.py:2096-2098); the model changes nothing there, and the pending-property field itself is not modelled. The branch cannot be reached from `handle_landing`, which offers the purchase only when the cash covers the price (main2.py:883-888).
- Turns.Game.EndTurn: the main loop also waits for the on-screen message timer and pauses one second before ending the turn (main2.py:2266-2267); both are presentation and are left out.
- Turns.Game.NextTurn: does not model the random ±5% drift of every stock value that follows the market effects (main2.py:1154-1156). Its stock-value clause describes the values before the drift.
- The auction's per-bidder frame timer (main2.py:1798-1802), which calls `finish_auction` on expiry. It is timing only, and `Auction.Finish` models the finish itself.
- `handle_landing` (main2.py:872-921) is not part of this model: landing on GO, street rent, taxes and the jail-visit counter. Street rent depends on the floating-point stock ratio and the tier table (main2.py:151-170), so `Economy.Rent` covers only stations and utilities.
- Floating point.
  - Build and unmortgage costs are exact rationals rounded half to even. Two board values are pinned to what CPython's floating-point evaluation gives: the third house at base 50 costs 85, and unmortgaging a mortgage value of 175 costs 193.
  - `update_stock_value` is exact truncation. The floating-point product can be one lower when the exact product is a whole number.
  - `int(money * 0.1)` is a tenth rounded toward zero.
  - The distribution, expected value and variance are integer counts and moments out of 36, not floats.
- `get_income_multiplier` (main2.py:132-136) is used only by street rent and is left out with it.
- `restart_game` (main2.py:1916-1945) and `ask_player_count` (main2.py:2278-2289) are console and UI control flow.
- Trade negotiation (`open_trade`, `close_trade`, the cash sliders) is UI state that only feeds `apply_trade`'s inputs.
- The evaporator pick's selection is made with the mouse. `Economy.Property.Evaporate` models its effect on the chosen property.
- Bankruptcy leaves the bankrupt player's properties owned by that player, as the source does. The model does not return them to the bank.
- Integer width: Python integers are unbounded, and so are Dafny's.

## Findings

| source | as written | input that shows it | evidently intended | confidence | as-written member | corrected member |
|---|---|---|---|---|---|---|
| main2.py:1165 | `next_turn` keeps the turn after a double unless `self.dice.double_count >= 3`, but nothing ever updates `double_count` (it stays 0) | a third double in a row: the roll handler jails the player (main2.py:2176-2179), `is_double` is true, so the jailed player keeps the turn | a double that sent the roller to jail passes the turn | high, not executed | Turns.JailedRollerKeepsTurnAsWritten | Turns.NextSeat |
| main2.py:2066-2067 | the leave handler filters out the current bidder, then `advance_auction_turn` adds one to the old index on the shortened list | bidders [A, B, C] with B to act; B leaves; the list is [A, C], the index moves from 1 to 0, and A acts, skipping C | the bidder who followed the leaver acts next, at the leaver's old index | high, not executed | Auctions.LeaveSkipsABidder | Auctions.LeaveKeepsRoundRobin |
| main2.py:923-928 | `handle_bankruptcy` removes the player but leaves `current_player_index` as it was | three players, the one in seat 2 goes bankrupt on their turn; two players remain with index 2, and `force_bankruptcy_if_needed` (main2.py:933) then indexes past the end of the list | the index stays in range, and the turn passes to the player who followed the bankrupt one | high, not executed | Turns.BankruptLastSeatAsWritten | Turns.RemovalKeepsTurnOrder |
