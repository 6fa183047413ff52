/**
 * The auction state machine: an opening bid of half the price (at least 1),
 * the solvent players bidding in turn, raises capped by the bidder's cash,
 * and a sale to the highest bidder once at most one bidder is left.
 */
module Auctions {
  import opened Economy
  import opened Lists

  /** The players allowed into an auction: those with money, in seating order. */
  function Solvent(players: seq<Player>): (r: seq<Player>)
    reads players
    ensures |r| <= |players|
    ensures forall k :: 0 <= k < |r| ==> r[k].money > 0
  {
    if players == [] then []
    else
      var init := players[..|players| - 1];
      var last := players[|players| - 1];
      Solvent(init) + (if last.money > 0 then [last] else [])
  }

  /** Exactly the players with money take part. */
  lemma {:induction false} SolventMembers(players: seq<Player>, p: Player)
    ensures p in Solvent(players) <==> p in players && p.money > 0
  {
    if players != [] {
      var init := players[..|players| - 1];
      SolventMembers(init, p);
      assert players == init + [players[|players| - 1]];
    }
  }

  /** Distinct players make distinct bidders. */
  lemma {:induction false} SolventDistinct(players: seq<Player>)
    requires NoDuplicates(players)
    ensures NoDuplicates(Solvent(players))
  {
    if players != [] {
      var init := players[..|players| - 1];
      var last := players[|players| - 1];
      assert NoDuplicates(init);
      SolventDistinct(init);
      SolventMembers(init, last);
      assert last !in init;
      var w := Solvent(init);
      var r := w + (if last.money > 0 then [last] else []);
      forall a, b | 0 <= a < b < |r|
        ensures r[a] != r[b]
      {
        if b == |w| {
          assert r[a] == w[a];
        }
      }
    }
  }

  /** The opening bid: half the price, but at least 1. */
  function OpeningBid(price: nat): (b: nat)
    ensures b >= 1 && b >= price / 2
    ensures b == 1 || 2 * b <= price <= 2 * b + 1
  {
    if price / 2 > 1 then price / 2 else 1
  }

  /** The turn index after an ordinary advance among n bidders. */
  function NextIndex(t: int, n: nat): (r: int)
    requires n > 0
    ensures 0 <= r < n
  {
    (t + 1) % n
  }

  /** The turn index after m advances from t. */
  function AdvanceBy(t: nat, n: nat, m: nat): (r: int)
    requires n > 0
  {
    if m == 0 then t % n else NextIndex(AdvanceBy(t, n, m - 1), n)
  }

  /** Fewer than n advances from an index in range move the turn m places round the table. */
  lemma {:induction false} AdvanceByIsRotation(t: nat, n: nat, m: nat)
    requires t < n && m < n
    ensures AdvanceBy(t, n, m) == if t + m < n then t + m else t + m - n
  {
    if m == 0 {
      assert AdvanceBy(t, n, 0) == t % n == t;
    } else {
      AdvanceByIsRotation(t, n, m - 1);
      var v := AdvanceBy(t, n, m - 1);
      NextInRange(v, n);
    }
  }

  lemma NextInRange(v: int, n: nat)
    requires 0 <= v < n
    ensures NextIndex(v, n) == if v + 1 < n then v + 1 else 0
  {
  }

  /** Round robin: within n advances every one of the n bidders has the turn. */
  lemma EveryBidderGetsATurn(t: nat, n: nat, j: nat)
    requires t < n && j < n
    ensures exists m: nat :: m < n && AdvanceBy(t, n, m) == j
  {
    var m := if j >= t then j - t else j + n - t;
    AdvanceByIsRotation(t, n, m);
  }

  /**
   * The turn index the source leaves after the current bidder at position t
   * of n leaves: the ordinary advance applied to the shortened list.
   */
  function IndexAfterLeaveAsWritten(t: nat, n: nat): (r: int)
    requires n >= 3 && t < n
    ensures 0 <= r < n - 1
  {
    NextIndex(t, n - 1)
  }

  /** With bidders A, B, C and B leaving, the turn as written passes to A and skips C. */
  lemma LeaveSkipsABidder(a: Player, b: Player, c: Player)
    requires a != b && b != c && a != c
    ensures Without([a, b, c], b) == [a, c]
    ensures Without([a, b, c], b)[IndexAfterLeaveAsWritten(1, 3)] == a
  {
    WithoutAt([a, b, c], 1);
    assert [a, b, c][..1] + [a, b, c][2..] == [a, c];
  }

  /**
   * The turn index that passes the turn to the bidder who followed the
   * leaver: after the deletion that bidder sits at the leaver's old index.
   */
  function IndexAfterLeave(t: nat, n: nat): (r: nat)
    requires n >= 3 && t < n
    ensures r < n - 1
  {
    t % (n - 1)
  }

  /** After deleting position t, the corrected index names the element that followed t round the table. */
  lemma DeletionKeepsFollower<T>(bs: seq<T>, t: nat)
    requires |bs| >= 3 && t < |bs|
    ensures (bs[..t] + bs[t + 1..])[IndexAfterLeave(t, |bs|)] == bs[NextIndex(t, |bs|)]
  {
    var n := |bs|;
    NextInRange(t, n);
    if t < n - 1 {
      assert t % (n - 1) == t;
    } else {
      assert t % (n - 1) == 0;
    }
  }

  /** After a leave, the corrected index names the bidder who sat after the leaver. */
  lemma LeaveKeepsRoundRobin(bs: seq<Player>, t: nat)
    requires NoDuplicates(bs) && |bs| >= 3 && t < |bs|
    ensures Without(bs, bs[t]) == bs[..t] + bs[t + 1..]
    ensures Without(bs, bs[t])[IndexAfterLeave(t, |bs|)] == bs[NextIndex(t, |bs|)]
  {
    WithoutAt(bs, t);
    DeletionKeepsFollower(bs, t);
  }

  /** The auction fields of the game: whether one runs, the lot, the bid, the leader, the bidders and whose turn it is. */
  class Auction {
    var active: bool
    var property: Property?
    var currentBid: int
    var highestBidder: Player?
    var bidders: seq<Player>
    var turnIndex: nat

    /** A running auction has a lot; the bidders are distinct players. */
    ghost predicate Valid()
      reads this
    {
      (active ==> property != null) && NoDuplicates(bidders)
    }

    /** The leader can cover the standing bid. */
    predicate BidCovered()
      reads this, highestBidder
    {
      highestBidder != null ==> currentBid <= highestBidder.money
    }

    /** The state finish_auction leaves behind. */
    predicate Closed()
      reads this
    {
      !active && property == null && currentBid == 0 && highestBidder == null && bidders == [] && turnIndex == 0
    }

    constructor ()
      ensures Valid() && Closed()
    {
      active := false;
      property := null;
      currentBid := 0;
      highestBidder := null;
      bidders := [];
      turnIndex := 0;
    }

    /** start_auction: the lot, the opening bid, no leader, the solvent players as bidders, the first to bid. */
    method Start(prop: Property, players: seq<Player>)
      requires NoDuplicates(players)
      modifies this
      ensures Valid() && active && property == prop && BidCovered()
      ensures currentBid == OpeningBid(prop.price) && highestBidder == null
      ensures bidders == old(Solvent(players)) && turnIndex == 0
    {
      var solvent := Solvent(players);
      SolventDistinct(players);
      active := true;
      property := prop;
      currentBid := OpeningBid(prop.price);
      highestBidder := null;
      bidders := solvent;
      turnIndex := 0;
    }

    /** get_current_auction_player: none when nobody bids; otherwise the index is first brought into range. */
    method CurrentBidder() returns (p: Player?)
      modifies this`turnIndex
      ensures bidders == [] ==> p == null && turnIndex == old(turnIndex)
      ensures bidders != [] ==> turnIndex == old(turnIndex) % |bidders| && p == bidders[turnIndex]
    {
      if bidders == [] {
        return null;
      }
      turnIndex := turnIndex % |bidders|;
      p := bidders[turnIndex];
    }

    /**
     * finish_auction: a leader pays the standing bid (the payment fails
     * silently if the cash no longer covers it), becomes the owner and adds
     * the lot to their list; without a leader the lot stays unsold. Either
     * way the auction closes.
     */
    method Finish()
      requires property != null
      modifies this, (if highestBidder == null then {} else {highestBidder})`money
      modifies (if highestBidder == null then {} else {highestBidder})`properties, property`owner
      ensures Valid() && Closed()
      ensures old(highestBidder) != null ==>
        && old(property).owner == old(highestBidder)
        && old(highestBidder).properties == old(highestBidder.properties) + [old(property)]
        && old(highestBidder).money == old(highestBidder.money) - (if old(highestBidder.money) >= old(currentBid) then old(currentBid) else 0)
      ensures old(highestBidder) != null && old(BidCovered()) ==>
        old(highestBidder).money == old(highestBidder.money) - old(currentBid)
      ensures old(highestBidder) == null ==> old(property).owner == old(property.owner)
    {
      var winner := highestBidder;
      if winner != null {
        var paid := winner.Pay(currentBid, null);
        property.owner := winner;
        winner.properties := winner.properties + [property];
      }
      active := false;
      property := null;
      currentBid := 0;
      highestBidder := null;
      bidders := [];
      turnIndex := 0;
    }

    /** advance_auction_turn: with at most one bidder left the auction finishes, otherwise the next bidder has the turn. */
    method Advance()
      requires Valid() && active
      modifies this, (if highestBidder == null then {} else {highestBidder})`money
      modifies (if highestBidder == null then {} else {highestBidder})`properties, property`owner
      ensures Valid()
      ensures |old(bidders)| <= 1 ==> Closed()
      ensures |old(bidders)| <= 1 && old(highestBidder) != null ==>
        && old(property).owner == old(highestBidder)
        && old(highestBidder).properties == old(highestBidder.properties) + [old(property)]
      ensures |old(bidders)| <= 1 && old(highestBidder) != null && old(BidCovered()) ==>
        old(highestBidder).money == old(highestBidder.money) - old(currentBid)
      ensures |old(bidders)| >= 2 ==>
        && active && property == old(property) && currentBid == old(currentBid)
        && highestBidder == old(highestBidder) && bidders == old(bidders)
        && turnIndex == NextIndex(old(turnIndex), |bidders|)
        && BidCovered() == old(BidCovered())
        && old(property).owner == old(property.owner)
        && (old(highestBidder) != null ==>
              old(highestBidder).money == old(highestBidder.money) && old(highestBidder).properties == old(highestBidder.properties))
    {
      if |bidders| <= 1 {
        Finish();
        return;
      }
      turnIndex := NextIndex(turnIndex, |bidders|);
    }

    /**
     * A raise button (5, 20 or 100): the current bidder's raise is accepted
     * only if the new bid does not exceed their cash; the bidder then leads
     * and the turn moves on (a lone bidder wins at once). With no bidders
     * the auction finishes.
     */
    method Raise(increment: int) returns (accepted: bool)
      requires Valid() && active
      requires increment == 5 || increment == 20 || increment == 100
      modifies this, (set q: Player | q in bidders || q == highestBidder)`money
      modifies (set q: Player | q in bidders || q == highestBidder)`properties, property`owner
      ensures Valid()
      ensures old(bidders) == [] ==> !accepted && Closed()
      ensures old(bidders) != [] ==>
        var bidder := old(bidders)[old(turnIndex) % |old(bidders)|];
        && (accepted <==> old(currentBid) + increment <= old(bidder.money))
        && (accepted && |old(bidders)| >= 2 ==>
            currentBid == old(currentBid) + increment && highestBidder == bidder && BidCovered()
            && turnIndex == NextIndex(old(turnIndex) % |old(bidders)|, |old(bidders)|)
            && active && bidders == old(bidders)
            && property == old(property) && old(property).owner == old(property.owner)
            && (forall q :: q in old(bidders) || q == old(highestBidder) ==>
                  q.money == old(q.money) && q.properties == old(q.properties)))
        && (accepted && |old(bidders)| == 1 ==>
            Closed() && old(property).owner == bidder
            && bidder.money == old(bidder.money) - (old(currentBid) + increment)
            && bidder.properties == old(bidder.properties) + [old(property)]
            && (forall q :: (q in old(bidders) || q == old(highestBidder)) && q != bidder ==>
                  q.money == old(q.money) && q.properties == old(q.properties)))
        && (!accepted ==>
            active && currentBid == old(currentBid) && highestBidder == old(highestBidder)
            && bidders == old(bidders) && turnIndex == old(turnIndex) % |old(bidders)|
            && property == old(property) && old(property).owner == old(property.owner)
            && (forall q :: q in old(bidders) || q == old(highestBidder) ==>
                  q.money == old(q.money) && q.properties == old(q.properties)))
    {
      var bidder := CurrentBidder();
      if bidder == null {
        Finish();
        return false;
      }
      var newBid := currentBid + increment;
      if newBid <= bidder.money {
        currentBid := newBid;
        highestBidder := bidder;
        Advance();
        return true;
      }
      return false;
    }

    /**
     * The leave button: the current bidder drops out; with at most one
     * bidder left the auction finishes, otherwise the turn passes to the
     * bidder who sat after the leaver (see IndexAfterLeave). A leader who
     * leaves keeps the lead.
     */
    method Leave() returns (leaver: Player?)
      requires Valid() && active
      modifies this, (if highestBidder == null then {} else {highestBidder})`money
      modifies (if highestBidder == null then {} else {highestBidder})`properties, property`owner
      ensures Valid()
      ensures old(bidders) == [] ==> leaver == null && Closed()
      ensures old(bidders) != [] ==> leaver == old(bidders)[old(turnIndex) % |old(bidders)|]
      ensures |old(bidders)| <= 2 ==> Closed()
      ensures |old(bidders)| <= 2 && old(highestBidder) != null ==>
        && old(property).owner == old(highestBidder)
        && old(highestBidder).properties == old(highestBidder.properties) + [old(property)]
        && old(highestBidder).money == old(highestBidder.money) - (if old(highestBidder.money) >= old(currentBid) then old(currentBid) else 0)
      ensures |old(bidders)| <= 2 && old(highestBidder) == null ==> old(property).owner == old(property.owner)
      ensures |old(bidders)| >= 3 ==>
        && property == old(property) && old(property).owner == old(property.owner)
        && (old(highestBidder) != null ==>
              old(highestBidder).money == old(highestBidder.money) && old(highestBidder).properties == old(highestBidder.properties))
      ensures |old(bidders)| >= 3 ==>
        active && currentBid == old(currentBid) && highestBidder == old(highestBidder)
      ensures |old(bidders)| >= 3 ==>
        bidders == old(bidders)[..old(turnIndex) % |old(bidders)|] + old(bidders)[old(turnIndex) % |old(bidders)| + 1..]
      ensures |old(bidders)| >= 3 ==> |bidders| == |old(bidders)| - 1 && turnIndex < |bidders|
      ensures |old(bidders)| >= 3 ==> bidders[turnIndex] == old(bidders)[NextIndex(old(turnIndex) % |old(bidders)|, |old(bidders)|)]
    {
      leaver := CurrentBidder();
      if leaver == null {
        Finish();
        return;
      }
      var t := turnIndex;
      var n := |bidders|;
      var before := bidders;
      assert before == old(bidders) && t == old(turnIndex) % n;
      WithoutAt(before, t);
      var who: Player := leaver;
      WithoutKeepsDistinct(before, who);
      bidders := Without(before, who);
      if n <= 2 {
        Finish();
        return;
      }
      LeaveKeepsRoundRobin(before, t);
      turnIndex := IndexAfterLeave(t, n);
      assert bidders[turnIndex] == before[NextIndex(t, n)];
    }
  }
}
