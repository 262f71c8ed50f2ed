/**
 * The money arithmetic of the place-bet handler (server/routes.ts): how
 * one accepted stake changes a market's totals, and what a sequence of
 * accepted stakes adds up to. All amounts are integer USDC cents.
 */
module Ledger {

  import opened Results
  import opened Schema

  /** The smallest stake the handler accepts, in cents. */
  const MinBet: int := 100

  /** The two sides add up to the pool. */
  predicate Balanced(m: Market) {
    m.yesVotes + m.noVotes == m.totalPool
  }

  /** The totals after one accepted stake of `amount` cents on `prediction`. */
  function ApplyBet(m: Market, amount: int, prediction: bool): (r: Market)
    ensures r.totalPool == m.totalPool + amount
    ensures prediction ==> r.yesVotes == m.yesVotes + amount && r.noVotes == m.noVotes
    ensures !prediction ==> r.noVotes == m.noVotes + amount && r.yesVotes == m.yesVotes
    ensures r == m.(totalPool := r.totalPool, yesVotes := r.yesVotes, noVotes := r.noVotes)
    ensures Balanced(r) <==> Balanced(m)
  {
    m.(yesVotes := if prediction then m.yesVotes + amount else m.yesVotes,
       noVotes := if !prediction then m.noVotes + amount else m.noVotes,
       totalPool := m.totalPool + amount)
  }

  /** The totals after the stakes `bets`, accepted in order. */
  function ApplyBets(m: Market, bets: seq<Bet>): Market
    decreases |bets|
  {
    if bets == [] then m
    else ApplyBets(ApplyBet(m, bets[0].amount, bets[0].prediction), bets[1..])
  }

  /** Cents staked in `bets`. */
  function Staked(bets: seq<Bet>): int
  {
    if bets == [] then 0 else bets[0].amount + Staked(bets[1..])
  }

  /** Cents staked in `bets` on the side `prediction`. */
  function StakedOn(bets: seq<Bet>, prediction: bool): int
  {
    if bets == [] then 0
    else (if bets[0].prediction == prediction then bets[0].amount else 0) + StakedOn(bets[1..], prediction)
  }

  /** Every stake is on one of the two sides. */
  lemma {:induction false} StakedSplit(bets: seq<Bet>)
    ensures Staked(bets) == StakedOn(bets, true) + StakedOn(bets, false)
  {
    if bets != [] {
      StakedSplit(bets[1..]);
    }
  }

  /** A sequence of stakes adds its amounts to the pool and to the side each was on, and changes nothing else. */
  lemma {:induction false} ApplyBetsTotals(m: Market, bets: seq<Bet>)
    ensures ApplyBets(m, bets).totalPool == m.totalPool + Staked(bets)
    ensures ApplyBets(m, bets).yesVotes == m.yesVotes + StakedOn(bets, true)
    ensures ApplyBets(m, bets).noVotes == m.noVotes + StakedOn(bets, false)
    ensures ApplyBets(m, bets) == m.(totalPool := ApplyBets(m, bets).totalPool,
                                     yesVotes := ApplyBets(m, bets).yesVotes,
                                     noVotes := ApplyBets(m, bets).noVotes)
    decreases |bets|
  {
    if bets != [] {
      ApplyBetsTotals(ApplyBet(m, bets[0].amount, bets[0].prediction), bets[1..]);
    }
  }

  /** Accepting one more stake extends the fold by one step. */
  lemma {:induction false} ApplyBetsSnoc(m: Market, bets: seq<Bet>, b: Bet)
    ensures ApplyBets(m, bets + [b]) == ApplyBet(ApplyBets(m, bets), b.amount, b.prediction)
    decreases |bets|
  {
    if bets == [] {
      assert bets + [b] == [b];
    } else {
      assert (bets + [b])[1..] == bets[1..] + [b];
      ApplyBetsSnoc(ApplyBet(m, bets[0].amount, bets[0].prediction), bets[1..], b);
    }
  }

  /** Conservation: stakes keep a balanced market balanced. */
  lemma Conservation(m: Market, bets: seq<Bet>)
    requires Balanced(m)
    ensures Balanced(ApplyBets(m, bets))
  {
    ApplyBetsTotals(m, bets);
    StakedSplit(bets);
  }

  /**
   * A market inserted with the default totals holds, after any accepted
   * stakes, exactly their sum in its pool and the per-side sums in its
   * YES and NO totals.
   */
  lemma DefaultMarketTotals(videoId: int, question: string, endTime: int, bets: seq<Bet>)
    ensures var m := ApplyBets(NewMarket(videoId, question, endTime, None, None, None, None, None), bets);
      m.totalPool == Staked(bets) && m.yesVotes == StakedOn(bets, true) && m.noVotes == StakedOn(bets, false)
      && Balanced(m) && !m.resolved && m.outcome == None
  {
    ApplyBetsTotals(NewMarket(videoId, question, endTime, None, None, None, None, None), bets);
    StakedSplit(bets);
  }

  /** Stakes of at least the minimum each grow the pool by at least the minimum per stake. */
  lemma {:induction false} PoolGrowth(m: Market, bets: seq<Bet>)
    requires forall k :: 0 <= k < |bets| ==> bets[k].amount >= MinBet
    ensures ApplyBets(m, bets).totalPool >= m.totalPool + MinBet * |bets|
  {
    ApplyBetsTotals(m, bets);
    StakedAtLeast(bets);
  }

  lemma {:induction false} StakedAtLeast(bets: seq<Bet>)
    requires forall k :: 0 <= k < |bets| ==> bets[k].amount >= MinBet
    ensures Staked(bets) >= MinBet * |bets|
  {
    if bets != [] {
      assert forall k :: 0 <= k < |bets[1..]| ==> bets[1..][k] == bets[k + 1];
      StakedAtLeast(bets[1..]);
    }
  }
}
