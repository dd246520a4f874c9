/**
 * Contract classification and the auction filters of the trader
 * (src/utils.ts): a total classifier over items and auctions and a family
 * of stable, predicate-based filters over auction and item sequences.
 */
module Utils {
  import opened Collections
  import opened Fut18

  /** The contract kinds reported in metrics. */
  datatype ContractType = GoldPlayer | GoldCoach | Unknown

  /**
   * The contract resource ids the classifier looks up: two player-contract
   * ids and one coach-contract id. Their values are not fixed by the
   * repository, so the classifier takes them as a parameter.
   */
  datatype Resources = Resources(goldPlayer: int, goldPlayer99: int, goldCoach: int)

  /** No resource id is both a player and a coach contract. */
  predicate CoachIdDistinct(res: Resources) {
    res.goldCoach != res.goldPlayer && res.goldCoach != res.goldPlayer99
  }

  /** Either an auction or a bare item (`AuctionOrItem`). */
  datatype AuctionOrItem = Auction(auction: AuctionInfo) | Bare(item: Item)

  /** An auction is recognised by carrying item data. */
  predicate IsAuctionInfo(x: AuctionOrItem) {
    x.Auction?
  }

  /** The item an entry is about: an auction's item data, or the bare item itself. */
  function GetItemData(x: AuctionOrItem): Item {
    if IsAuctionInfo(x) then x.auction.itemData else x.item
  }

  predicate IsGoldPlayerContract(res: Resources, x: AuctionOrItem) {
    var id := GetItemData(x).resourceId;
    id == res.goldPlayer || id == res.goldPlayer99
  }

  predicate IsGoldCoachContract(res: Resources, x: AuctionOrItem) {
    GetItemData(x).resourceId == res.goldCoach
  }

  predicate IsGoldContract(res: Resources, x: AuctionOrItem) {
    IsGoldPlayerContract(res, x) || IsGoldCoachContract(res, x)
  }

  /**
   * The total classifier: the cases of the switch are tried in order, so a
   * player id wins over the coach id.
   */
  function GetContractType(res: Resources, x: AuctionOrItem): (t: ContractType)
    ensures t == GoldPlayer <==> IsGoldPlayerContract(res, x)
    ensures t == GoldCoach <==> IsGoldCoachContract(res, x) && !IsGoldPlayerContract(res, x)
    ensures t == Unknown <==> !IsGoldContract(res, x)
    ensures CoachIdDistinct(res) ==> (t == GoldCoach <==> IsGoldCoachContract(res, x))
  {
    var id := GetItemData(x).resourceId;
    if id == res.goldPlayer || id == res.goldPlayer99 then GoldPlayer
    else if id == res.goldCoach then GoldCoach
    else Unknown
  }

  /** Classifying an auction is classifying the item it wraps. */
  lemma ClassifyThroughItemData(res: Resources, x: AuctionOrItem)
    ensures GetContractType(res, x) == GetContractType(res, Bare(GetItemData(x)))
    ensures IsGoldContract(res, x) == IsGoldContract(res, Bare(GetItemData(x)))
    ensures x.Auction? ==> GetContractType(res, x) == GetContractType(res, Bare(x.auction.itemData))
  {
  }

  // The predicates behind the trade-state and bid-state filters.

  predicate IsActiveTrade(a: AuctionInfo) { a.tradeState == ActiveState }
  predicate IsExpiredTrade(a: AuctionInfo) { a.tradeState == ExpiredState }
  predicate IsClosedTrade(a: AuctionInfo) { a.tradeState == ClosedState }
  predicate IsHighestBid(a: AuctionInfo) { a.bidState == HighestBid }
  predicate IsOutbid(a: AuctionInfo) { a.bidState == OutbidBid }
  predicate IsWinningTrade(a: AuctionInfo) { a.tradeState == ActiveState && a.bidState == HighestBid }
  predicate IsLosingTrade(a: AuctionInfo) { a.tradeState == ActiveState && a.bidState == OutbidBid }
  predicate IsWonTrade(a: AuctionInfo) { a.tradeState == ClosedState && a.bidState == HighestBid }
  predicate IsLostTrade(a: AuctionInfo) { a.tradeState == ClosedState && a.bidState == OutbidBid }

  function FilterGoldContracts(res: Resources, xs: seq<AuctionOrItem>): (r: seq<AuctionOrItem>)
    ensures forall x :: x in r <==> x in xs && IsGoldContract(res, x)
    ensures IsSubsequence(r, xs)
    ensures forall x :: multiset(r)[x] == if IsGoldContract(res, x) then multiset(xs)[x] else 0
  {
    FilterKeepsOrder(x => IsGoldContract(res, x), xs);
    Filter(x => IsGoldContract(res, x), xs)
  }

  function FilterGoldPlayerContracts(res: Resources, xs: seq<AuctionOrItem>): (r: seq<AuctionOrItem>)
    ensures forall x :: x in r <==> x in xs && IsGoldPlayerContract(res, x)
    ensures IsSubsequence(r, xs)
    ensures forall x :: multiset(r)[x] == if IsGoldPlayerContract(res, x) then multiset(xs)[x] else 0
  {
    FilterKeepsOrder(x => IsGoldPlayerContract(res, x), xs);
    Filter(x => IsGoldPlayerContract(res, x), xs)
  }

  function FilterGoldCoachContracts(res: Resources, xs: seq<AuctionOrItem>): (r: seq<AuctionOrItem>)
    ensures forall x :: x in r <==> x in xs && IsGoldCoachContract(res, x)
    ensures IsSubsequence(r, xs)
    ensures forall x :: multiset(r)[x] == if IsGoldCoachContract(res, x) then multiset(xs)[x] else 0
  {
    FilterKeepsOrder(x => IsGoldCoachContract(res, x), xs);
    Filter(x => IsGoldCoachContract(res, x), xs)
  }

  function FilterActiveTrades(xs: seq<AuctionInfo>): (r: seq<AuctionInfo>)
    ensures forall a :: a in r <==> a in xs && a.tradeState == ActiveState
    ensures IsSubsequence(r, xs)
    ensures forall a :: multiset(r)[a] == if a.tradeState == ActiveState then multiset(xs)[a] else 0
  {
    FilterKeepsOrder(IsActiveTrade, xs);
    Filter(IsActiveTrade, xs)
  }

  function FilterExpiredTrades(xs: seq<AuctionInfo>): (r: seq<AuctionInfo>)
    ensures forall a :: a in r <==> a in xs && a.tradeState == ExpiredState
    ensures IsSubsequence(r, xs)
    ensures forall a :: multiset(r)[a] == if a.tradeState == ExpiredState then multiset(xs)[a] else 0
  {
    FilterKeepsOrder(IsExpiredTrade, xs);
    Filter(IsExpiredTrade, xs)
  }

  function FilterClosedTrades(xs: seq<AuctionInfo>): (r: seq<AuctionInfo>)
    ensures forall a :: a in r <==> a in xs && a.tradeState == ClosedState
    ensures IsSubsequence(r, xs)
    ensures forall a :: multiset(r)[a] == if a.tradeState == ClosedState then multiset(xs)[a] else 0
  {
    FilterKeepsOrder(IsClosedTrade, xs);
    Filter(IsClosedTrade, xs)
  }

  function FilterWinningTrades(xs: seq<AuctionInfo>): (r: seq<AuctionInfo>)
    ensures forall a :: a in r <==> a in xs && a.tradeState == ActiveState && a.bidState == HighestBid
    ensures IsSubsequence(r, xs)
    ensures forall a :: multiset(r)[a] == if a.tradeState == ActiveState && a.bidState == HighestBid then multiset(xs)[a] else 0
  {
    FilterKeepsOrder(IsWinningTrade, xs);
    Filter(IsWinningTrade, xs)
  }

  function FilterLosingTrades(xs: seq<AuctionInfo>): (r: seq<AuctionInfo>)
    ensures forall a :: a in r <==> a in xs && a.tradeState == ActiveState && a.bidState == OutbidBid
    ensures IsSubsequence(r, xs)
    ensures forall a :: multiset(r)[a] == if a.tradeState == ActiveState && a.bidState == OutbidBid then multiset(xs)[a] else 0
  {
    FilterKeepsOrder(IsLosingTrade, xs);
    Filter(IsLosingTrade, xs)
  }

  function FilterWonTrades(xs: seq<AuctionInfo>): (r: seq<AuctionInfo>)
    ensures forall a :: a in r <==> a in xs && a.tradeState == ClosedState && a.bidState == HighestBid
    ensures IsSubsequence(r, xs)
    ensures forall a :: multiset(r)[a] == if a.tradeState == ClosedState && a.bidState == HighestBid then multiset(xs)[a] else 0
  {
    FilterKeepsOrder(IsWonTrade, xs);
    Filter(IsWonTrade, xs)
  }

  function FilterLostTrades(xs: seq<AuctionInfo>): (r: seq<AuctionInfo>)
    ensures forall a :: a in r <==> a in xs && a.tradeState == ClosedState && a.bidState == OutbidBid
    ensures IsSubsequence(r, xs)
    ensures forall a :: multiset(r)[a] == if a.tradeState == ClosedState && a.bidState == OutbidBid then multiset(xs)[a] else 0
  {
    FilterKeepsOrder(IsLostTrade, xs);
    Filter(IsLostTrade, xs)
  }

  function FilterOutbidTrades(xs: seq<AuctionInfo>): (r: seq<AuctionInfo>)
    ensures forall a :: a in r <==> a in xs && a.bidState == OutbidBid
    ensures IsSubsequence(r, xs)
    ensures forall a :: multiset(r)[a] == if a.bidState == OutbidBid then multiset(xs)[a] else 0
  {
    FilterKeepsOrder(IsOutbid, xs);
    Filter(IsOutbid, xs)
  }

  /** The trade ids of auctions, one per auction, in order. */
  function GetTradeIds(xs: seq<AuctionInfo>): (r: seq<int>)
    ensures |r| == |xs|
    ensures forall i :: 0 <= i < |xs| ==> r[i] == xs[i].tradeId
  {
    seq(|xs|, i requires 0 <= i < |xs| => xs[i].tradeId)
  }

  /** The item ids of auctions or items, one per entry, in order. */
  function GetItemIds(xs: seq<AuctionOrItem>): (r: seq<int>)
    ensures |r| == |xs|
    ensures forall i :: 0 <= i < |xs| ==> r[i] == GetItemData(xs[i]).id
  {
    seq(|xs|, i requires 0 <= i < |xs| => if IsAuctionInfo(xs[i]) then xs[i].auction.itemData.id else xs[i].item.id)
  }

  /** The three trade-state filters never share an element. */
  lemma TradeStateFiltersDisjoint(xs: seq<AuctionInfo>)
    ensures forall a :: a in FilterActiveTrades(xs) ==> a !in FilterExpiredTrades(xs) && a !in FilterClosedTrades(xs)
    ensures forall a :: a in FilterExpiredTrades(xs) ==> a !in FilterClosedTrades(xs)
  {
  }

  /**
   * The three trade-state filters together never hold more entries than the
   * input, and exactly as many when every entry is in one of the three states.
   */
  lemma {:induction false} TradeStateCounts(xs: seq<AuctionInfo>)
    ensures |FilterActiveTrades(xs)| + |FilterExpiredTrades(xs)| + |FilterClosedTrades(xs)| <= |xs|
    ensures (forall i :: 0 <= i < |xs| ==> xs[i].tradeState in {ActiveState, ExpiredState, ClosedState}) ==>
              |FilterActiveTrades(xs)| + |FilterExpiredTrades(xs)| + |FilterClosedTrades(xs)| == |xs|
  {
    if xs != [] {
      TradeStateCounts(xs[1..]);
      FilterCountCons(IsActiveTrade, xs);
      FilterCountCons(IsExpiredTrade, xs);
      FilterCountCons(IsClosedTrade, xs);
      assert forall i :: 0 <= i < |xs[1..]| ==> xs[1..][i] == xs[i + 1];
    }
  }

  /** With distinct coach and player ids, every gold contract is counted exactly once by kind. */
  lemma {:induction false} GoldContractCountSplit(res: Resources, xs: seq<AuctionOrItem>)
    requires CoachIdDistinct(res)
    ensures |FilterGoldContracts(res, xs)| ==
            |FilterGoldPlayerContracts(res, xs)| + |FilterGoldCoachContracts(res, xs)|
  {
    if xs != [] {
      GoldContractCountSplit(res, xs[1..]);
    }
  }

  /** Won and lost trades are the closed trades, split by bid state. */
  lemma ClosedOutcomes(xs: seq<AuctionInfo>)
    ensures FilterWonTrades(xs) == Filter(IsHighestBid, FilterClosedTrades(xs))
    ensures FilterLostTrades(xs) == Filter(IsOutbid, FilterClosedTrades(xs))
    ensures IsSubsequence(FilterWonTrades(xs), FilterClosedTrades(xs))
    ensures IsSubsequence(FilterLostTrades(xs), FilterClosedTrades(xs))
  {
    FilterOfFilter(IsClosedTrade, IsHighestBid, IsWonTrade, xs);
    FilterOfFilter(IsClosedTrade, IsOutbid, IsLostTrade, xs);
    FilterKeepsOrder(IsHighestBid, FilterClosedTrades(xs));
    FilterKeepsOrder(IsOutbid, FilterClosedTrades(xs));
  }

  /** Winning and losing trades are the active trades, split by bid state. */
  lemma ActiveOutcomes(xs: seq<AuctionInfo>)
    ensures FilterWinningTrades(xs) == Filter(IsHighestBid, FilterActiveTrades(xs))
    ensures FilterLosingTrades(xs) == Filter(IsOutbid, FilterActiveTrades(xs))
    ensures IsSubsequence(FilterWinningTrades(xs), FilterActiveTrades(xs))
    ensures IsSubsequence(FilterLosingTrades(xs), FilterActiveTrades(xs))
  {
    FilterOfFilter(IsActiveTrade, IsHighestBid, IsWinningTrade, xs);
    FilterOfFilter(IsActiveTrade, IsOutbid, IsLosingTrade, xs);
    FilterKeepsOrder(IsHighestBid, FilterActiveTrades(xs));
    FilterKeepsOrder(IsOutbid, FilterActiveTrades(xs));
  }

  /**
   * Lost trades are the closed entries among the outbid trades, and losing
   * trades the active ones: the outbid filter admits both.
   */
  lemma OutbidOutcomes(xs: seq<AuctionInfo>)
    ensures FilterLostTrades(xs) == Filter(IsClosedTrade, FilterOutbidTrades(xs))
    ensures FilterLosingTrades(xs) == Filter(IsActiveTrade, FilterOutbidTrades(xs))
    ensures IsSubsequence(FilterLostTrades(xs), FilterOutbidTrades(xs))
    ensures |FilterLostTrades(xs)| + |FilterLosingTrades(xs)| <= |FilterOutbidTrades(xs)|
  {
    FilterOfFilter(IsOutbid, IsClosedTrade, IsLostTrade, xs);
    FilterOfFilter(IsOutbid, IsActiveTrade, IsLosingTrade, xs);
    FilterKeepsOrder(IsClosedTrade, FilterOutbidTrades(xs));
    TradeStateCounts(FilterOutbidTrades(xs));
  }
}
