/**
 * The decisions the trader (src/index.ts) takes in one cycle, as functions
 * of what the market answers: which commands it sends to the market, which
 * metrics it reports, and how it updates its per-account ledger. The
 * `FutAutoTrader` class in trader.dfy carries them out step by step.
 *
 * Every remote call of an account is answered from a `Remote` snapshot;
 * the calls that change something on the market are recorded as `Command`s.
 */
module TradeRules {
  import opened Wrappers
  import opened Collections
  import opened Fut18
  import Utils
  import Metrics

  const GoldPlayerContractResourceId: int := 5001006
  const GoldCoachContractResourceId: int := 5001013
  /** The price one contract is valued at in the club value. */
  const ContractPrice: int := 200
  /** The price of every bid, and the search's `macr` parameter. */
  const BidPrice: int := 150
  /** An auction is bid on only while its current bid is at most this. */
  const BidCeiling: int := 100
  /** The number of auctions one search page holds. */
  const PageSize: int := 50
  /** Expired contracts are relisted once there are this many. */
  const RelistThreshold: int := 10
  /** A listing runs for an hour. */
  const ListingDuration: int := 3600
  /** The quality gate of a gold contract. */
  const GoldRareflag: int := 1
  const MinDiscardValue: int := 63

  /** The trade states the pile loop walks, in its order. */
  const PileStates: seq<string> := [ActiveState, ClosedState, ExpiredState]

  /** The trader's ledger of one account (`def.FifaFut18AccountInfo`). */
  datatype AccountInfo = AccountInfo(
    credits: int,
    listingSize: int,
    listedItems: int,
    clubValue: int,
    transferListSize: int)

  /** The starting bid and the buy-now price of a listing. */
  datatype ListingPrice = ListingPrice(startingBid: int, buyNowPrice: int)

  /**
   * What an account's remote calls answer during one cycle. `massInfo` is
   * `None` when `getUserMassInfo` throws; a trade id in `rejectedBids` makes
   * the bid on it throw.
   */
  datatype Remote = Remote(
    name: string,
    massInfo: Option<UserMassInfo>,
    items: seq<Item>,
    clubSendReply: seq<SendResult>,
    watchList: seq<AuctionInfo>,
    tradePile: seq<AuctionInfo>,
    consumables: seq<Consumable>,
    transferReply: seq<SendResult>,
    listingPrice: ListingPrice,
    searchResult: seq<AuctionInfo>,
    rejectedBids: set<int>)

  /** The remote calls that change something on the market. */
  datatype Op =
    | DeleteSold
    | Relist
    | SendToClub(itemIds: seq<int>)
    | DeleteWatch(tradeIds: seq<int>)
    | SendToTransfer(resourceIds: seq<int>)
    | List(itemId: int, startingBid: int, buyNowPrice: int, duration: int)
    | Search(start: int, num: int, macr: int)
    | PlaceBid(tradeId: int, price: int)

  datatype Command = Command(account: string, op: Op)

  /**
   * What one step does to an account: its new ledger, the commands and the
   * metrics it issues, and whether it ran to its end (`false` when it threw).
   */
  datatype Effects = Effects(
    info: AccountInfo,
    commands: seq<Command>,
    metrics: seq<Metrics.Metric>,
    completed: bool)

  // ---------------------------------------------------------------------
  // Contract recognition
  // ---------------------------------------------------------------------

  predicate IsGoldPlayerItem(item: Item) { item.resourceId == GoldPlayerContractResourceId }
  predicate IsGoldCoachItem(item: Item) { item.resourceId == GoldCoachContractResourceId }
  predicate IsContractItem(item: Item) { IsGoldPlayerItem(item) || IsGoldCoachItem(item) }

  /** `isGoldContract`: a player or coach contract of gold quality. */
  predicate IsGoldContract(item: Item) {
    IsContractItem(item) && item.rareflag == GoldRareflag && item.discardValue >= MinDiscardValue
  }

  /** The resource ids the trader hard-codes, as the classifier's parameter. */
  function TraderResources(): (res: Utils.Resources)
    ensures Utils.CoachIdDistinct(res)
  {
    Utils.Resources(GoldPlayerContractResourceId, GoldPlayerContractResourceId, GoldCoachContractResourceId)
  }

  /**
   * The trader's gold test is the classifier's, narrowed by quality: a gold
   * contract is classified as the kind its resource id names.
   */
  lemma GoldContractsAreClassified(item: Item)
    ensures IsGoldContract(item) ==> Utils.IsGoldContract(TraderResources(), Utils.Bare(item))
    ensures IsContractItem(item) <==> Utils.IsGoldContract(TraderResources(), Utils.Bare(item))
    ensures IsGoldPlayerItem(item) <==> Utils.GetContractType(TraderResources(), Utils.Bare(item)) == Utils.GoldPlayer
    ensures IsGoldCoachItem(item) <==> Utils.GetContractType(TraderResources(), Utils.Bare(item)) == Utils.GoldCoach
  {
  }

  predicate IsGoldAuction(a: AuctionInfo) { IsGoldContract(a.itemData) }
  predicate OnGoldPlayer(a: AuctionInfo) { IsGoldPlayerItem(a.itemData) }
  predicate OnGoldCoach(a: AuctionInfo) { IsGoldCoachItem(a.itemData) }
  predicate OnContract(a: AuctionInfo) { IsContractItem(a.itemData) }

  /** The emission pair for a player value and a coach value. */
  function PlayerCoach(account: string, name: Metrics.Name, playerValue: Metrics.Value, coachValue: Metrics.Value)
    : (ms: seq<Metrics.Metric>)
    ensures |ms| == 2 && ms[0].name == name && ms[1].name == name
    ensures ms[0].value == playerValue && ms[1].value == coachValue
    ensures Metrics.HasDim(ms[0], Metrics.ContractTypeDim, Metrics.Kind(Utils.GoldPlayer))
    ensures Metrics.HasDim(ms[1], Metrics.ContractTypeDim, Metrics.Kind(Utils.GoldCoach))
  {
    [ Metrics.Emission(account, Metrics.KindOnly(Utils.GoldPlayer), name, playerValue),
      Metrics.Emission(account, Metrics.KindOnly(Utils.GoldCoach), name, coachValue) ]
  }

  // ---------------------------------------------------------------------
  // sendPurchasedContractsToClub
  // ---------------------------------------------------------------------

  /** `_.map(items, (item) => item.id)`. */
  function ItemIds(items: seq<Item>): (ids: seq<int>)
    ensures |ids| == |items|
    ensures forall i :: 0 <= i < |items| ==> ids[i] == items[i].id
  {
    seq(|items|, i requires 0 <= i < |items| => items[i].id)
  }

  /** `_.map(auctions, (item) => item.itemData.id)`. */
  function AuctionItemIds(auctions: seq<AuctionInfo>): (ids: seq<int>)
    ensures |ids| == |auctions|
    ensures forall i :: 0 <= i < |auctions| ==> ids[i] == auctions[i].itemData.id
  {
    seq(|auctions|, i requires 0 <= i < |auctions| => auctions[i].itemData.id)
  }

  /** The unassigned contracts sent to the club: every player or coach contract among the items. */
  function ClubTargets(items: seq<Item>): seq<int> {
    ItemIds(Filter(IsContractItem, items))
  }

  /**
   * Moving unassigned contracts to the club. The purchase metrics are
   * reported only when every item of the reply succeeded, and each only
   * when its kind is present.
   */
  function InventoryStep(r: Remote): (seq<Command>, seq<Metrics.Metric>) {
    var targets := ClubTargets(r.items);
    var players := |Filter(IsGoldPlayerItem, r.items)|;
    var coaches := |Filter(IsGoldCoachItem, r.items)|;
    if |targets| == 0 then ([], [])
    else if CountSuccesses(r.clubSendReply) != |targets| then ([Command(r.name, SendToClub(targets))], [])
    else
      ([Command(r.name, SendToClub(targets))],
       (if players > 0 then [Metrics.Emission(r.name, Metrics.KindOnly(Utils.GoldPlayer), Metrics.ContractsPurchased, Metrics.Count(players))] else []) +
       (if coaches > 0 then [Metrics.Emission(r.name, Metrics.KindOnly(Utils.GoldCoach), Metrics.ContractsPurchased, Metrics.Count(coaches))] else []))
  }

  /** Won auctions (closed, highest bid) go to the club; the reply is not read. */
  function WonStep(r: Remote): (seq<Command>, seq<Metrics.Metric>) {
    var won := Utils.FilterWonTrades(r.watchList);
    if |won| == 0 then ([], [])
    else
      ([Command(r.name, SendToClub(AuctionItemIds(won)))],
       PlayerCoach(r.name, Metrics.ContractsPurchased,
         Metrics.Count(|Filter(OnGoldPlayer, won)|), Metrics.Count(|Filter(OnGoldCoach, won)|)))
  }

  /** Lost auctions (closed, outbid) are removed from the watch list. */
  function LostStep(r: Remote): (seq<Command>, seq<Metrics.Metric>) {
    var lost := Utils.FilterLostTrades(r.watchList);
    if |lost| == 0 then ([], [])
    else
      ([Command(r.name, DeleteWatch(Utils.GetTradeIds(lost)))],
       PlayerCoach(r.name, Metrics.ContractsOutbid,
         Metrics.Count(|Filter(OnGoldPlayer, lost)|), Metrics.Count(|Filter(OnGoldCoach, lost)|)))
  }

  /** The commands of `sendPurchasedContractsToClub`: inventory, won auctions, lost auctions. */
  function ClubCommands(r: Remote): seq<Command> {
    InventoryStep(r).0 + WonStep(r).0 + LostStep(r).0
  }

  /** The metrics of `sendPurchasedContractsToClub`, in the same order. */
  function ClubReports(r: Remote): seq<Metrics.Metric> {
    InventoryStep(r).1 + WonStep(r).1 + LostStep(r).1
  }

  /** `sendPurchasedContractsToClub`: the ledger is left as it is. */
  function ClubEffects(r: Remote, info: AccountInfo): Effects {
    Effects(info, ClubCommands(r), ClubReports(r), true)
  }

  /** An id is among the ids of some items exactly when one of them carries it. */
  lemma ItemIdsCover(items: seq<Item>)
    ensures forall id :: id in ItemIds(items) <==> exists item :: item in items && item.id == id
  {
    var ids := ItemIds(items);
    forall id | id in ids ensures exists item :: item in items && item.id == id {
      var k :| 0 <= k < |ids| && ids[k] == id;
      assert items[k] in items;
    }
    forall item | item in items ensures item.id in ids {
      var k :| 0 <= k < |items| && items[k] == item;
      assert ids[k] == item.id;
    }
  }

  /**
   * Every player or coach contract among the items is sent to the club, in
   * order, and nothing else is; their number is the players plus the coaches.
   */
  lemma ClubTargetsAreContracts(items: seq<Item>)
    ensures forall id :: id in ClubTargets(items) <==> exists item :: item in items && IsContractItem(item) && item.id == id
    ensures |ClubTargets(items)| == |Filter(IsGoldPlayerItem, items)| + |Filter(IsGoldCoachItem, items)|
  {
    var contracts := Filter(IsContractItem, items);
    ItemIdsCover(contracts);
    FilterCountSplit(IsGoldPlayerItem, IsGoldCoachItem, IsContractItem, items);
  }

  /**
   * The inventory's purchase metrics appear only after a reply whose
   * successes match the targets in number; a send is issued exactly when
   * there is something to send.
   */
  lemma InventoryReportsOnlyFullSuccess(r: Remote)
    ensures InventoryStep(r).0 != [] <==> ClubTargets(r.items) != []
    ensures InventoryStep(r).1 != [] ==> CountSuccesses(r.clubSendReply) == |ClubTargets(r.items)| > 0
    ensures forall m :: m in InventoryStep(r).1 ==> m.name == Metrics.ContractsPurchased
  {
  }

  /** An id is among the item ids of some auctions exactly when one of them wraps an item carrying it. */
  lemma AuctionItemIdsCover(auctions: seq<AuctionInfo>)
    ensures forall id :: id in AuctionItemIds(auctions) <==> exists a :: a in auctions && a.itemData.id == id
  {
    var ids := AuctionItemIds(auctions);
    forall id | id in ids ensures exists a :: a in auctions && a.itemData.id == id {
      var k :| 0 <= k < |ids| && ids[k] == id;
      assert auctions[k] in auctions;
    }
    forall a | a in auctions ensures a.itemData.id in ids {
      var k :| 0 <= k < |auctions| && auctions[k] == a;
      assert ids[k] == a.itemData.id;
    }
  }

  /** An id is among the trade ids of some auctions exactly when one of them carries it. */
  lemma TradeIdsCover(auctions: seq<AuctionInfo>)
    ensures forall id :: id in Utils.GetTradeIds(auctions) <==> exists a :: a in auctions && a.tradeId == id
  {
    var ids := Utils.GetTradeIds(auctions);
    forall id | id in ids ensures exists a :: a in auctions && a.tradeId == id {
      var k :| 0 <= k < |ids| && ids[k] == id;
      assert auctions[k] in auctions;
    }
    forall a | a in auctions ensures a.tradeId in ids {
      var k :| 0 <= k < |auctions| && auctions[k] == a;
      assert ids[k] == a.tradeId;
    }
  }

  /**
   * Every won auction's item is in the one send to the club, and every
   * item sent there is that of a won auction.
   */
  lemma WonItemsGoToClub(r: Remote)
    ensures forall a :: a in r.watchList && Utils.IsWonTrade(a) ==>
      |WonStep(r).0| == 1 && WonStep(r).0[0].op.SendToClub? && a.itemData.id in WonStep(r).0[0].op.itemIds
    ensures forall c, id :: c in WonStep(r).0 && c.op.SendToClub? && id in c.op.itemIds ==>
      exists a :: a in r.watchList && Utils.IsWonTrade(a) && a.itemData.id == id
  {
    var won := Utils.FilterWonTrades(r.watchList);
    AuctionItemIdsCover(won);
    assert WonStep(r).0 == if won == [] then [] else [Command(r.name, SendToClub(AuctionItemIds(won)))];
  }

  /**
   * Every lost auction's trade id is in the one removal from the watch
   * list, and every trade id removed is that of a lost auction.
   */
  lemma LostTradesLeaveWatchList(r: Remote)
    ensures forall a :: a in r.watchList && Utils.IsLostTrade(a) ==>
      |LostStep(r).0| == 1 && LostStep(r).0[0].op.DeleteWatch? && a.tradeId in LostStep(r).0[0].op.tradeIds
    ensures forall c, id :: c in LostStep(r).0 && c.op.DeleteWatch? && id in c.op.tradeIds ==>
      exists a :: a in r.watchList && Utils.IsLostTrade(a) && a.tradeId == id
  {
    var lost := Utils.FilterLostTrades(r.watchList);
    TradeIdsCover(lost);
    assert LostStep(r).0 == if lost == [] then [] else [Command(r.name, DeleteWatch(Utils.GetTradeIds(lost)))];
  }

  /**
   * No watched auction is both won and lost, together they are at most the
   * closed ones, and each bulk call is issued exactly when there is an
   * auction for it.
   */
  lemma WatchListSettled(r: Remote)
    ensures forall a :: a in Utils.FilterWonTrades(r.watchList) ==> a !in Utils.FilterLostTrades(r.watchList)
    ensures |Utils.FilterWonTrades(r.watchList)| + |Utils.FilterLostTrades(r.watchList)| <=
            |Utils.FilterClosedTrades(r.watchList)|
    ensures WonStep(r).0 != [] <==> exists a :: a in r.watchList && Utils.IsWonTrade(a)
    ensures LostStep(r).0 != [] <==> exists a :: a in r.watchList && Utils.IsLostTrade(a)
  {
    var won := Utils.FilterWonTrades(r.watchList);
    var lost := Utils.FilterLostTrades(r.watchList);
    Utils.ClosedOutcomes(r.watchList);
    var closed := Utils.FilterClosedTrades(r.watchList);
    FilterCountSplit(Utils.IsHighestBid, Utils.IsOutbid,
      (a: AuctionInfo) => Utils.IsHighestBid(a) || Utils.IsOutbid(a), closed);
    if WonStep(r).0 == [] {
      assert won == [];
    }
    if LostStep(r).0 == [] {
      assert lost == [];
    }
  }

  // ---------------------------------------------------------------------
  // removeOrRelistSellings
  // ---------------------------------------------------------------------

  /** The gold contracts on the trade pile. */
  function PileContracts(pile: seq<AuctionInfo>): seq<AuctionInfo> {
    Filter(IsGoldAuction, pile)
  }

  /** A player or coach contract that has not sold: it still counts as listed. */
  predicate IsListedPlayer(a: AuctionInfo) { a.tradeState != ClosedState && OnGoldPlayer(a) }
  predicate IsListedCoach(a: AuctionInfo) { a.tradeState != ClosedState && OnGoldCoach(a) }
  predicate IsListedContract(a: AuctionInfo) { a.tradeState != ClosedState && OnContract(a) }
  predicate IsUnsold(a: AuctionInfo) { a.tradeState != ClosedState }

  /** The player contracts in one trade state. */
  function PlayerInState(state: string): AuctionInfo -> bool {
    (a: AuctionInfo) => a.tradeState == state && OnGoldPlayer(a)
  }

  /** The coach contracts in one trade state. */
  function CoachInState(state: string): AuctionInfo -> bool {
    (a: AuctionInfo) => a.tradeState == state && OnGoldCoach(a)
  }

  /** The contract-type and trade-state dimensions. */
  function StateDims(t: Utils.ContractType, state: string): Metrics.Dimensions {
    map[Metrics.ContractTypeDim := Metrics.Kind(t), Metrics.TradeStateDim := Metrics.Text(state)]
  }

  /** The item counts of one trade state, each reported only when it is not zero. */
  function StateCounts(account: string, contracts: seq<AuctionInfo>, state: string): seq<Metrics.Metric> {
    var players := |Filter(PlayerInState(state), contracts)|;
    var coaches := |Filter(CoachInState(state), contracts)|;
    (if players > 0 then [Metrics.Emission(account, StateDims(Utils.GoldPlayer, state), Metrics.ListingItems, Metrics.Last(players))] else []) +
    (if coaches > 0 then [Metrics.Emission(account, StateDims(Utils.GoldCoach, state), Metrics.ListingItems, Metrics.Last(coaches))] else [])
  }

  /** The reports particular to one trade state: averages while active or expired, sales when closed. */
  function StateReports(account: string, contracts: seq<AuctionInfo>, state: string): seq<Metrics.Metric> {
    var players := |Filter(PlayerInState(state), contracts)|;
    var coaches := |Filter(CoachInState(state), contracts)|;
    (if state == ActiveState
     then PlayerCoach(account, Metrics.ActiveContractsAverage, Metrics.Average(players), Metrics.Average(coaches))
     else []) +
    (if state == ClosedState && players > 0
     then [Metrics.Emission(account, Metrics.KindOnly(Utils.GoldPlayer), Metrics.ContractsSold, Metrics.Count(players))]
     else []) +
    (if state == ClosedState && coaches > 0
     then [Metrics.Emission(account, Metrics.KindOnly(Utils.GoldCoach), Metrics.ContractsSold, Metrics.Count(coaches))]
     else []) +
    (if state == ExpiredState
     then PlayerCoach(account, Metrics.ExpiredContractsAverage, Metrics.Average(players), Metrics.Average(coaches))
     else [])
  }

  /** One round of the pile loop: the metrics it reports for one trade state. */
  function StateMetrics(account: string, contracts: seq<AuctionInfo>, state: string): seq<Metrics.Metric> {
    StateCounts(account, contracts, state) + StateReports(account, contracts, state)
  }

  /** The pile loop over several trade states, in order. */
  function StatesMetrics(account: string, contracts: seq<AuctionInfo>, states: seq<string>): seq<Metrics.Metric>
    decreases |states|
  {
    if states == [] then []
    else StatesMetrics(account, contracts, states[..|states| - 1]) + StateMetrics(account, contracts, states[|states| - 1])
  }

  /** The pile loop over one more trade state adds that state's metrics at the end. */
  lemma StatesMetricsStep(account: string, contracts: seq<AuctionInfo>, states: seq<string>, k: nat)
    requires k < |states|
    ensures StatesMetrics(account, contracts, states[..k + 1])
      == StatesMetrics(account, contracts, states[..k]) + StateMetrics(account, contracts, states[k])
  {
    assert states[..k + 1][..k] == states[..k];
  }

  /** The relist report: one relist, and how many contracts of each kind had expired. */
  function RelistMetrics(account: string, contracts: seq<AuctionInfo>): seq<Metrics.Metric> {
    [Metrics.Emission(account, map[], Metrics.Relist, Metrics.Count(1))] +
    PlayerCoach(account, Metrics.ContractsRelisted,
      Metrics.Count(|Filter(PlayerInState(ExpiredState), contracts)|),
      Metrics.Count(|Filter(CoachInState(ExpiredState), contracts)|))
  }

  /** The commands of the pile step: remove what sold, relist what expired once there is enough of it. */
  function PileCommands(r: Remote): seq<Command> {
    var contracts := PileContracts(r.tradePile);
    (if |Utils.FilterClosedTrades(contracts)| > 0 then [Command(r.name, DeleteSold)] else []) +
    (if |Utils.FilterExpiredTrades(contracts)| >= RelistThreshold then [Command(r.name, Relist)] else [])
  }

  /** The metrics of the pile step: listed counts, the per-state loop, and the relist report. */
  function PileMetrics(r: Remote): seq<Metrics.Metric> {
    ListedMetrics(r) + StatesMetrics(r.name, PileContracts(r.tradePile), PileStates) + RelistReport(r)
  }

  /** The gauges of the player and coach contracts still listed on the pile. */
  function ListedMetrics(r: Remote): seq<Metrics.Metric> {
    var contracts := PileContracts(r.tradePile);
    PlayerCoach(r.name, Metrics.ContractsListing,
      Metrics.Last(|Filter(IsListedPlayer, contracts)|), Metrics.Last(|Filter(IsListedCoach, contracts)|))
  }

  /** The relist report, sent only when enough contracts have expired. */
  function RelistReport(r: Remote): seq<Metrics.Metric> {
    var contracts := PileContracts(r.tradePile);
    if |Utils.FilterExpiredTrades(contracts)| >= RelistThreshold then RelistMetrics(r.name, contracts) else []
  }

  /**
   * `removeOrRelistSellings`: contracts still listed are added to the club
   * value, every pile entry counts as listed, sold contracts are removed and
   * expired ones relisted once there are enough of them.
   */
  function PileEffects(r: Remote, info: AccountInfo): Effects {
    Effects(PileInfo(r, info), PileCommands(r), PileMetrics(r), true)
  }

  /** The ledger after the pile step. */
  function PileInfo(r: Remote, info: AccountInfo): AccountInfo {
    var contracts := PileContracts(r.tradePile);
    var listed := |Filter(IsListedPlayer, contracts)| + |Filter(IsListedCoach, contracts)|;
    info.(clubValue := info.clubValue + listed * ContractPrice, listedItems := |r.tradePile|)
  }

  /** Sold contracts are removed exactly when some gold contract on the pile has closed. */
  lemma PileRemovesSold(r: Remote)
    ensures Command(r.name, DeleteSold) in PileCommands(r) <==>
      exists a :: a in r.tradePile && IsGoldAuction(a) && a.tradeState == ClosedState
  {
    var contracts := PileContracts(r.tradePile);
    var sold := Utils.FilterClosedTrades(contracts);
    var second: seq<Command> := if |Utils.FilterExpiredTrades(contracts)| >= RelistThreshold then [Command(r.name, Relist)] else [];
    if |sold| > 0 {
      assert PileCommands(r) == [Command(r.name, DeleteSold)] + second;
      assert PileCommands(r)[0] == Command(r.name, DeleteSold);
      var a := sold[0];
      assert a in sold;
      assert a in contracts && a.tradeState == ClosedState;
      assert a in r.tradePile && IsGoldAuction(a);
    } else {
      assert PileCommands(r) == second;
      assert Command(r.name, DeleteSold) !in second;
      forall a | a in r.tradePile && IsGoldAuction(a) ensures a.tradeState != ClosedState {
        assert a in contracts;
        assert a !in sold;
      }
    }
  }

  /** Expired contracts are relisted exactly when at least ten gold contracts on the pile have expired. */
  lemma PileRelistsExpired(r: Remote)
    ensures Command(r.name, Relist) in PileCommands(r) <==>
      |Utils.FilterExpiredTrades(PileContracts(r.tradePile))| >= RelistThreshold
  {
    var contracts := PileContracts(r.tradePile);
    var first: seq<Command> := if |Utils.FilterClosedTrades(contracts)| > 0 then [Command(r.name, DeleteSold)] else [];
    var second: seq<Command> := if |Utils.FilterExpiredTrades(contracts)| >= RelistThreshold then [Command(r.name, Relist)] else [];
    assert PileCommands(r) == first + second;
    assert Command(r.name, Relist) !in first;
  }

  /** The pile step sends nothing but a removal and a relist, each at most once. */
  lemma PileSendsOnlyRemovalAndRelist(r: Remote)
    ensures |PileCommands(r)| <= 2
    ensures forall c :: c in PileCommands(r) ==> c.account == r.name && (c.op == DeleteSold || c.op == Relist)
  {
    var contracts := PileContracts(r.tradePile);
    var first: seq<Command> := if |Utils.FilterClosedTrades(contracts)| > 0 then [Command(r.name, DeleteSold)] else [];
    var second: seq<Command> := if |Utils.FilterExpiredTrades(contracts)| >= RelistThreshold then [Command(r.name, Relist)] else [];
    assert PileCommands(r) == first + second;
    forall c | c in first + second ensures c.account == r.name && (c.op == DeleteSold || c.op == Relist) {
      assert c in first || c in second;
    }
  }

  /**
   * The pile step counts every pile entry as listed, gold or not, adds the
   * contract price for every gold contract that has not sold, and leaves the
   * credits and the capacities alone. Listed and sold contracts make up all
   * the gold contracts on the pile.
   */
  lemma {:induction false} PileLedger(r: Remote, info: AccountInfo)
    ensures var e := PileEffects(r, info);
      var contracts := PileContracts(r.tradePile);
      && e.info.listedItems == |r.tradePile|
      && e.info.clubValue == info.clubValue + ContractPrice * |Filter(IsUnsold, contracts)|
      && e.info.credits == info.credits
      && e.info.listingSize == info.listingSize
      && e.info.transferListSize == info.transferListSize
      && |Filter(IsUnsold, contracts)| + |Utils.FilterClosedTrades(contracts)| == |contracts|
  {
    var contracts := PileContracts(r.tradePile);
    FilterCountSplit(IsListedPlayer, IsListedCoach, IsListedContract, contracts);
    FilterCongruent(IsListedContract, IsUnsold, contracts);
    FilterComplement(Utils.IsClosedTrade, IsUnsold, contracts);
  }

  /** The relist report accounts for every expired gold contract, by kind. */
  lemma {:induction false} RelistCountsExpired(account: string, contracts: seq<AuctionInfo>)
    requires forall i :: 0 <= i < |contracts| ==> IsGoldAuction(contracts[i])
    ensures var ms := RelistMetrics(account, contracts);
      && |ms| == 3 && ms[0].name == Metrics.Relist
      && ms[1].value.n + ms[2].value.n == |Utils.FilterExpiredTrades(contracts)|
  {
    var expiredContract := (a: AuctionInfo) => a.tradeState == ExpiredState && OnContract(a);
    FilterCountSplit(PlayerInState(ExpiredState), CoachInState(ExpiredState), expiredContract, contracts);
    FilterCongruent(expiredContract, Utils.IsExpiredTrade, contracts);
  }

  // ---------------------------------------------------------------------
  // listContracts
  // ---------------------------------------------------------------------

  /** `found ? found.count : 0`. */
  function ConsumableCount(c: Option<Consumable>): int {
    if c.Some? then c.value.count else 0
  }

  /** The kind a listing is reported under, decided by the listed resource. */
  function ListedKind(resourceId: int): Utils.ContractType {
    if resourceId == GoldPlayerContractResourceId then Utils.GoldPlayer else Utils.GoldCoach
  }

  /** A coach contract is held in the club and the account has room on its transfer list. */
  predicate ListingAttempted(r: Remote, info: AccountInfo) {
    var coaches := FindConsumable(r.consumables, GoldCoachContractResourceId);
    coaches.Some? && coaches.value.count > 0 && info.listedItems < info.listingSize
  }

  /** The ledger once the player and coach contracts held in the club are valued. */
  function HeldValue(r: Remote, info: AccountInfo): AccountInfo {
    var players := FindConsumable(r.consumables, GoldPlayerContractResourceId);
    var coaches := FindConsumable(r.consumables, GoldCoachContractResourceId);
    info.(clubValue := info.clubValue
      + ContractPrice * ConsumableCount(players) + ContractPrice * ConsumableCount(coaches))
  }

  /** The gauges of the contracts held in the club. */
  function HeldMetrics(r: Remote): seq<Metrics.Metric> {
    PlayerCoach(r.name, Metrics.ContractsInClub,
      Metrics.Last(ConsumableCount(FindConsumable(r.consumables, GoldPlayerContractResourceId))),
      Metrics.Last(ConsumableCount(FindConsumable(r.consumables, GoldCoachContractResourceId))))
  }

  /**
   * The listing attempt on a valued ledger, which it does not change: one
   * coach contract is moved to the transfer list and listed, when there is
   * one and there is room. Reading the first entry of an empty transfer
   * reply throws.
   */
  function ListingAttempt(r: Remote, info: AccountInfo): Effects {
    var target := FindConsumable(r.consumables, GoldCoachContractResourceId);
    if target.None? || target.value.count <= 0 || info.listedItems >= info.listingSize then
      Effects(info, [], [], true)
    else
      var send := Command(r.name, SendToTransfer([target.value.resourceId]));
      if |r.transferReply| == 0 then Effects(info, [send], [], false)
      else if !r.transferReply[0].success then Effects(info, [send], [], true)
      else
        var listing := Command(r.name, List(r.transferReply[0].id,
          r.listingPrice.startingBid, r.listingPrice.buyNowPrice, ListingDuration));
        var listed := Metrics.Emission(r.name, Metrics.KindOnly(ListedKind(target.value.resourceId)),
          Metrics.ListContracts, Metrics.Count(1));
        Effects(info, [send, listing], [listed], true)
  }

  /** `listContracts`: value the contracts held in the club, report them, then attempt one listing. */
  function ListingEffects(r: Remote, info: AccountInfo): Effects {
    var valued := HeldValue(r, info);
    var attempt := ListingAttempt(r, valued);
    Effects(valued, attempt.commands, HeldMetrics(r) + attempt.metrics, attempt.completed)
  }

  /**
   * The listing step lists at most one contract, always a coach contract:
   * it moves one to the transfer list exactly when one is held and there is
   * room, lists exactly when the transfer list reported that item's success,
   * and fails exactly when the transfer reply came back empty.
   */
  lemma ListingDecision(r: Remote, info: AccountInfo)
    ensures var e := ListingEffects(r, info);
      && |e.commands| <= 2
      && (e.commands != [] <==> ListingAttempted(r, info))
      && (e.commands != [] ==> e.commands[0] == Command(r.name, SendToTransfer([GoldCoachContractResourceId])))
      && (|e.commands| == 2 <==> ListingAttempted(r, info) && |r.transferReply| > 0 && r.transferReply[0].success)
      && (|e.commands| == 2 ==>
            && e.commands[1] == Command(r.name, List(r.transferReply[0].id,
                 r.listingPrice.startingBid, r.listingPrice.buyNowPrice, ListingDuration))
            && |e.metrics| == 3 && e.metrics[2].name == Metrics.ListContracts
            && Metrics.HasDim(e.metrics[2], Metrics.ContractTypeDim, Metrics.Kind(Utils.GoldCoach)))
      && (!e.completed <==> ListingAttempted(r, info) && |r.transferReply| == 0)
  {
    var coaches := FindConsumable(r.consumables, GoldCoachContractResourceId);
    if coaches.Some? {
      assert coaches.value.resourceId == GoldCoachContractResourceId;
      assert ListedKind(coaches.value.resourceId) == Utils.GoldCoach;
    }
  }

  /**
   * The listing step values every player and coach contract held in the
   * club at the contract price and changes nothing else in the ledger: in
   * particular a listed contract is not counted as listed.
   */
  lemma ListingLedger(r: Remote, info: AccountInfo)
    ensures var e := ListingEffects(r, info);
      && e.info.clubValue == info.clubValue + ContractPrice * (
           ConsumableCount(FindConsumable(r.consumables, GoldPlayerContractResourceId)) +
           ConsumableCount(FindConsumable(r.consumables, GoldCoachContractResourceId)))
      && e.info.(clubValue := info.clubValue) == info
      && e.metrics[..2] == PlayerCoach(r.name, Metrics.ContractsInClub,
           Metrics.Last(ConsumableCount(FindConsumable(r.consumables, GoldPlayerContractResourceId))),
           Metrics.Last(ConsumableCount(FindConsumable(r.consumables, GoldCoachContractResourceId))))
  {
  }

  // ---------------------------------------------------------------------
  // tradeB150
  // ---------------------------------------------------------------------

  predicate IsCheap(a: AuctionInfo) { a.currentBid <= BidCeiling }
  predicate IsBiddable(a: AuctionInfo) { IsGoldAuction(a) && IsCheap(a) }

  /** The gold contracts of a search page whose current bid is low enough. */
  function Biddable(results: seq<AuctionInfo>): seq<AuctionInfo> {
    Filter(IsCheap, Filter(IsGoldAuction, results))
  }

  /** The two filters are one: cheap gold contracts, in search order. */
  lemma BiddableAreCheapGoldContracts(results: seq<AuctionInfo>)
    ensures Biddable(results) == Filter(IsBiddable, results)
    ensures IsSubsequence(Biddable(results), results)
  {
    FilterOfFilter(IsGoldAuction, IsCheap, IsBiddable, results);
    FilterKeepsOrder(IsBiddable, results);
  }

  /** What the bid loop leaves: its commands and metrics, the credits, and whether a bid threw. */
  datatype BidRun = BidRun(commands: seq<Command>, metrics: seq<Metrics.Metric>, credits: int, interrupted: bool)

  /** The metric a placed bid reports, whether it went through or threw. */
  function BidMetric(account: string): Metrics.Metric {
    Metrics.Emission(account, map[], Metrics.ContractsBidB150, Metrics.Average(1))
  }

  /**
   * The bid loop of `tradeB150`: a candidate is skipped while the credits
   * are below the bid price; otherwise it is bid on, and the credits drop
   * by the bid price unless the bid throws, which ends the loop.
   */
  function BidLoop(account: string, candidates: seq<AuctionInfo>, credits: int, rejected: set<int>): BidRun
    decreases |candidates|
  {
    if candidates == [] then BidRun([], [], credits, false)
    else if credits < BidPrice then BidLoop(account, candidates[1..], credits, rejected)
    else
      var bid := Command(account, PlaceBid(candidates[0].tradeId, BidPrice));
      if candidates[0].tradeId in rejected then BidRun([bid], [BidMetric(account)], credits, true)
      else
        var rest := BidLoop(account, candidates[1..], credits - BidPrice, rejected);
        BidRun([bid] + rest.commands, [BidMetric(account)] + rest.metrics, rest.credits, rest.interrupted)
  }

  /**
   * The loop places at most one bid per candidate and reports each, pays
   * the bid price for every bid but one that threw, and so never spends
   * credits it does not have: even the bid that threw was placed only while
   * the credits covered it.
   */
  lemma {:induction false} BidLoopSpends(account: string, candidates: seq<AuctionInfo>, credits: int, rejected: set<int>)
    ensures var run := BidLoop(account, candidates, credits, rejected);
      && |run.commands| == |run.metrics| <= |candidates|
      && (forall i :: 0 <= i < |run.commands| ==> run.commands[i].op.PlaceBid?)
      && run.credits == credits - BidPrice * (|run.commands| - (if run.interrupted then 1 else 0))
      && (credits >= 0 ==> run.credits >= 0)
      && (credits >= 0 ==> BidPrice * |run.commands| <= credits)
      && (run.interrupted ==> |run.commands| > 0)
    decreases |candidates|
  {
    if candidates != [] {
      if credits < BidPrice {
        BidLoopSpends(account, candidates[1..], credits, rejected);
      } else if candidates[0].tradeId !in rejected {
        BidLoopSpends(account, candidates[1..], credits - BidPrice, rejected);
        var run := BidLoop(account, candidates, credits, rejected);
        var rest := BidLoop(account, candidates[1..], credits - BidPrice, rejected);
        assert forall i :: 1 <= i < |run.commands| ==> run.commands[i] == rest.commands[i - 1];
      }
    }
  }

  /**
   * The bid loop from position `k` on is the loop over that one candidate,
   * followed, unless its bid threw, by the loop over the rest with the
   * credits it left.
   */
  lemma BidLoopAt(account: string, candidates: seq<AuctionInfo>, k: nat, credits: int, rejected: set<int>)
    requires k < |candidates|
    ensures var step := BidLoop(account, [candidates[k]], credits, rejected);
      var rest := BidLoop(account, candidates[k + 1..], step.credits, rejected);
      var run := BidLoop(account, candidates[k..], credits, rejected);
      && (step.interrupted ==> run == step)
      && (!step.interrupted ==>
            run == BidRun(step.commands + rest.commands, step.metrics + rest.metrics, rest.credits, rest.interrupted))
  {
    assert candidates[k..][0] == candidates[k] && candidates[k..][1..] == candidates[k + 1..];
    assert [candidates[k]][1..] == [];
  }

  /** Every command of a run is a bid at the bid price on one of the candidates, reported by the bid metric. */
  predicate BidsOn(account: string, candidates: seq<AuctionInfo>, run: BidRun) {
    && (forall i :: 0 <= i < |run.metrics| ==> run.metrics[i] == BidMetric(account))
    && (forall i :: 0 <= i < |run.commands| ==>
          && run.commands[i].account == account
          && run.commands[i].op.PlaceBid?
          && run.commands[i].op.price == BidPrice
          && run.commands[i].op.tradeId in Utils.GetTradeIds(candidates))
  }

  /** Every bid of the loop is a bid at the bid price on one of the candidates. */
  lemma {:induction false} BidsOnCandidates(account: string, candidates: seq<AuctionInfo>, credits: int, rejected: set<int>)
    ensures BidsOn(account, candidates, BidLoop(account, candidates, credits, rejected))
    decreases |candidates|
  {
    if candidates != [] {
      var rest := candidates[1..];
      var ids := Utils.GetTradeIds(candidates);
      var restIds := Utils.GetTradeIds(rest);
      assert forall t :: t in restIds ==> t in ids by {
        forall t | t in restIds ensures t in ids {
          var k :| 0 <= k < |restIds| && restIds[k] == t;
          assert ids[k + 1] == t;
        }
      }
      if credits < BidPrice {
        BidsOnCandidates(account, rest, credits, rejected);
      } else if candidates[0].tradeId !in rejected {
        BidsOnCandidates(account, rest, credits - BidPrice, rejected);
        var run := BidLoop(account, candidates, credits, rejected);
        var tail := BidLoop(account, rest, credits - BidPrice, rejected);
        assert run.commands == [Command(account, PlaceBid(candidates[0].tradeId, BidPrice))] + tail.commands;
        assert run.metrics == [BidMetric(account)] + tail.metrics;
        assert ids[0] == candidates[0].tradeId;
        assert forall i :: 1 <= i < |run.commands| ==> run.commands[i] == tail.commands[i - 1];
      } else {
        assert ids[0] == candidates[0].tradeId;
      }
    }
  }

  /** Every bid of a run before the last went through; the last threw exactly when the run was interrupted. */
  predicate StopsAtRejection(run: BidRun, rejected: set<int>) {
    && (forall i :: 0 <= i < |run.commands| - 1 ==>
          run.commands[i].op.PlaceBid? && run.commands[i].op.tradeId !in rejected)
    && (|run.commands| > 0 ==>
          run.commands[|run.commands| - 1].op.PlaceBid? &&
          (run.commands[|run.commands| - 1].op.tradeId in rejected <==> run.interrupted))
  }

  /** A bid that throws ends the loop. */
  lemma {:induction false} BidsStopAtRejection(account: string, candidates: seq<AuctionInfo>, credits: int, rejected: set<int>)
    ensures StopsAtRejection(BidLoop(account, candidates, credits, rejected), rejected)
    decreases |candidates|
  {
    if candidates != [] {
      var rest := candidates[1..];
      if credits < BidPrice {
        BidsStopAtRejection(account, rest, credits, rejected);
      } else if candidates[0].tradeId !in rejected {
        BidsStopAtRejection(account, rest, credits - BidPrice, rejected);
        BidLoopSpends(account, rest, credits - BidPrice, rejected);
        var run := BidLoop(account, candidates, credits, rejected);
        var tail := BidLoop(account, rest, credits - BidPrice, rejected);
        assert run.commands == [Command(account, PlaceBid(candidates[0].tradeId, BidPrice))] + tail.commands;
        assert forall i :: 1 <= i < |run.commands| ==> run.commands[i] == tail.commands[i - 1];
        if tail.commands == [] {
          assert run.commands[|run.commands| - 1] == run.commands[0];
        } else {
          assert run.commands[|run.commands| - 1] == tail.commands[|tail.commands| - 1];
        }
      }
    }
  }

  function Min(a: int, b: int): int { if a <= b then a else b }

  /**
   * The run bids on the first candidates, in order, as many as the credits
   * pay for or all of them, and pays the bid price for each.
   */
  predicate BidsInOrder(account: string, candidates: seq<AuctionInfo>, credits: int, run: BidRun) {
    && !run.interrupted
    && |run.commands| == Min(|candidates|, credits / BidPrice)
    && (forall i :: 0 <= i < |run.commands| ==>
          run.commands[i] == Command(account, PlaceBid(candidates[i].tradeId, BidPrice)))
    && run.credits == credits - BidPrice * |run.commands|
  }

  /**
   * With no bid throwing, the loop bids on the first candidates, in order,
   * until the credits no longer cover the bid price.
   */
  lemma {:induction false} BidsFollowBudget(account: string, candidates: seq<AuctionInfo>, credits: int, rejected: set<int>)
    requires credits >= 0
    requires forall a :: a in candidates ==> a.tradeId !in rejected
    ensures BidsInOrder(account, candidates, credits, BidLoop(account, candidates, credits, rejected))
    decreases |candidates|
  {
    if candidates != [] {
      var rest := candidates[1..];
      assert forall a :: a in rest ==> a in candidates;
      if credits < BidPrice {
        BidsFollowBudget(account, rest, credits, rejected);
        assert credits / BidPrice == 0;
      } else {
        BidsFollowBudget(account, rest, credits - BidPrice, rejected);
        assert (credits - BidPrice) / BidPrice == credits / BidPrice - 1;
        var run := BidLoop(account, candidates, credits, rejected);
        var tail := BidLoop(account, rest, credits - BidPrice, rejected);
        assert candidates[0].tradeId !in rejected by { assert candidates[0] in candidates; }
        assert run.commands == [Command(account, PlaceBid(candidates[0].tradeId, BidPrice))] + tail.commands;
        forall i | 1 <= i < |run.commands|
          ensures run.commands[i] == Command(account, PlaceBid(candidates[i].tradeId, BidPrice))
        {
          assert run.commands[i] == tail.commands[i - 1];
          assert rest[i - 1] == candidates[i];
        }
      }
    }
  }

  /**
   * `tradeB150` for the account at position `page`: one search of the
   * page, the found ratio (as numerator, denominator and weight), then the
   * bid loop over the biddable contracts. The ledger's credits are the
   * loop's.
   */
  function BidEffects(r: Remote, page: int, info: AccountInfo): Effects {
    var biddable := Biddable(r.searchResult);
    var total := |r.searchResult|;
    var run := BidLoop(r.name, biddable, info.credits, r.rejectedBids);
    Effects(
      info.(credits := run.credits),
      [Command(r.name, Search(page * PageSize, PageSize, BidPrice))] + run.commands,
      [Metrics.Emission(r.name, map[], Metrics.ContractsSearchB150, Metrics.RatioAverage(|biddable|, total, total))] +
      run.metrics,
      true)
  }

  /**
   * The step searches the page at its offset first, then bids only on cheap
   * gold contracts of that page at the bid price, and changes nothing in the
   * ledger but the credits, which never rise and never drop below zero from
   * a non-negative balance; every bid, even one that threw, was covered by
   * the credits.
   */
  predicate SearchesThenBids(r: Remote, page: int, info: AccountInfo, e: Effects) {
    && |e.commands| > 0
    && e.commands[0] == Command(r.name, Search(page * PageSize, PageSize, BidPrice))
    && (forall i :: 1 <= i < |e.commands| ==>
          e.commands[i].account == r.name && e.commands[i].op.PlaceBid? && e.commands[i].op.price == BidPrice &&
          exists a :: a in r.searchResult && IsGoldAuction(a) && a.currentBid <= BidCeiling && a.tradeId == e.commands[i].op.tradeId)
    && e.info.credits <= info.credits
    && (info.credits >= 0 ==> e.info.credits >= 0)
    && (info.credits >= 0 ==> BidPrice * (|e.commands| - 1) <= info.credits)
    && e.info.(credits := info.credits) == info
  }

  /** The bid step searches first, bids only on cheap gold contracts, and stays within the credits. */
  lemma BidStepWithinBudget(r: Remote, page: int, info: AccountInfo)
    ensures SearchesThenBids(r, page, info, BidEffects(r, page, info))
  {
    var biddable := Biddable(r.searchResult);
    var run := BidLoop(r.name, biddable, info.credits, r.rejectedBids);
    var e := BidEffects(r, page, info);
    BidsOnCandidates(r.name, biddable, info.credits, r.rejectedBids);
    BidLoopSpends(r.name, biddable, info.credits, r.rejectedBids);
    var ids := Utils.GetTradeIds(biddable);
    assert e.commands[1..] == run.commands;
    forall i | 1 <= i < |e.commands|
      ensures e.commands[i].account == r.name && e.commands[i].op.PlaceBid? && e.commands[i].op.price == BidPrice &&
        exists a :: a in r.searchResult && IsGoldAuction(a) && a.currentBid <= BidCeiling && a.tradeId == e.commands[i].op.tradeId
    {
      assert e.commands[i] == e.commands[1..][i - 1];
      var k :| 0 <= k < |ids| && ids[k] == run.commands[i - 1].op.tradeId;
      var a := biddable[k];
      assert a in biddable;
      assert a in Filter(IsGoldAuction, r.searchResult);
    }
  }

  // ---------------------------------------------------------------------
  // intializeAccountInfo and the trade cycle
  // ---------------------------------------------------------------------

  /**
   * What the trader holds between steps: the ledgers, the names of the
   * accounts it works on (never cleared, so they carry over from one cycle
   * to the next), and its two logs.
   */
  datatype TraderState = TraderState(
    infos: map<string, AccountInfo>,
    accounts: seq<string>,
    commands: seq<Command>,
    metrics: seq<Metrics.Metric>)

  /** Every account the trader works on has a ledger. */
  predicate Registered(s: TraderState) {
    forall n :: n in s.accounts ==> n in s.infos
  }

  /** The names of some accounts, in order. */
  function Names(rs: seq<Remote>): (names: seq<string>)
    ensures |names| == |rs|
    ensures forall i :: 0 <= i < |rs| ==> names[i] == rs[i].name
  {
    seq(|rs|, i requires 0 <= i < |rs| => rs[i].name)
  }

  lemma NamesAppend(a: seq<Remote>, b: seq<Remote>)
    ensures Names(a + b) == Names(a) + Names(b)
  {
    assert forall i :: 0 <= i < |a + b| ==> Names(a + b)[i] == (Names(a) + Names(b))[i];
  }

  /**
   * The accounts a round visits, each with the snapshot of that visit, are
   * registered whenever their names are the accounts the trader works on.
   */
  lemma VisitsRegistered(s: TraderState, visits: seq<Remote>)
    requires Registered(s) && Names(visits) == s.accounts
    ensures forall r :: r in visits ==> r.name in s.infos
  {
    forall r | r in visits ensures r.name in s.infos {
      var k :| 0 <= k < |visits| && visits[k] == r;
      assert s.accounts[k] == r.name;
    }
  }

  /** The mass info arrived and holds both pile sizes. */
  predicate Usable(r: Remote) {
    && r.massInfo.Some?
    && FindPileEntry(r.massInfo.value.pileEntries, ListingSizeKey).Some?
    && FindPileEntry(r.massInfo.value.pileEntries, TransferListSizeKey).Some?
  }

  /** The health report: 1 once the mass info arrived, weighted by the number of accounts. */
  function HealthMetric(account: string, healthy: bool, accounts: int): Metrics.Metric {
    Metrics.Emission(account, map[], Metrics.HealthyAccount,
      Metrics.WeightedAverage(if healthy then 1 else 0, accounts))
  }

  /**
   * One round of `intializeAccountInfo`. A usable account gets a fresh
   * ledger (the listing capacity counts as listed, the credits as the club
   * value) and joins the accounts; reading a missing pile size throws after
   * the account was marked healthy, and the error is swallowed.
   */
  function InitOne(s: TraderState, r: Remote, accounts: int): TraderState {
    if !Usable(r) then s.(metrics := s.metrics + [HealthMetric(r.name, r.massInfo.Some?, accounts)])
    else
      var mass := r.massInfo.value;
      var listing := FindPileEntry(mass.pileEntries, ListingSizeKey).value.value;
      var transfer := FindPileEntry(mass.pileEntries, TransferListSizeKey).value.value;
      s.(infos := s.infos[r.name := AccountInfo(mass.credits, listing, listing, mass.credits, transfer)],
         accounts := s.accounts + [r.name],
         metrics := s.metrics
           + [Metrics.Emission(r.name, map[], Metrics.Credits, Metrics.Last(mass.credits))]
           + [Metrics.Emission(r.name, map[], Metrics.ListingSize, Metrics.Average(listing))]
           + [Metrics.Emission(r.name, map[], Metrics.TransferListSize, Metrics.Average(transfer))]
           + [HealthMetric(r.name, true, accounts)])
  }

  /** `intializeAccountInfo` over the given accounts, in order. */
  function InitFold(s: TraderState, rs: seq<Remote>, accounts: int): TraderState
    decreases |rs|
  {
    if rs == [] then s
    else InitOne(InitFold(s, rs[..|rs| - 1], accounts), rs[|rs| - 1], accounts)
  }

  /** One round appends the account when it is usable, and sends no command. */
  lemma InitOneAppends(s: TraderState, r: Remote, accounts: int)
    ensures InitOne(s, r, accounts).accounts == s.accounts + (if Usable(r) then [r.name] else [])
    ensures InitOne(s, r, accounts).commands == s.commands
  {
  }

  /**
   * Initialisation appends exactly the usable accounts, in order, and sends
   * no command.
   */
  lemma {:induction false} InitAppendsUsable(s: TraderState, rs: seq<Remote>, accounts: int)
    ensures InitFold(s, rs, accounts).accounts == s.accounts + Names(Filter(Usable, rs))
    ensures InitFold(s, rs, accounts).commands == s.commands
    decreases |rs|
  {
    if rs != [] {
      var init := rs[..|rs| - 1];
      var last := rs[|rs| - 1];
      assert rs == init + [last];
      InitAppendsUsable(s, init, accounts);
      FilterSnoc(Usable, init, last);
      var prev := InitFold(s, init, accounts);
      assert InitFold(s, rs, accounts) == InitOne(prev, last, accounts);
      InitOneAppends(prev, last, accounts);
      var tail := if Usable(last) then [last] else [];
      NamesAppend(Filter(Usable, init), tail);
      assert Names(tail) == if Usable(last) then [last.name] else [];
      AppendAssoc(s.accounts, Names(Filter(Usable, init)), Names(tail));
    }
  }

  /** Initialisation reports one health metric per account plus three gauges per usable one. */
  lemma {:induction false} InitReportsEveryAccount(s: TraderState, rs: seq<Remote>, accounts: int)
    ensures |InitFold(s, rs, accounts).metrics| == |s.metrics| + |rs| + 3 * |Filter(Usable, rs)|
    decreases |rs|
  {
    if rs != [] {
      var init := rs[..|rs| - 1];
      var last := rs[|rs| - 1];
      assert rs == init + [last];
      InitReportsEveryAccount(s, init, accounts);
      FilterAppend(Usable, init, [last]);
    }
  }

  /**
   * Initialisation keeps every ledger's key, gives every usable account a
   * ledger, and so keeps every account the trader works on registered.
   */
  lemma {:induction false} InitRegisters(s: TraderState, rs: seq<Remote>, accounts: int)
    ensures s.infos.Keys <= InitFold(s, rs, accounts).infos.Keys
    ensures forall r :: r in rs && Usable(r) ==> r.name in InitFold(s, rs, accounts).infos
    ensures Registered(s) ==> Registered(InitFold(s, rs, accounts))
    decreases |rs|
  {
    if rs != [] {
      var init := rs[..|rs| - 1];
      var last := rs[|rs| - 1];
      assert rs == init + [last];
      InitRegisters(s, init, accounts);
      assert forall r :: r in rs ==> r in init || r == last;
    }
  }

  /** The effects of one step applied to the account `name`. */
  function Apply(s: TraderState, name: string, e: Effects): (t: TraderState)
    ensures t.infos.Keys == s.infos.Keys + {name} && t.accounts == s.accounts
    ensures t.infos[name] == e.info
    ensures forall n :: n in s.infos && n != name ==> t.infos[n] == s.infos[n]
    ensures t.commands == s.commands + e.commands && t.metrics == s.metrics + e.metrics
  {
    s.(infos := s.infos[name := e.info], commands := s.commands + e.commands, metrics := s.metrics + e.metrics)
  }

  /** The ledger with the entry of an account it already holds replaced. */
  function Update(infos: map<string, AccountInfo>, name: string, info: AccountInfo): (m: map<string, AccountInfo>)
    requires name in infos
    ensures m.Keys == infos.Keys && m[name] == info
    ensures forall n :: n in infos && n != name ==> m[n] == infos[n]
  {
    infos[name := info]
  }

  /** A state and whether the work that produced it ran to its end. */
  datatype Outcome = Outcome(state: TraderState, completed: bool)

  /** The club value report that closes an account's round. */
  function ClubValueMetric(account: string, info: AccountInfo): Metrics.Metric {
    Metrics.Emission(account, map[], Metrics.ClubValue, Metrics.Last(info.clubValue))
  }

  /**
   * One account's round of `trade`: club, pile, listing, then the club value
   * report. A listing that throws ends the round, and the cycle, there.
   */
  function AccountRound(s: TraderState, r: Remote): (o: Outcome)
    requires r.name in s.infos
    ensures o.state.infos.Keys == s.infos.Keys && o.state.accounts == s.accounts
  {
    var club := ClubEffects(r, s.infos[r.name]);
    var pile := PileEffects(r, club.info);
    var listing := ListingEffects(r, pile.info);
    var reported := if listing.completed then [ClubValueMetric(r.name, listing.info)] else [];
    Outcome(
      s.(infos := Update(s.infos, r.name, listing.info),
         commands := s.commands + club.commands + pile.commands + listing.commands,
         metrics := s.metrics + club.metrics + pile.metrics + listing.metrics + reported),
      listing.completed)
  }

  /** The rounds of several accounts, in order, up to the first that throws. */
  function AccountRounds(s: TraderState, rs: seq<Remote>): (o: Outcome)
    requires forall r :: r in rs ==> r.name in s.infos
    ensures o.state.infos.Keys == s.infos.Keys && o.state.accounts == s.accounts
    decreases |rs|
  {
    if rs == [] then Outcome(s, true)
    else
      var prev := AccountRounds(s, rs[..|rs| - 1]);
      if !prev.completed then prev else AccountRound(prev.state, rs[|rs| - 1])
  }

  /** The bid steps of several accounts; the account at position `i` searches page `i`. */
  function BidRounds(s: TraderState, rs: seq<Remote>): (t: TraderState)
    requires forall r :: r in rs ==> r.name in s.infos
    ensures t.infos.Keys == s.infos.Keys && t.accounts == s.accounts
    decreases |rs|
  {
    if rs == [] then s
    else
      var prev := BidRounds(s, rs[..|rs| - 1]);
      var r := rs[|rs| - 1];
      Apply(prev, r.name, BidEffects(r, |rs| - 1, prev.infos[r.name]))
  }

  /** The request count that opens every cycle; it carries no account. */
  function TradeRequestMetric(): Metrics.Metric {
    Metrics.Metric(map[], Metrics.TradeRequest, Metrics.Count(1))
  }

  /**
   * The market's answers for one cycle: `inputs` answers the mass-info call
   * of every configured account, and `visits` holds one snapshot per
   * account the rounds visit, in the order they visit them: the accounts
   * carried over from earlier cycles, then this cycle's usable ones.
   */
  predicate AnswersCycle(s: TraderState, inputs: seq<Remote>, visits: seq<Remote>) {
    Names(visits) == s.accounts + Names(Filter(Usable, inputs))
  }

  /**
   * One `trade` cycle: count the request, initialise the configured
   * accounts, run the round of every account the trader works on, and only
   * when all of them ran to their end, let every one of them bid.
   */
  function Cycle(s: TraderState, inputs: seq<Remote>, visits: seq<Remote>): (o: Outcome)
    requires Registered(s) && AnswersCycle(s, inputs, visits)
    ensures Registered(o.state)
  {
    var s1 := s.(metrics := s.metrics + [TradeRequestMetric()]);
    var s2 := InitFold(s1, inputs, |inputs|);
    InitRegisters(s1, inputs, |inputs|);
    InitAppendsUsable(s1, inputs, |inputs|);
    VisitsRegistered(s2, visits);
    var rounds := AccountRounds(s2, visits);
    if !rounds.completed then rounds
    else Outcome(BidRounds(rounds.state, visits), true)
  }

  // ---------------------------------------------------------------------
  // What a cycle sends to the market
  // ---------------------------------------------------------------------

  /** A command that reaches the transfer market: a search or a bid. */
  predicate IsMarketOp(op: Op) { op.Search? || op.PlaceBid? }

  /** `after` keeps `before` and appends only commands that neither search nor bid. */
  predicate ExtendsWithoutMarketOps(before: seq<Command>, after: seq<Command>) {
    && |before| <= |after|
    && after[..|before|] == before
    && forall i :: |before| <= i < |after| ==> !IsMarketOp(after[i].op)
  }

  lemma ExtendsByAppend(before: seq<Command>, extra: seq<Command>)
    requires forall c :: c in extra ==> !IsMarketOp(c.op)
    ensures ExtendsWithoutMarketOps(before, before + extra)
  {
    var after := before + extra;
    forall i | |before| <= i < |after| ensures !IsMarketOp(after[i].op) {
      assert after[i] == extra[i - |before|];
      assert after[i] in extra;
    }
    assert after[..|before|] == before;
  }

  lemma ExtendsTransitive(a: seq<Command>, b: seq<Command>, c: seq<Command>)
    requires ExtendsWithoutMarketOps(a, b) && ExtendsWithoutMarketOps(b, c)
    ensures ExtendsWithoutMarketOps(a, c)
  {
    forall i | |a| <= i < |c| ensures !IsMarketOp(c[i].op) {
      if i < |b| {
        assert c[i] == c[..|b|][i];
      }
    }
    assert c[..|a|] == c[..|b|][..|a|];
  }

  /** The inventory step only sends contracts to the club. */
  lemma InventoryStaysOffMarket(r: Remote)
    ensures forall c :: c in InventoryStep(r).0 ==> c.account == r.name && c.op.SendToClub?
  {
  }

  /** The watch-list steps only send won items to the club and clear lost auctions. */
  lemma WatchListStaysOffMarket(r: Remote)
    ensures forall c :: c in WonStep(r).0 ==> c.account == r.name && c.op.SendToClub?
    ensures forall c :: c in LostStep(r).0 ==> c.account == r.name && c.op.DeleteWatch?
  {
  }

  lemma StepsStayOffMarket(before: seq<Command>, club: seq<Command>, pile: seq<Command>, listing: seq<Command>)
    requires forall c :: c in club ==> c.op.SendToClub? || c.op.DeleteWatch?
    requires forall c :: c in pile ==> c.op == DeleteSold || c.op == Relist
    requires forall c :: c in listing ==> c.op.SendToTransfer? || c.op.List?
    ensures ExtendsWithoutMarketOps(before, before + club + pile + listing)
  {
    ExtendsByAppend(before, club);
    ExtendsByAppend(before + club, pile);
    ExtendsByAppend(before + club + pile, listing);
    ExtendsTransitive(before, before + club, before + club + pile);
    ExtendsTransitive(before, before + club + pile, before + club + pile + listing);
  }

  /** The club step only sends items to the club and clears lost auctions from the watch list. */
  lemma ClubStaysOffMarket(r: Remote, info: AccountInfo)
    ensures forall c :: c in ClubEffects(r, info).commands ==>
      c.account == r.name && (c.op.SendToClub? || c.op.DeleteWatch?)
  {
    InventoryStaysOffMarket(r);
    WatchListStaysOffMarket(r);
    var c1: seq<Command> := InventoryStep(r).0;
    var c2: seq<Command> := WonStep(r).0;
    var c3: seq<Command> := LostStep(r).0;
    assert ClubEffects(r, info).commands == ClubCommands(r) == c1 + c2 + c3;
    forall c | c in c1 + c2 + c3 ensures c.account == r.name && (c.op.SendToClub? || c.op.DeleteWatch?) {
      assert c in c1 || c in c2 || c in c3;
    }
  }

  /** The listing step only moves a contract to the transfer list and lists it. */
  lemma ListingStaysOffMarket(r: Remote, info: AccountInfo)
    ensures forall c :: c in ListingEffects(r, info).commands ==>
      c.account == r.name && (c.op.SendToTransfer? || c.op.List?)
  {
  }

  /** An account's round neither searches nor bids. */
  lemma RoundStaysOffMarket(s: TraderState, r: Remote)
    requires r.name in s.infos
    ensures ExtendsWithoutMarketOps(s.commands, AccountRound(s, r).state.commands)
  {
    var club := ClubEffects(r, s.infos[r.name]);
    var pile := PileEffects(r, club.info);
    var listing := ListingEffects(r, pile.info);
    ClubStaysOffMarket(r, s.infos[r.name]);
    PileSendsOnlyRemovalAndRelist(r);
    ListingStaysOffMarket(r, pile.info);
    StepsStayOffMarket(s.commands, club.commands, pile.commands, listing.commands);
  }

  /** The rounds of all accounts neither search nor bid. */
  lemma {:induction false} RoundsStayOffMarket(s: TraderState, rs: seq<Remote>)
    requires forall r :: r in rs ==> r.name in s.infos
    ensures ExtendsWithoutMarketOps(s.commands, AccountRounds(s, rs).state.commands)
    decreases |rs|
  {
    if rs == [] {
      assert s.commands[..|s.commands|] == s.commands;
    } else {
      var prev := AccountRounds(s, rs[..|rs| - 1]);
      RoundsStayOffMarket(s, rs[..|rs| - 1]);
      if prev.completed {
        assert rs[|rs| - 1] in rs;
        RoundStaysOffMarket(prev.state, rs[|rs| - 1]);
        ExtendsTransitive(s.commands, prev.state.commands, AccountRound(prev.state, rs[|rs| - 1]).state.commands);
      }
    }
  }

  /** Once a round throws, the accounts after it are not visited. */
  lemma {:induction false} RoundsStopAtFailure(s: TraderState, rs: seq<Remote>, k: nat)
    requires forall r :: r in rs ==> r.name in s.infos
    requires k <= |rs|
    ensures !AccountRounds(s, rs[..k]).completed ==> AccountRounds(s, rs) == AccountRounds(s, rs[..k])
    decreases |rs|
  {
    if k < |rs| {
      var init := rs[..|rs| - 1];
      assert init[..k] == rs[..k];
      RoundsStopAtFailure(s, init, k);
    } else {
      assert rs[..k] == rs;
    }
  }

  /**
   * A round is its three steps one after the other: the club step leaves
   * the ledger as it is, the pile step replaces it, the listing step
   * replaces it again, and the club value report closes a round that ran
   * to its end.
   */
  lemma RoundInSteps(s: TraderState, r: Remote)
    requires r.name in s.infos
    ensures var info := PileInfo(r, s.infos[r.name]);
      var listing := ListingEffects(r, info);
      var o := AccountRound(s, r);
      && o.completed == listing.completed
      && o.state.infos == s.infos[r.name := info][r.name := listing.info]
      && o.state.accounts == s.accounts
      && o.state.commands == s.commands + ClubCommands(r) + PileCommands(r) + listing.commands
      && o.state.metrics == s.metrics + ClubReports(r) + PileMetrics(r) + listing.metrics
           + (if listing.completed then [ClubValueMetric(r.name, listing.info)] else [])
  {
    var info := PileInfo(r, s.infos[r.name]);
    assert s.infos[r.name := info][r.name := ListingEffects(r, info).info]
      == s.infos[r.name := ListingEffects(r, info).info];
  }

  /** One more account's round, run when the rounds before it all ran to their end. */
  lemma RoundsSnoc(s: TraderState, rs: seq<Remote>, i: nat)
    requires forall r :: r in rs ==> r.name in s.infos
    requires i < |rs|
    ensures rs[i].name in AccountRounds(s, rs[..i]).state.infos
    ensures AccountRounds(s, rs[..i]).completed ==>
      AccountRounds(s, rs[..i + 1]) == AccountRound(AccountRounds(s, rs[..i]).state, rs[i])
  {
    assert rs[i] in rs;
    assert rs[..i + 1][..i] == rs[..i];
  }

  /**
   * A cycle in which some account's listing threw issues no search and no
   * bid: the bid steps run only after every account's round ran to its end.
   */
  lemma CycleBidsOnlyWhenComplete(s: TraderState, inputs: seq<Remote>, visits: seq<Remote>)
    requires Registered(s) && AnswersCycle(s, inputs, visits)
    ensures !Cycle(s, inputs, visits).completed ==>
      ExtendsWithoutMarketOps(s.commands, Cycle(s, inputs, visits).state.commands)
  {
    var s1 := s.(metrics := s.metrics + [TradeRequestMetric()]);
    var s2 := InitFold(s1, inputs, |inputs|);
    InitRegisters(s1, inputs, |inputs|);
    InitAppendsUsable(s1, inputs, |inputs|);
    VisitsRegistered(s2, visits);
    RoundsStayOffMarket(s2, visits);
  }

  /** The bid steps search every account's page: the account at position `i` searches page `i`. */
  lemma {:induction false} BidRoundsSearchEveryPage(s: TraderState, rs: seq<Remote>)
    requires forall r :: r in rs ==> r.name in s.infos
    ensures forall i :: 0 <= i < |rs| ==>
      Command(rs[i].name, Search(i * PageSize, PageSize, BidPrice)) in BidRounds(s, rs).commands
    ensures forall c :: c in s.commands ==> c in BidRounds(s, rs).commands
    decreases |rs|
  {
    if rs != [] {
      var init := rs[..|rs| - 1];
      var r := rs[|rs| - 1];
      BidRoundsSearchEveryPage(s, init);
      var prev := BidRounds(s, init);
      var e := BidEffects(r, |rs| - 1, prev.infos[r.name]);
      var t := BidRounds(s, rs);
      assert t.commands == prev.commands + e.commands;
      assert e.commands[0] == Command(r.name, Search((|rs| - 1) * PageSize, PageSize, BidPrice));
      forall i | 0 <= i < |rs| ensures Command(rs[i].name, Search(i * PageSize, PageSize, BidPrice)) in t.commands {
        if i < |rs| - 1 {
          assert rs[i] == init[i];
        }
      }
    }
  }

  /**
   * A cycle that ran to its end searched one page per account the trader
   * works on: its earlier accounts and then the usable ones, in order.
   */
  lemma CycleSearchesEveryPage(s: TraderState, inputs: seq<Remote>, visits: seq<Remote>)
    requires Registered(s) && AnswersCycle(s, inputs, visits)
    ensures var o := Cycle(s, inputs, visits);
      var accounts := s.accounts + Names(Filter(Usable, inputs));
      o.completed ==> forall i :: 0 <= i < |accounts| ==>
        Command(accounts[i], Search(i * PageSize, PageSize, BidPrice)) in o.state.commands
  {
    var s1 := s.(metrics := s.metrics + [TradeRequestMetric()]);
    var s2 := InitFold(s1, inputs, |inputs|);
    InitRegisters(s1, inputs, |inputs|);
    InitAppendsUsable(s1, inputs, |inputs|);
    VisitsRegistered(s2, visits);
    var rounds := AccountRounds(s2, visits);
    if rounds.completed {
      BidRoundsSearchEveryPage(rounds.state, visits);
    }
  }
}
