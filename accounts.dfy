/**
 * The account wrapper (src/accounts.ts): the ledger record kept per
 * account, its initialisation from the account's mass info on the healthy
 * and the unhealthy path, the club metrics it reports, and the bookkeeping
 * around a bid.
 */
module Accounts {
  import opened Wrappers
  import opened Fut18
  import opened Utils
  import Metrics

  /** The price one contract is valued at in the club value. */
  const ContractPrice: int := 200
  /** The trade feature level an account needs to trade. */
  const TradeFeatureEnabled: int := 2
  /** The status recorded for a bid that went through. */
  const BidAccepted: int := 200

  const NoTradeFeature: string := "no_trade_feature"
  const UnknownReason: string := "unknown"
  /** The message of the TypeError thrown when a pile entry is missing. */
  const MissingEntryMessage: string := "Cannot read property 'value' of undefined"

  /** The per-account ledger (`FifaFut18AccountInfo`). */
  datatype FifaFut18AccountInfo = FifaFut18AccountInfo(
    healthy: bool,
    unhealthyReason: string,
    credits: int,
    listingSize: int,
    listedItems: int,
    transferListSize: int,
    closedPlayers: int,
    closedCoaches: int,
    expiredPlayers: int,
    expiredCoaches: int,
    activePlayers: int,
    activeCoaches: int,
    playersInClub: int,
    coachesInClub: int)

  /** The eight per-category counters are all zero. */
  predicate CountersZero(info: FifaFut18AccountInfo) {
    && info.closedPlayers == 0 && info.closedCoaches == 0
    && info.expiredPlayers == 0 && info.expiredCoaches == 0
    && info.activePlayers == 0 && info.activeCoaches == 0
    && info.playersInClub == 0 && info.coachesInClub == 0
  }

  /** The ledger of an account that can trade, with every counter at zero. */
  function HealthyInfo(credits: int, listingSize: int, transferListSize: int): FifaFut18AccountInfo {
    FifaFut18AccountInfo(true, "", credits, listingSize, listingSize, transferListSize, 0, 0, 0, 0, 0, 0, 0, 0)
  }

  /** The ledger the catch block records: nothing but the reason. */
  function UnhealthyInfo(reason: string): FifaFut18AccountInfo {
    FifaFut18AccountInfo(false, reason, 0, 0, 0, 0, 0, 0, 0, 0, 0, 0, 0, 0)
  }

  /** `e.message || 'unknown'`: an empty message counts as absent. */
  function Reason(message: string): (r: string)
    ensures r != ""
    ensures message != "" ==> r == message
  {
    if message == "" then UnknownReason else message
  }

  /**
   * The `try` block of `init`: the healthy ledger, or the message of the
   * error it throws (the mass-info call's own error, the missing trade
   * feature, or the TypeError of reading a missing pile entry).
   */
  function InitAttempt(reply: Result<UserMassInfo, string>): Result<FifaFut18AccountInfo, string> {
    match reply
    case Failure(message) => Failure(message)
    case Success(mass) =>
      if mass.tradeFeature != TradeFeatureEnabled then Failure(NoTradeFeature)
      else
        var listing := FindPileEntry(mass.pileEntries, ListingSizeKey);
        var transfer := FindPileEntry(mass.pileEntries, TransferListSizeKey);
        if listing.None? || transfer.None? then Failure(MissingEntryMessage)
        else Success(HealthyInfo(mass.credits, listing.value.value, transfer.value.value))
  }

  /** The mass info is usable: the call succeeded, trading is enabled, and both pile sizes are present. */
  predicate CanTrade(reply: Result<UserMassInfo, string>) {
    && reply.Success?
    && reply.value.tradeFeature == TradeFeatureEnabled
    && FindPileEntry(reply.value.pileEntries, ListingSizeKey).Some?
    && FindPileEntry(reply.value.pileEntries, TransferListSizeKey).Some?
  }

  /** The ledger `init` leaves behind, on both paths. */
  function InitialInfo(reply: Result<UserMassInfo, string>): (info: FifaFut18AccountInfo)
    ensures info.healthy <==> CanTrade(reply)
    ensures CountersZero(info)
    ensures info.healthy ==>
      && info.unhealthyReason == ""
      && info.credits == reply.value.credits
      && info.listingSize == info.listedItems == FindPileEntry(reply.value.pileEntries, ListingSizeKey).value.value
      && info.transferListSize == FindPileEntry(reply.value.pileEntries, TransferListSizeKey).value.value
    ensures !info.healthy ==>
      && info.unhealthyReason != ""
      && info.credits == info.listingSize == info.listedItems == info.transferListSize == 0
    ensures reply.Failure? ==> info.unhealthyReason == Reason(reply.error)
    ensures reply.Success? && reply.value.tradeFeature != TradeFeatureEnabled ==>
      info.unhealthyReason == NoTradeFeature
  {
    match InitAttempt(reply)
    case Success(info) => info
    case Failure(message) => UnhealthyInfo(Reason(message))
  }

  /** The three gauges a healthy `init` reports; an unhealthy one reports nothing. */
  function InitMetrics(account: string, reply: Result<UserMassInfo, string>): (ms: seq<Metrics.Metric>)
    ensures |ms| == if CanTrade(reply) then 3 else 0
    ensures CanTrade(reply) ==> ms[0].value == Metrics.Last(reply.value.credits)
  {
    match InitAttempt(reply)
    case Failure(_) => []
    case Success(info) =>
      [ Metrics.Emission(account, map[], Metrics.Credits, Metrics.Last(info.credits)),
        Metrics.Emission(account, map[], Metrics.ListingSize, Metrics.Average(info.listingSize)),
        Metrics.Emission(account, map[], Metrics.TransferListSize, Metrics.Average(info.transferListSize)) ]
  }

  /** The contracts of one kind that are listed: active plus expired. */
  function ListingCount(active: int, expired: int): int {
    active + expired
  }

  /**
   * The club value: credits plus every contract held or listed, at the
   * contract price. Sold (closed) contracts are not counted.
   */
  function ClubValue(info: FifaFut18AccountInfo): int {
    info.credits + ContractPrice * (
      info.activeCoaches + info.activePlayers +
      info.expiredCoaches + info.expiredPlayers +
      info.coachesInClub + info.playersInClub)
  }

  /** The club value is the credits plus the listed and the held contracts of both kinds, at the contract price. */
  lemma ClubValueCountsListedAndHeld(info: FifaFut18AccountInfo)
    ensures ClubValue(info) == info.credits + ContractPrice * (
      ListingCount(info.activePlayers, info.expiredPlayers) +
      ListingCount(info.activeCoaches, info.expiredCoaches) +
      info.playersInClub + info.coachesInClub)
    ensures forall p, c :: ClubValue(info.(closedPlayers := p, closedCoaches := c)) == ClubValue(info)
  {
  }

  /** The pair of emissions of `emitGoldContractsMetrics`: player first, then coach. */
  function GoldContractsMetrics(
    account: string, dimensions: Metrics.Dimensions, name: Metrics.Name,
    playerValue: Metrics.Value, coachValue: Metrics.Value): (ms: seq<Metrics.Metric>)
    ensures |ms| == 2
    ensures ms[0].name == ms[1].name == name
    ensures ms[0].value == playerValue && ms[1].value == coachValue
  {
    [ Metrics.Emission(account, dimensions[Metrics.ContractTypeDim := Metrics.Kind(GoldPlayer)], name, playerValue),
      Metrics.Emission(account, dimensions[Metrics.ContractTypeDim := Metrics.Kind(GoldCoach)], name, coachValue) ]
  }

  /**
   * The player emission carries the player contract type and the coach
   * emission the coach type; every other dimension of the caller is kept on
   * both, and the account name is added where the caller gave none.
   */
  lemma GoldContractsDimensions(
    account: string, dimensions: Metrics.Dimensions, name: Metrics.Name,
    playerValue: Metrics.Value, coachValue: Metrics.Value)
    ensures var ms := GoldContractsMetrics(account, dimensions, name, playerValue, coachValue);
      && Metrics.HasDim(ms[0], Metrics.ContractTypeDim, Metrics.Kind(GoldPlayer))
      && Metrics.HasDim(ms[1], Metrics.ContractTypeDim, Metrics.Kind(GoldCoach))
      && (forall k :: k in dimensions && k != Metrics.ContractTypeDim ==>
            Metrics.HasDim(ms[0], k, dimensions[k]) && Metrics.HasDim(ms[1], k, dimensions[k]))
      && (Metrics.AccountName !in dimensions ==>
            Metrics.HasDim(ms[0], Metrics.AccountName, Metrics.Text(account)) &&
            Metrics.HasDim(ms[1], Metrics.AccountName, Metrics.Text(account)))
  {
  }

  /** Everything `emitClubMetrics` reports: six player/coach pairs, then the club value. */
  function ClubMetrics(account: string, info: FifaFut18AccountInfo): (ms: seq<Metrics.Metric>)
    ensures |ms| == 13
  {
    var sold := GoldContractsMetrics(account, map[], Metrics.ContractsSold,
      Metrics.Count(info.closedPlayers), Metrics.Count(info.closedCoaches));
    var listing := GoldContractsMetrics(account, map[], Metrics.ContractsListing,
      Metrics.Last(ListingCount(info.activePlayers, info.expiredPlayers)),
      Metrics.Last(ListingCount(info.activeCoaches, info.expiredCoaches)));
    var active := GoldContractsMetrics(account, map[], Metrics.ActiveContractsAverage,
      Metrics.Average(info.activePlayers), Metrics.Average(info.activeCoaches));
    var expired := GoldContractsMetrics(account, map[], Metrics.ExpiredContractsAverage,
      Metrics.Average(info.expiredPlayers), Metrics.Average(info.expiredCoaches));
    var soldAverage := GoldContractsMetrics(account, map[], Metrics.SoldContractsAverage,
      Metrics.Average(info.closedPlayers), Metrics.Average(info.closedCoaches));
    var inClub := GoldContractsMetrics(account, map[], Metrics.ContractsInClub,
      Metrics.Last(info.playersInClub), Metrics.Last(info.coachesInClub));
    var clubValue := Metrics.Emission(account, map[], Metrics.ClubValue, Metrics.Last(ClubValue(info)));
    [ sold[0], sold[1], listing[0], listing[1], active[0], active[1], expired[0], expired[1],
      soldAverage[0], soldAverage[1], inClub[0], inClub[1], clubValue ]
  }

  /**
   * The listing gauges count the active and the expired contracts of each
   * kind, and the report closes with the club value.
   */
  lemma ClubMetricsReportListingAndValue(account: string, info: FifaFut18AccountInfo)
    ensures var ms := ClubMetrics(account, info);
      && ms[2].name == ms[3].name == Metrics.ContractsListing
      && ms[2].value == Metrics.Last(ListingCount(info.activePlayers, info.expiredPlayers))
      && ms[3].value == Metrics.Last(ListingCount(info.activeCoaches, info.expiredCoaches))
      && ms[12].name == Metrics.ClubValue && ms[12].value == Metrics.Last(ClubValue(info))
  {
  }

  /** The market's answer to a bid: accepted, or an error whose metadata may carry a response code. */
  datatype BidReply = Accepted | Rejected(responseCode: Option<int>)

  /** `e.meta && e.meta.responseCode || 0` on the error path, 200 otherwise. */
  function BidStatus(reply: BidReply): int {
    match reply
    case Accepted => BidAccepted
    case Rejected(code) => if code.Some? && code.value != 0 then code.value else 0
  }

  /** The one emission a bid leaves, whatever its outcome. */
  function BidMetric(account: string, res: Resources, auction: AuctionInfo, purpose: string, price: int, reply: BidReply)
    : (m: Metrics.Metric)
    ensures m.name == Metrics.Bid
    ensures m.value == Metrics.Average(if BidStatus(reply) == BidAccepted then 1 else 0)
    ensures Metrics.HasDim(m, Metrics.BidStatusDim, Metrics.Number(BidStatus(reply)))
    ensures Metrics.HasDim(m, Metrics.BidPriceDim, Metrics.Number(price))
    ensures Metrics.HasDim(m, Metrics.ContractTypeDim, Metrics.Kind(GetContractType(res, Bare(auction.itemData))))
  {
    ClassifyThroughItemData(res, Auction(auction));
    var status := BidStatus(reply);
    Metrics.Emission(account,
      map[Metrics.ContractTypeDim := Metrics.Kind(GetContractType(res, Auction(auction))),
          Metrics.BidPriceDim := Metrics.Number(price),
          Metrics.BidStatusDim := Metrics.Number(status),
          Metrics.BidPurposeDim := Metrics.Text(purpose)],
      Metrics.Bid,
      Metrics.Average(if status == BidAccepted then 1 else 0))
  }

  /** A bid the market accepts reports success; a rejection reports failure unless its code is 200. */
  lemma BidReportsOutcome(account: string, res: Resources, auction: AuctionInfo, purpose: string, price: int, reply: BidReply)
    ensures reply.Accepted? ==> BidMetric(account, res, auction, purpose, price, reply).value == Metrics.Average(1)
    ensures reply.Rejected? && reply.responseCode != Some(BidAccepted) ==>
      BidMetric(account, res, auction, purpose, price, reply).value == Metrics.Average(0)
  {
  }

  /** One trading account and what it has reported. */
  class FifaFut18Account {
    const name: string
    /** The contract resource ids the classifier uses. */
    const resources: Resources
    /** `None` until `Init` has run. */
    var accountInfo: Option<FifaFut18AccountInfo>
    /** Every metric emitted on behalf of this account, oldest first. */
    var emitted: seq<Metrics.Metric>

    constructor (name: string, resources: Resources)
      ensures this.name == name && this.resources == resources
      ensures accountInfo == None && emitted == []
    {
      this.name := name;
      this.resources := resources;
      accountInfo := None;
      emitted := [];
    }

    method EmitMetrics(dimensions: Metrics.Dimensions, metric: Metrics.Name, value: Metrics.Value)
      modifies this`emitted
      ensures emitted == old(emitted) + [Metrics.Emission(name, dimensions, metric, value)]
    {
      emitted := emitted + [Metrics.Emission(name, dimensions, metric, value)];
    }

    /** Reads the account's mass info into a fresh ledger; any error leaves an unhealthy one. */
    method Init(reply: Result<UserMassInfo, string>)
      modifies this`accountInfo, this`emitted
      ensures accountInfo == Some(InitialInfo(reply))
      ensures emitted == old(emitted) + InitMetrics(name, reply)
    {
      if reply.Failure? {
        accountInfo := Some(UnhealthyInfo(Reason(reply.error)));
        return;
      }
      var mass := reply.value;
      if mass.tradeFeature != TradeFeatureEnabled {
        accountInfo := Some(UnhealthyInfo(Reason(NoTradeFeature)));
        return;
      }
      var listingSizeEntry := FindPileEntry(mass.pileEntries, ListingSizeKey);
      var transferListSizeEntry := FindPileEntry(mass.pileEntries, TransferListSizeKey);
      if listingSizeEntry.None? || transferListSizeEntry.None? {
        accountInfo := Some(UnhealthyInfo(Reason(MissingEntryMessage)));
        return;
      }
      accountInfo := Some(HealthyInfo(mass.credits, listingSizeEntry.value.value, transferListSizeEntry.value.value));
      EmitMetrics(map[], Metrics.Credits, Metrics.Last(mass.credits));
      EmitMetrics(map[], Metrics.ListingSize, Metrics.Average(listingSizeEntry.value.value));
      EmitMetrics(map[], Metrics.TransferListSize, Metrics.Average(transferListSizeEntry.value.value));
    }

    /** Emits a player value and a coach value under one name, on a copy of the caller's dimensions. */
    method EmitGoldContractsMetrics(
      dimensions: Metrics.Dimensions, metric: Metrics.Name,
      playerValue: Metrics.Value, coachValue: Metrics.Value)
      modifies this`emitted
      ensures emitted == old(emitted) + GoldContractsMetrics(name, dimensions, metric, playerValue, coachValue)
    {
      var d := dimensions;
      d := d[Metrics.ContractTypeDim := Metrics.Kind(GoldPlayer)];
      EmitMetrics(d, metric, playerValue);
      d := d[Metrics.ContractTypeDim := Metrics.Kind(GoldCoach)];
      assert d == dimensions[Metrics.ContractTypeDim := Metrics.Kind(GoldCoach)];
      EmitMetrics(d, metric, coachValue);
    }

    method EmitClubMetrics()
      requires accountInfo.Some?
      modifies this`emitted
      ensures emitted == old(emitted) + ClubMetrics(name, accountInfo.value)
    {
      var info := accountInfo.value;
      EmitGoldContractsMetrics(map[], Metrics.ContractsSold,
        Metrics.Count(info.closedPlayers), Metrics.Count(info.closedCoaches));
      EmitGoldContractsMetrics(map[], Metrics.ContractsListing,
        Metrics.Last(info.activePlayers + info.expiredPlayers),
        Metrics.Last(info.activeCoaches + info.expiredCoaches));
      EmitGoldContractsMetrics(map[], Metrics.ActiveContractsAverage,
        Metrics.Average(info.activePlayers), Metrics.Average(info.activeCoaches));
      EmitGoldContractsMetrics(map[], Metrics.ExpiredContractsAverage,
        Metrics.Average(info.expiredPlayers), Metrics.Average(info.expiredCoaches));
      EmitGoldContractsMetrics(map[], Metrics.SoldContractsAverage,
        Metrics.Average(info.closedPlayers), Metrics.Average(info.closedCoaches));
      EmitGoldContractsMetrics(map[], Metrics.ContractsInClub,
        Metrics.Last(info.playersInClub), Metrics.Last(info.coachesInClub));
      EmitMetrics(map[], Metrics.ClubValue, Metrics.Last(info.credits + ContractPrice * (
        info.activeCoaches + info.activePlayers +
        info.expiredCoaches + info.expiredPlayers +
        info.coachesInClub + info.playersInClub)));
    }

    /**
     * Places a bid through the market. The status starts at 200 and is
     * replaced by the error's code when the market rejects the bid; the error
     * is passed on (`accepted` is false) after the metric is emitted.
     */
    method Bid(auction: AuctionInfo, purpose: string, price: int, reply: BidReply) returns (accepted: bool)
      modifies this`emitted
      ensures accepted <==> reply.Accepted?
      ensures emitted == old(emitted) + [BidMetric(name, resources, auction, purpose, price, reply)]
    {
      var contractType := GetContractType(resources, Auction(auction));
      var bidStatus := BidAccepted;
      accepted := true;
      if reply.Rejected? {
        bidStatus := if reply.responseCode.Some? && reply.responseCode.value != 0 then reply.responseCode.value else 0;
        accepted := false;
      }
      EmitMetrics(
        map[Metrics.ContractTypeDim := Metrics.Kind(contractType),
            Metrics.BidPriceDim := Metrics.Number(price),
            Metrics.BidStatusDim := Metrics.Number(bidStatus),
            Metrics.BidPurposeDim := Metrics.Text(purpose)],
        Metrics.Bid,
        Metrics.Average(if bidStatus == BidAccepted then 1 else 0));
    }
  }
}
