/**
 * The `FutAutoTrader` worker of src/index.ts: an object whose ledger map,
 * list of usable accounts and two logs (the commands sent to the market and
 * the metrics reported) its methods update in place. Each method is proved
 * to leave the object in the state that the matching function of
 * `TradeRules` describes, so the properties proved there hold of it.
 */
module Trader {
  import opened Wrappers
  import opened Collections
  import opened Fut18
  import Metrics
  import opened TradeRules

  class FutAutoTrader {
    /**
     * `_fifaFut18Accounts`: the names of the configured accounts. What their
     * remote calls answer changes from call to call, so each cycle receives
     * the answers as parameters.
     */
    const configured: seq<string>
    /** `accountInfos`: the ledger of every account that could be initialised. */
    var accountInfos: map<string, AccountInfo>
    /** `fifaFut18Accounts`: the names of the accounts whose mass info arrived complete, over all cycles. */
    var fifaFut18Accounts: seq<string>
    /** The market calls that change something, in the order they were sent. */
    var commands: seq<Command>
    /** The metrics sent to the metrics sink, in order. */
    var emitted: seq<Metrics.Metric>

    /** The object's state as the value the trade functions work on. */
    function State(): TraderState
      reads this
    {
      TraderState(accountInfos, fifaFut18Accounts, commands, emitted)
    }

    constructor(configured: seq<string>)
      ensures this.configured == configured
      ensures State() == TraderState(map[], [], [], [])
    {
      this.configured := configured;
      accountInfos := map[];
      fifaFut18Accounts := [];
      commands := [];
      emitted := [];
    }

    /** `emitMetrics`: one metric, tagged with the account name unless the caller tags it otherwise. */
    method EmitMetrics(account: string, dimensions: Metrics.Dimensions, name: Metrics.Name, value: Metrics.Value)
      modifies this
      ensures emitted == old(emitted) + [Metrics.Emission(account, dimensions, name, value)]
      ensures accountInfos == old(accountInfos) && fifaFut18Accounts == old(fifaFut18Accounts) && commands == old(commands)
    {
      emitted := emitted + [Metrics.Emission(account, dimensions, name, value)];
    }

    /** A player emission and a coach emission of the same metric, in that order. */
    method EmitPlayerCoach(account: string, name: Metrics.Name, playerValue: Metrics.Value, coachValue: Metrics.Value)
      modifies this
      ensures emitted == old(emitted) + PlayerCoach(account, name, playerValue, coachValue)
      ensures accountInfos == old(accountInfos) && fifaFut18Accounts == old(fifaFut18Accounts) && commands == old(commands)
    {
      EmitMetrics(account, Metrics.KindOnly(Utils.GoldPlayer), name, playerValue);
      EmitMetrics(account, Metrics.KindOnly(Utils.GoldCoach), name, coachValue);
    }

    /** One call that changes something on the market. */
    method Send(c: Command)
      modifies this
      ensures commands == old(commands) + [c]
      ensures accountInfos == old(accountInfos) && fifaFut18Accounts == old(fifaFut18Accounts) && emitted == old(emitted)
    {
      commands := commands + [c];
    }

    /**
     * One round of `intializeAccountInfo`: read the account's mass info,
     * open its ledger when both pile sizes are there, and report its health.
     */
    method InitializeAccount(account: Remote, accounts: int)
      modifies this
      ensures State() == InitOne(old(State()), account, accounts)
    {
      var healthy := false;
      if account.massInfo.Some? {
        var mass := account.massInfo.value;
        healthy := true;
        var listingSizeEntry := FindPileEntry(mass.pileEntries, ListingSizeKey);
        var transferListSizeEntry := FindPileEntry(mass.pileEntries, TransferListSizeKey);
        if listingSizeEntry.Some? && transferListSizeEntry.Some? {
          var listing := listingSizeEntry.value.value;
          var transfer := transferListSizeEntry.value.value;
          accountInfos := accountInfos[account.name := AccountInfo(mass.credits, listing, listing, mass.credits, transfer)];
          fifaFut18Accounts := fifaFut18Accounts + [account.name];
          EmitMetrics(account.name, map[], Metrics.Credits, Metrics.Last(mass.credits));
          EmitMetrics(account.name, map[], Metrics.ListingSize, Metrics.Average(listing));
          EmitMetrics(account.name, map[], Metrics.TransferListSize, Metrics.Average(transfer));
        }
      }
      EmitMetrics(account.name, map[], Metrics.HealthyAccount, Metrics.WeightedAverage(if healthy then 1 else 0, accounts));
    }

    /**
     * `intializeAccountInfo`: every configured account in turn, so that the
     * usable ones end up registered in their order.
     */
    method IntializeAccountInfo(inputs: seq<Remote>)
      modifies this
      ensures State() == InitFold(old(State()), inputs, |inputs|)
    {
      var i := 0;
      while i < |inputs|
        invariant 0 <= i <= |inputs|
        invariant State() == InitFold(old(State()), inputs[..i], |inputs|)
      {
        InitializeAccount(inputs[i], |inputs|);
        assert inputs[..i + 1][..i] == inputs[..i];
        i := i + 1;
      }
      assert inputs[..|inputs|] == inputs;
    }

    // -------------------------------------------------------------------
    // sendPurchasedContractsToClub
    // -------------------------------------------------------------------

    /** Send the unassigned contracts to the club; report the purchases only when every item went through. */
    method SendInventoryToClub(r: Remote)
      modifies this
      ensures commands == old(commands) + InventoryStep(r).0
      ensures emitted == old(emitted) + InventoryStep(r).1
      ensures accountInfos == old(accountInfos) && fifaFut18Accounts == old(fifaFut18Accounts)
    {
      var goldPlayers := Filter(IsGoldPlayerItem, r.items);
      var goldCoaches := Filter(IsGoldCoachItem, r.items);
      var targets := ClubTargets(r.items);
      if |targets| > 0 {
        Send(Command(r.name, SendToClub(targets)));
        var numSuccess := CountSuccesses(r.clubSendReply);
        if numSuccess == |targets| {
          if |goldPlayers| > 0 {
            EmitMetrics(r.name, Metrics.KindOnly(Utils.GoldPlayer), Metrics.ContractsPurchased, Metrics.Count(|goldPlayers|));
          }
          if |goldCoaches| > 0 {
            EmitMetrics(r.name, Metrics.KindOnly(Utils.GoldCoach), Metrics.ContractsPurchased, Metrics.Count(|goldCoaches|));
          }
        }
      }
    }

    /** Send the items of the won auctions to the club and report them by kind. */
    method SendWonToClub(r: Remote)
      modifies this
      ensures commands == old(commands) + WonStep(r).0
      ensures emitted == old(emitted) + WonStep(r).1
      ensures accountInfos == old(accountInfos) && fifaFut18Accounts == old(fifaFut18Accounts)
    {
      var purchased := Utils.FilterWonTrades(r.watchList);
      if |purchased| > 0 {
        Send(Command(r.name, SendToClub(AuctionItemIds(purchased))));
        EmitPlayerCoach(r.name, Metrics.ContractsPurchased,
          Metrics.Count(|Filter(OnGoldPlayer, purchased)|), Metrics.Count(|Filter(OnGoldCoach, purchased)|));
      }
    }

    /** Remove the lost auctions from the watch list and report them by kind. */
    method DeleteOutbids(r: Remote)
      modifies this
      ensures commands == old(commands) + LostStep(r).0
      ensures emitted == old(emitted) + LostStep(r).1
      ensures accountInfos == old(accountInfos) && fifaFut18Accounts == old(fifaFut18Accounts)
    {
      var outbids := Utils.FilterLostTrades(r.watchList);
      if |outbids| > 0 {
        Send(Command(r.name, DeleteWatch(Utils.GetTradeIds(outbids))));
        EmitPlayerCoach(r.name, Metrics.ContractsOutbid,
          Metrics.Count(|Filter(OnGoldPlayer, outbids)|), Metrics.Count(|Filter(OnGoldCoach, outbids)|));
      }
    }

    /** `sendPurchasedContractsToClub`: the inventory, then the won auctions, then the lost ones. */
    method SendPurchasedContractsToClub(r: Remote)
      modifies this
      ensures commands == old(commands) + ClubCommands(r)
      ensures emitted == old(emitted) + ClubReports(r)
      ensures accountInfos == old(accountInfos) && fifaFut18Accounts == old(fifaFut18Accounts)
    {
      SendInventoryToClub(r);
      SendWonToClub(r);
      DeleteOutbids(r);
      AppendAssoc(old(commands), InventoryStep(r).0, WonStep(r).0);
      AppendAssoc(old(commands), InventoryStep(r).0 + WonStep(r).0, LostStep(r).0);
      AppendAssoc(old(emitted), InventoryStep(r).1, WonStep(r).1);
      AppendAssoc(old(emitted), InventoryStep(r).1 + WonStep(r).1, LostStep(r).1);
    }

    // -------------------------------------------------------------------
    // removeOrRelistSellings
    // -------------------------------------------------------------------

    /** The item counts of one trade state. */
    method EmitStateCounts(account: string, contracts: seq<AuctionInfo>, state: string)
      modifies this
      ensures emitted == old(emitted) + StateCounts(account, contracts, state)
      ensures accountInfos == old(accountInfos) && fifaFut18Accounts == old(fifaFut18Accounts) && commands == old(commands)
    {
      var players := |Filter(PlayerInState(state), contracts)|;
      var coaches := |Filter(CoachInState(state), contracts)|;
      ghost var e0 := emitted;
      if players > 0 {
        EmitMetrics(account, StateDims(Utils.GoldPlayer, state), Metrics.ListingItems, Metrics.Last(players));
      }
      ghost var e1 := emitted;
      if coaches > 0 {
        EmitMetrics(account, StateDims(Utils.GoldCoach, state), Metrics.ListingItems, Metrics.Last(coaches));
      }
      AppendAssoc(e0, e1[|e0|..], emitted[|e1|..]);
    }

    /** The reports particular to one trade state. */
    method EmitStateReports(account: string, contracts: seq<AuctionInfo>, state: string)
      modifies this
      ensures emitted == old(emitted) + StateReports(account, contracts, state)
      ensures accountInfos == old(accountInfos) && fifaFut18Accounts == old(fifaFut18Accounts) && commands == old(commands)
    {
      var players := |Filter(PlayerInState(state), contracts)|;
      var coaches := |Filter(CoachInState(state), contracts)|;
      ghost var p3 := if state == ActiveState
        then PlayerCoach(account, Metrics.ActiveContractsAverage, Metrics.Average(players), Metrics.Average(coaches))
        else [];
      ghost var p4 := if state == ClosedState && players > 0
        then [Metrics.Emission(account, Metrics.KindOnly(Utils.GoldPlayer), Metrics.ContractsSold, Metrics.Count(players))]
        else [];
      ghost var p5 := if state == ClosedState && coaches > 0
        then [Metrics.Emission(account, Metrics.KindOnly(Utils.GoldCoach), Metrics.ContractsSold, Metrics.Count(coaches))]
        else [];
      ghost var p6 := if state == ExpiredState
        then PlayerCoach(account, Metrics.ExpiredContractsAverage, Metrics.Average(players), Metrics.Average(coaches))
        else [];
      assert StateReports(account, contracts, state) == p3 + p4 + p5 + p6;
      ghost var e2 := emitted;
      if state == ActiveState {
        EmitPlayerCoach(account, Metrics.ActiveContractsAverage, Metrics.Average(players), Metrics.Average(coaches));
      }
      ghost var e3 := emitted;
      assert e3 == e2 + p3;
      if state == ClosedState && players > 0 {
        EmitMetrics(account, Metrics.KindOnly(Utils.GoldPlayer), Metrics.ContractsSold, Metrics.Count(players));
      }
      ghost var e4 := emitted;
      assert e4 == e3 + p4;
      if state == ClosedState && coaches > 0 {
        EmitMetrics(account, Metrics.KindOnly(Utils.GoldCoach), Metrics.ContractsSold, Metrics.Count(coaches));
      }
      ghost var e5 := emitted;
      assert e5 == e4 + p5;
      if state == ExpiredState {
        EmitPlayerCoach(account, Metrics.ExpiredContractsAverage, Metrics.Average(players), Metrics.Average(coaches));
      }
      assert emitted == e5 + p6;
      AppendAssoc(e2, p3, p4);
      AppendAssoc(e2, p3 + p4, p5);
      AppendAssoc(e2, p3 + p4 + p5, p6);
    }

    /** One round of the pile loop: the counts of one trade state, and the state's own reports. */
    method EmitStateMetrics(account: string, contracts: seq<AuctionInfo>, state: string)
      modifies this
      ensures emitted == old(emitted) + StateMetrics(account, contracts, state)
      ensures accountInfos == old(accountInfos) && fifaFut18Accounts == old(fifaFut18Accounts) && commands == old(commands)
    {
      ghost var e0 := emitted;
      EmitStateCounts(account, contracts, state);
      EmitStateReports(account, contracts, state);
      AppendAssoc(e0, StateCounts(account, contracts, state), StateReports(account, contracts, state));
    }

    /** The pile loop: every trade state in turn; the expired counts are kept for the relist report. */
    method EmitPileStates(account: string, contracts: seq<AuctionInfo>) returns (expiredPlayers: int, expiredCoaches: int)
      modifies this
      ensures emitted == old(emitted) + StatesMetrics(account, contracts, PileStates)
      ensures expiredPlayers == |Filter(PlayerInState(ExpiredState), contracts)|
      ensures expiredCoaches == |Filter(CoachInState(ExpiredState), contracts)|
      ensures accountInfos == old(accountInfos) && fifaFut18Accounts == old(fifaFut18Accounts) && commands == old(commands)
    {
      expiredPlayers := 0;
      expiredCoaches := 0;
      for k := 0 to |PileStates|
        invariant emitted == old(emitted) + StatesMetrics(account, contracts, PileStates[..k])
        invariant k == |PileStates| ==> expiredPlayers == |Filter(PlayerInState(ExpiredState), contracts)|
        invariant k == |PileStates| ==> expiredCoaches == |Filter(CoachInState(ExpiredState), contracts)|
        invariant accountInfos == old(accountInfos) && fifaFut18Accounts == old(fifaFut18Accounts) && commands == old(commands)
      {
        var tradeState := PileStates[k];
        EmitStateMetrics(account, contracts, tradeState);
        if tradeState == ExpiredState {
          expiredPlayers := |Filter(PlayerInState(tradeState), contracts)|;
          expiredCoaches := |Filter(CoachInState(tradeState), contracts)|;
        }
        StatesMetricsStep(account, contracts, PileStates, k);
        AppendAssoc(old(emitted), StatesMetrics(account, contracts, PileStates[..k]), StateMetrics(account, contracts, tradeState));
      }
      assert PileStates[..|PileStates|] == PileStates;
    }

    /** Add the contracts still listed to the club value, report them by kind, and count the whole pile as listed. */
    method ValueListedContracts(r: Remote, contracts: seq<AuctionInfo>)
      requires r.name in accountInfos
      requires contracts == PileContracts(r.tradePile)
      modifies this
      ensures accountInfos == old(accountInfos)[r.name := PileInfo(r, old(accountInfos[r.name]))]
      ensures emitted == old(emitted) + ListedMetrics(r)
      ensures fifaFut18Accounts == old(fifaFut18Accounts) && commands == old(commands)
    {
      var goldPlayers := Filter(IsListedPlayer, contracts);
      var goldCoaches := Filter(IsListedCoach, contracts);
      var info := accountInfos[r.name];
      accountInfos := accountInfos[r.name := info.(clubValue := info.clubValue + (|goldPlayers| + |goldCoaches|) * ContractPrice)];
      EmitPlayerCoach(r.name, Metrics.ContractsListing, Metrics.Last(|goldPlayers|), Metrics.Last(|goldCoaches|));
      info := accountInfos[r.name];
      accountInfos := accountInfos[r.name := info.(listedItems := |r.tradePile|)];
    }

    /** Remove the sold contracts, and relist the expired ones once there are enough of them. */
    method RemoveSoldRelistExpired(r: Remote, contracts: seq<AuctionInfo>, expiredPlayers: int, expiredCoaches: int)
      requires contracts == PileContracts(r.tradePile)
      requires expiredPlayers == |Filter(PlayerInState(ExpiredState), contracts)|
      requires expiredCoaches == |Filter(CoachInState(ExpiredState), contracts)|
      modifies this
      ensures commands == old(commands) + PileCommands(r)
      ensures emitted == old(emitted) + RelistReport(r)
      ensures accountInfos == old(accountInfos) && fifaFut18Accounts == old(fifaFut18Accounts)
    {
      var soldContracts := Utils.FilterClosedTrades(contracts);
      var expiredContracts := Utils.FilterExpiredTrades(contracts);
      ghost var removal: seq<Command> := if |soldContracts| > 0 then [Command(r.name, DeleteSold)] else [];
      ghost var relisting: seq<Command> := if |expiredContracts| >= RelistThreshold then [Command(r.name, Relist)] else [];
      assert PileCommands(r) == removal + relisting;
      if |soldContracts| > 0 {
        Send(Command(r.name, DeleteSold));
      }
      assert commands == old(commands) + removal;
      if |expiredContracts| >= RelistThreshold {
        Send(Command(r.name, Relist));
        EmitMetrics(r.name, map[], Metrics.Relist, Metrics.Count(1));
        EmitPlayerCoach(r.name, Metrics.ContractsRelisted, Metrics.Count(expiredPlayers), Metrics.Count(expiredCoaches));
        AppendAssoc(old(emitted), [Metrics.Emission(r.name, map[], Metrics.Relist, Metrics.Count(1))],
          PlayerCoach(r.name, Metrics.ContractsRelisted, Metrics.Count(expiredPlayers), Metrics.Count(expiredCoaches)));
      }
      AppendAssoc(old(commands), removal, relisting);
    }

    /**
     * `removeOrRelistSellings`: value the contracts still listed, count the
     * pile, report every trade state, remove what sold and relist what
     * expired once there is enough of it.
     */
    method RemoveOrRelistSellings(r: Remote)
      requires r.name in accountInfos
      modifies this
      ensures accountInfos == old(accountInfos)[r.name := PileInfo(r, old(accountInfos[r.name]))]
      ensures commands == old(commands) + PileCommands(r)
      ensures emitted == old(emitted) + PileMetrics(r)
      ensures fifaFut18Accounts == old(fifaFut18Accounts)
    {
      var contracts := PileContracts(r.tradePile);
      ValueListedContracts(r, contracts);
      var expiredPlayers, expiredCoaches := EmitPileStates(r.name, contracts);
      RemoveSoldRelistExpired(r, contracts, expiredPlayers, expiredCoaches);
      AppendAssoc(old(emitted), ListedMetrics(r), StatesMetrics(r.name, contracts, PileStates));
      AppendAssoc(old(emitted), ListedMetrics(r) + StatesMetrics(r.name, contracts, PileStates), RelistReport(r));
    }

    // -------------------------------------------------------------------
    // listContracts
    // -------------------------------------------------------------------

    /** The first half of `listContracts`: value the player and coach contracts held in the club and report them. */
    method ValueHeldContracts(r: Remote)
      requires r.name in accountInfos
      modifies this
      ensures accountInfos == old(accountInfos)[r.name := HeldValue(r, old(accountInfos[r.name]))]
      ensures emitted == old(emitted) + HeldMetrics(r)
      ensures commands == old(commands) && fifaFut18Accounts == old(fifaFut18Accounts)
    {
      var goldPlayers := FindConsumable(r.consumables, GoldPlayerContractResourceId);
      var goldCoaches := FindConsumable(r.consumables, GoldCoachContractResourceId);
      var info := accountInfos[r.name];
      var clubValue := info.clubValue;
      if goldPlayers.Some? {
        clubValue := clubValue + ContractPrice * goldPlayers.value.count;
      }
      if goldCoaches.Some? {
        clubValue := clubValue + ContractPrice * goldCoaches.value.count;
      }
      assert clubValue == info.clubValue + ContractPrice * ConsumableCount(goldPlayers) + ContractPrice * ConsumableCount(goldCoaches);
      assert info.(clubValue := clubValue) == HeldValue(r, info);
      accountInfos := accountInfos[r.name := info.(clubValue := clubValue)];
      EmitPlayerCoach(r.name, Metrics.ContractsInClub,
        Metrics.Last(ConsumableCount(goldPlayers)), Metrics.Last(ConsumableCount(goldCoaches)));
    }

    /**
     * The second half of `listContracts`: the player contract first chosen
     * as the target is overwritten by the coach contract, which is moved to
     * the transfer list and listed when there is one and room for it.
     */
    method ListOneContract(r: Remote) returns (completed: bool)
      requires r.name in accountInfos
      modifies this
      ensures commands == old(commands) + ListingAttempt(r, old(accountInfos[r.name])).commands
      ensures emitted == old(emitted) + ListingAttempt(r, old(accountInfos[r.name])).metrics
      ensures completed == ListingAttempt(r, old(accountInfos[r.name])).completed
      ensures accountInfos == old(accountInfos) && fifaFut18Accounts == old(fifaFut18Accounts)
    {
      var targetContract := FindConsumable(r.consumables, GoldPlayerContractResourceId);
      targetContract := FindConsumable(r.consumables, GoldCoachContractResourceId);
      if targetContract.None? || targetContract.value.count <= 0 {
        return true;
      }
      var accountInfo := accountInfos[r.name];
      if accountInfo.listedItems >= accountInfo.listingSize {
        return true;
      }
      Send(Command(r.name, SendToTransfer([targetContract.value.resourceId])));
      if |r.transferReply| == 0 {
        return false;
      }
      var itemId := r.transferReply[0].id;
      if !r.transferReply[0].success {
        return true;
      }
      Send(Command(r.name, List(itemId, r.listingPrice.startingBid, r.listingPrice.buyNowPrice, ListingDuration)));
      EmitMetrics(r.name, Metrics.KindOnly(ListedKind(targetContract.value.resourceId)), Metrics.ListContracts, Metrics.Count(1));
      return true;
    }

    /**
     * `listContracts`: value the contracts held in the club, then move one
     * coach contract to the transfer list and list it when there is one and
     * room for it. `completed` is false when reading the transfer reply
     * throws.
     */
    method ListContracts(r: Remote) returns (completed: bool)
      requires r.name in accountInfos
      modifies this
      ensures accountInfos == old(accountInfos)[r.name := ListingEffects(r, old(accountInfos[r.name])).info]
      ensures commands == old(commands) + ListingEffects(r, old(accountInfos[r.name])).commands
      ensures emitted == old(emitted) + ListingEffects(r, old(accountInfos[r.name])).metrics
      ensures completed == ListingEffects(r, old(accountInfos[r.name])).completed
      ensures fifaFut18Accounts == old(fifaFut18Accounts)
    {
      ghost var e0 := emitted;
      ValueHeldContracts(r);
      completed := ListOneContract(r);
      AppendAssoc(e0, HeldMetrics(r), ListingAttempt(r, accountInfos[r.name]).metrics);
    }

    // -------------------------------------------------------------------
    // tradeB150
    // -------------------------------------------------------------------

    /**
     * One candidate of the bid loop of `tradeB150`: it is skipped while the
     * credits in the ledger are below the bid price; otherwise it is bid on
     * and reported, and the credits drop by the bid price unless the bid
     * throws, which `interrupted` says.
     */
    method BidOn(r: Remote, item: AuctionInfo) returns (interrupted: bool)
      requires r.name in accountInfos
      modifies this
      ensures var step := BidLoop(r.name, [item], old(accountInfos[r.name]).credits, r.rejectedBids);
        && accountInfos == old(accountInfos)[r.name := old(accountInfos[r.name]).(credits := step.credits)]
        && commands == old(commands) + step.commands
        && emitted == old(emitted) + step.metrics
        && interrupted == step.interrupted
      ensures fifaFut18Accounts == old(fifaFut18Accounts)
    {
      assert [item][1..] == [];
      var info := accountInfos[r.name];
      if info.credits < BidPrice {
        accountInfos := accountInfos[r.name := info];
        return false;
      }
      Send(Command(r.name, PlaceBid(item.tradeId, BidPrice)));
      EmitMetrics(r.name, map[], Metrics.ContractsBidB150, Metrics.Average(1));
      if item.tradeId in r.rejectedBids {
        accountInfos := accountInfos[r.name := info];
        return true;
      }
      accountInfos := accountInfos[r.name := info.(credits := info.credits - BidPrice)];
      return false;
    }

    /** The bid loop of `tradeB150`: every biddable contract in turn, until a bid throws. */
    method PlaceBids(r: Remote, biddable: seq<AuctionInfo>)
      requires r.name in accountInfos
      modifies this
      ensures accountInfos == old(accountInfos)[r.name := old(accountInfos[r.name]).(
        credits := BidLoop(r.name, biddable, old(accountInfos[r.name]).credits, r.rejectedBids).credits)]
      ensures commands == old(commands) + BidLoop(r.name, biddable, old(accountInfos[r.name]).credits, r.rejectedBids).commands
      ensures emitted == old(emitted) + BidLoop(r.name, biddable, old(accountInfos[r.name]).credits, r.rejectedBids).metrics
      ensures fifaFut18Accounts == old(fifaFut18Accounts)
    {
      ghost var info0 := accountInfos[r.name];
      ghost var full := BidLoop(r.name, biddable, info0.credits, r.rejectedBids);
      ghost var done: seq<Command> := [];
      ghost var reported: seq<Metrics.Metric> := [];
      var k := 0;
      var interrupted := false;
      while k < |biddable| && !interrupted
        invariant 0 <= k <= |biddable|
        invariant r.name in accountInfos
        invariant accountInfos == old(accountInfos)[r.name := info0.(credits := accountInfos[r.name].credits)]
        invariant commands == old(commands) + done && emitted == old(emitted) + reported
        invariant fifaFut18Accounts == old(fifaFut18Accounts)
        invariant !interrupted ==>
          var rest := BidLoop(r.name, biddable[k..], accountInfos[r.name].credits, r.rejectedBids);
          full == BidRun(done + rest.commands, reported + rest.metrics, rest.credits, rest.interrupted)
        invariant interrupted ==> full == BidRun(done, reported, accountInfos[r.name].credits, true)
        decreases |biddable| - k, !interrupted
      {
        ghost var step := BidLoop(r.name, [biddable[k]], accountInfos[r.name].credits, r.rejectedBids);
        ghost var rest := BidLoop(r.name, biddable[k + 1..], step.credits, r.rejectedBids);
        BidLoopAt(r.name, biddable, k, accountInfos[r.name].credits, r.rejectedBids);
        interrupted := BidOn(r, biddable[k]);
        AppendAssoc(done, step.commands, rest.commands);
        AppendAssoc(reported, step.metrics, rest.metrics);
        AppendAssoc(old(commands), done, step.commands);
        AppendAssoc(old(emitted), reported, step.metrics);
        done := done + step.commands;
        reported := reported + step.metrics;
        if !interrupted {
          k := k + 1;
        }
      }
      if !interrupted {
        assert biddable[k..] == [];
      }
    }

    /**
     * `tradeB150` for the account at position `page`: search that page of
     * the market, report the share of cheap gold contracts found, then bid
     * on them while the credits last.
     */
    method TradeB150(r: Remote, page: int)
      requires r.name in accountInfos
      modifies this
      ensures accountInfos == old(accountInfos)[r.name := BidEffects(r, page, old(accountInfos[r.name])).info]
      ensures commands == old(commands) + BidEffects(r, page, old(accountInfos[r.name])).commands
      ensures emitted == old(emitted) + BidEffects(r, page, old(accountInfos[r.name])).metrics
      ensures fifaFut18Accounts == old(fifaFut18Accounts)
    {
      var search := Command(r.name, Search(page * PageSize, PageSize, BidPrice));
      Send(search);
      var total := |r.searchResult|;
      var auctions := Filter(IsGoldAuction, r.searchResult);
      var biddable := Filter(IsCheap, auctions);
      var found := Metrics.Emission(r.name, map[], Metrics.ContractsSearchB150, Metrics.RatioAverage(|biddable|, total, total));
      EmitMetrics(r.name, map[], Metrics.ContractsSearchB150, Metrics.RatioAverage(|biddable|, total, total));
      ghost var run := BidLoop(r.name, biddable, accountInfos[r.name].credits, r.rejectedBids);
      PlaceBids(r, biddable);
      AppendAssoc(old(commands), [search], run.commands);
      AppendAssoc(old(emitted), [found], run.metrics);
    }

    // -------------------------------------------------------------------
    // trade
    // -------------------------------------------------------------------

    /**
     * One account's round of `trade`: the club step, the pile step and the
     * listing step, then the club value report. A listing step that throws
     * ends the cycle before the report.
     */
    method RunRound(r: Remote) returns (completed: bool)
      requires r.name in accountInfos
      modifies this
      ensures Outcome(State(), completed) == AccountRound(old(State()), r)
    {
      RoundInSteps(State(), r);
      SendPurchasedContractsToClub(r);
      RemoveOrRelistSellings(r);
      completed := ListContracts(r);
      if !completed {
        return;
      }
      EmitMetrics(r.name, map[], Metrics.ClubValue, Metrics.Last(accountInfos[r.name].clubValue));
    }

    /**
     * The rounds of every usable account, in order, until one throws; the
     * visit at position i answers the calls of the round at position i.
     */
    method RunRounds(accounts: seq<Remote>) returns (completed: bool)
      requires forall r :: r in accounts ==> r.name in accountInfos
      modifies this
      ensures Outcome(State(), completed) == AccountRounds(old(State()), accounts)
    {
      ghost var s := State();
      var i := 0;
      completed := true;
      assert accounts[..0] == [];
      while i < |accounts| && completed
        invariant 0 <= i <= |accounts|
        invariant Outcome(State(), completed) == AccountRounds(s, accounts[..i])
      {
        RoundsSnoc(s, accounts, i);
        completed := RunRound(accounts[i]);
        i := i + 1;
      }
      RoundsStopAtFailure(s, accounts, i);
      if completed {
        assert accounts[..i] == accounts;
      }
    }

    /** The bid step of every usable account, the position of each in the list choosing its search page. */
    method BidAll(accounts: seq<Remote>)
      requires forall r :: r in accounts ==> r.name in accountInfos
      modifies this
      ensures State() == BidRounds(old(State()), accounts)
    {
      ghost var s := State();
      for idx := 0 to |accounts|
        invariant State() == BidRounds(s, accounts[..idx])
      {
        assert accounts[..idx + 1][..idx] == accounts[..idx];
        assert accounts[idx] in accounts;
        TradeB150(accounts[idx], idx);
      }
      assert accounts[..|accounts|] == accounts;
    }

    /**
     * `trade`: count the request, initialise the configured accounts, run
     * the round of every account the trader works on and, when all of them
     * ran to their end, let every one of them bid. `inputs` holds this
     * cycle's mass-info answers of the configured accounts, `visits` the
     * answers each round and bid step receives. `completed` is false when a
     * round threw, which ends the cycle.
     */
    method Trade(inputs: seq<Remote>, visits: seq<Remote>) returns (completed: bool)
      requires Names(inputs) == configured
      requires Registered(State()) && AnswersCycle(State(), inputs, visits)
      modifies this
      ensures Outcome(State(), completed) == Cycle(old(State()), inputs, visits)
      ensures Registered(State())
    {
      emitted := emitted + [TradeRequestMetric()];
      ghost var s1 := State();
      IntializeAccountInfo(inputs);
      InitRegisters(s1, inputs, |inputs|);
      InitAppendsUsable(s1, inputs, |inputs|);
      VisitsRegistered(State(), visits);
      completed := RunRounds(visits);
      if !completed {
        return;
      }
      BidAll(visits);
    }
  }
}
