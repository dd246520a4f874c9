# FUT 18 auto trader, modelled in Dafny

A model of the trading core of the FUT 18 auto trader: a worker that, once
a minute, walks the FIFA Ultimate Team accounts it is configured with and
buys, moves, lists and relists gold player and gold coach contracts on the
transfer market.

The model has three parts.

- **Classifier and filters** (`utils.dfy`, from `src/utils.ts`).
  - `GetContractType` classifies an auction or a bare item as a gold player
    contract, a gold coach contract or unknown.
  - The `Filter*` functions split auction and item sequences by contract
    type, trade state (`active`, `expired`, `closed`) and bid state
    (`highest`, `outbid`).
  - `GetTradeIds` and `GetItemIds` project ids.
  - The resource ids are a `Resources` parameter.
- **The trader** (`trade_rules.dfy` and `trader.dfy`, from `src/index.ts`).
  - `TradeRules` describes one cycle of `trade` as functions of what the
    market answers: the commands sent to the market, the metrics reported,
    and the per-account ledger (`accountInfos`).
  - `Trader.FutAutoTrader` is the worker object. Its ledger map, its list
    of usable accounts and its two logs are fields that its methods update
    in place, step by step as the source does. Each method is proved to
    leave the object in the state the matching `TradeRules` function
    describes.
  - The properties of the cycle are lemmas about those functions:
    - when sold contracts are removed and expired ones relisted;
    - what the ledger holds after each step;
    - that at most one coach contract is listed;
    - that bids stay within the credits and stop at the first bid that
      throws;
    - that no account searches or bids unless every account's round ran to
      its end.
- **The account wrapper** (`accounts.dfy`, from `src/accounts.ts`).
  - The `FifaFut18AccountInfo` ledger and `init`, on both its healthy and
    its unhealthy path.
  - The club-value and listing arithmetic of `emitClubMetrics`.
  - The player-then-coach pair of `emitGoldContractsMetrics`.
  - The status code and success flag that `bid` reports.

Supporting modules:

- `wrappers.dfy`: `Option` and `Result`.
- `collections.dfy`: `Filter` and `Find`, the underscore `_.filter` and
  `_.find`, with their lemmas.
- `fut18.dfy`: the market's value types.
- `metrics.dfy`: metric emissions as values.

### How the remote calls are modelled

The remote calls are answered from `Remote` snapshots, which each cycle
receives as parameters, because the market answers differently from one
call to the next:

- `inputs` answers the mass-info call of every configured account, in the
  configured order.
- `visits` holds one snapshot per account the cycle works on, in the order
  the rounds visit them. The round and the bid step of the account at
  position i are answered from the snapshot at position i.

The worker itself keeps only the names of the accounts it works on. A
snapshot holds:

- the mass info, or `None` when that call throws;
- the unassigned items and the per-item reply of sending them to the club;
- the watch list and the trade pile;
- the club consumables;
- the reply of moving a contract to the transfer list;
- the listing price;
- the search page;
- the trade ids whose bid throws.

Every call that changes something on the market is appended to a command
log as a `Command`:

- delete sold
- relist
- send to club
- delete from watch list
- send to transfer list
- list
- search
- bid

Every metric is appended to a metric log.

### Behaviours of the code that the model keeps

Where the design notes of the project and the code differ, the model
follows the code.

- Relisting happens whenever at least 10 gold contracts on the pile have
  expired, with no upper band and no other fallback.
- `listContracts` looks up the player contract and then overwrites the
  target with the coach contract. Only coach contracts are ever listed,
  and the listing does not increase `listedItems`.
- `trade` has no per-account error handling. Suppose the transfer-list
  reply of `listContracts` comes back empty: reading its first entry
  throws, and that ends the whole cycle. No further account is visited
  and no account bids. The model carries this as `completed == false`.
- The init step of `src/index.ts` does not check the trade feature, unlike
  `init` in `src/accounts.ts`. Its account is marked healthy as soon as
  the mass info arrives, so an account whose pile sizes are missing
  reports healthy but is not added to the accounts the trader works on.
- `fifaFut18Accounts` is never cleared between cycles, so a cycle works on
  the accounts of earlier cycles followed by this cycle's usable ones. An
  account that stays usable is visited once more per cycle, and its
  ledger is overwritten by each new initialisation. `AnswersCycle`
  requires one visit per name in that list, and `CycleSearchesEveryPage`
  states that each name in it searches its own page.

## Model

| member | source | states |
|---|---|---|
| Collections.Filter | src/utils.ts:53-116 | `_.filter`: the result is no longer than the input; every kept element satisfies the predicate; an element is kept iff it is in the input and satisfies the predicate |
| Collections.FilterKeepsOrder | src/utils.ts:53-116 | the filter's result is an order-preserving subsequence of its input, and keeps every occurrence of a satisfying element and none of the others (multiset count) |
| Collections.Find | src/index.ts:328-335 | `_.find`: a found element is in the input and satisfies the predicate; nothing is found iff no element satisfies it |
| Collections.FindFirst | src/index.ts:328-335 | the element found is the first satisfying one: every element before it fails the predicate |
| Fut18.FindPileEntry | src/index.ts:57-62 | the entry found carries the requested pile key; none is found iff no entry has that key |
| Fut18.FindConsumable | src/index.ts:328-335 | the consumable found carries the requested resource id; none is found iff no consumable has it |
| Fut18.CountSuccesses | src/index.ts:459-460 | the number of successful entries of a bulk reply is at most the reply's length, and equals it iff every entry succeeded |
| Utils.GetContractType | src/utils.ts:17-28 | total: gold player iff the resource id is either player id; gold coach iff it is the coach id and not a player id; unknown iff the entry is not a gold contract; with distinct ids, gold coach iff the coach id |
| Utils.ClassifyThroughItemData | src/utils.ts:30-36 | classifying an auction, or testing it for a gold contract, gives the same answer as doing so for its item data |
| Utils.FilterGoldContracts | src/utils.ts:53-59 | exactly the input entries that are gold contracts, as a subsequence of the input, each occurring exactly as often as in the input |
| Utils.FilterGoldPlayerContracts | src/utils.ts:62-68 | exactly the input entries that are gold player contracts, as a subsequence, each occurring exactly as often as in the input |
| Utils.FilterGoldCoachContracts | src/utils.ts:70-76 | exactly the input entries that are gold coach contracts, as a subsequence, each occurring exactly as often as in the input |
| Utils.FilterActiveTrades | src/utils.ts:78-80 | exactly the auctions in the `active` trade state, as a subsequence, each occurring exactly as often as in the input |
| Utils.FilterExpiredTrades | src/utils.ts:82-84 | exactly the auctions in the `expired` trade state, as a subsequence, each occurring exactly as often as in the input |
| Utils.FilterClosedTrades | src/utils.ts:86-88 | exactly the auctions in the `closed` trade state, as a subsequence, each occurring exactly as often as in the input |
| Utils.FilterWinningTrades | src/utils.ts:90-94 | exactly the active auctions with the highest bid, as a subsequence, each occurring exactly as often as in the input |
| Utils.FilterLosingTrades | src/utils.ts:96-100 | exactly the active auctions that were outbid, as a subsequence, each occurring exactly as often as in the input |
| Utils.FilterWonTrades | src/utils.ts:102-106 | exactly the closed auctions with the highest bid, as a subsequence, each occurring exactly as often as in the input |
| Utils.FilterLostTrades | src/utils.ts:108-112 | exactly the closed auctions that were outbid, as a subsequence, each occurring exactly as often as in the input |
| Utils.FilterOutbidTrades | src/utils.ts:114-116 | exactly the outbid auctions, whatever their trade state, as a subsequence, each occurring exactly as often as in the input |
| Utils.GetTradeIds | src/utils.ts:118-120 | one trade id per auction, same length, same order |
| Utils.GetItemIds | src/utils.ts:122-124 | one item id per entry, same length and order: an auction gives its item's id, a bare item its own |
| Utils.TradeStateFiltersDisjoint | src/utils.ts:78-88 | the active, expired and closed filters never share an element |
| Utils.TradeStateCounts | src/utils.ts:78-88 | the three trade-state filters hold at most as many entries as the input, and exactly as many when every entry is in one of the three states |
| Utils.GoldContractCountSplit | src/utils.ts:53-76 | with distinct player and coach ids, the gold contracts are the gold player contracts plus the gold coach contracts, in number |
| Utils.ClosedOutcomes | src/utils.ts:86-112 | won and lost trades are the closed trades filtered by bid state, and so subsequences of the closed trades |
| Utils.ActiveOutcomes | src/utils.ts:78-100 | winning and losing trades are the active trades filtered by bid state, and so subsequences of them |
| Utils.OutbidOutcomes | src/utils.ts:96-116 | lost trades are the closed outbid trades and losing trades the active ones; together they are at most the outbid trades, which admit both |
| Metrics.WithAccountKeeps | src/index.ts:138-142 | `_.extend` of the account-name dimension with the caller's: every caller dimension is kept and wins on a clash, and the account name is added where the caller gave none |
| Accounts.Reason | src/accounts.ts:91 | the unhealthy reason is never empty: the error message when it has one, otherwise `unknown` |
| Accounts.InitialInfo | src/accounts.ts:48-110 | healthy iff the mass info arrived with trading enabled and both pile sizes. Healthy: empty reason, the credits, listing size = listed items = pile 2, transfer list = pile 4. Unhealthy: a non-empty reason (the call's error, or `no_trade_feature`) and every number zero. All eight counters are zero on both paths |
| Accounts.InitMetrics | src/accounts.ts:81-89 | a healthy init reports three gauges, the first being the credits; an unhealthy one reports nothing |
| Accounts.ClubValueCountsListedAndHeld | src/accounts.ts:149-158 | the club value is the credits plus the contract price times the active, expired and in-club contracts of both kinds; closed contracts do not change it |
| Accounts.GoldContractsMetrics | src/accounts.ts:215-228 | exactly two emissions of the same metric, the player value first and the coach value second |
| Accounts.GoldContractsDimensions | src/accounts.ts:215-228 | the first emission carries the player contract type and the second the coach type; every other dimension of the caller is kept on both, so the caller's map is not altered; the account name is added where absent |
| Accounts.ClubMetrics | src/accounts.ts:112-159 | `emitClubMetrics` reports thirteen emissions: six player/coach pairs and the club value |
| Accounts.ClubMetricsReportListingAndValue | src/accounts.ts:119-158 | the listing pair reports active plus expired contracts of each kind, and the last emission is the club value |
| Accounts.BidMetric | src/accounts.ts:243-264 | the one bid emission: value 1 iff the status is 200, and it carries the status, the price and the contract type of the auction |
| Accounts.BidReportsOutcome | src/accounts.ts:248-263 | an accepted bid reports success; a rejected one reports failure unless its response code is 200 |
| Accounts.FifaFut18Account.constructor | src/accounts.ts:41-46 | the wrapper takes the account's name and starts with no ledger and no emissions |
| Accounts.FifaFut18Account.EmitMetrics | src/accounts.ts:230-241 | appends exactly one emission tagged with the account name |
| Accounts.FifaFut18Account.Init | src/accounts.ts:48-110 | the ledger becomes the `InitialInfo` of the reply, and exactly its gauges are appended |
| Accounts.FifaFut18Account.EmitGoldContractsMetrics | src/accounts.ts:215-228 | appends exactly the player/coach pair |
| Accounts.FifaFut18Account.EmitClubMetrics | src/accounts.ts:112-159 | appends exactly the club report of the current ledger |
| Accounts.FifaFut18Account.Bid | src/accounts.ts:243-267 | the bid succeeds iff the market accepts it, and exactly one bid emission is appended on either path |
| TradeRules.TraderResources | src/index.ts:12-13 | the trader's resource ids, with the coach id distinct from the player id |
| TradeRules.GoldContractsAreClassified | src/index.ts:696-701 | the trader's gold test implies the classifier's; a player or coach resource id is a gold contract for the classifier; and the player and coach ids are classified as their kinds |
| TradeRules.PlayerCoach | src/index.ts:166-179 | the pair of emissions of one metric: player value then coach value, tagged with their contract types |
| TradeRules.ItemIds | src/index.ts:446 | one id per item, same length and order |
| TradeRules.AuctionItemIds | src/index.ts:501 | one item id per auction, same length and order |
| TradeRules.ItemIdsCover | src/index.ts:438-447 | an id is among the items' ids iff some item carries it |
| TradeRules.ClubTargetsAreContracts | src/index.ts:431-447 | the ids sent to the club are exactly those of the items with a player or coach resource id, with no quality gate; their number is the players plus the coaches |
| TradeRules.InventoryReportsOnlyFullSuccess | src/index.ts:454-492 | the club send is issued iff there are targets; purchase metrics appear only when the number of successes equals the number of targets |
| TradeRules.AuctionItemIdsCover | src/index.ts:501 | an id is among the auctions' item ids iff some auction's item carries it |
| TradeRules.TradeIdsCover | src/utils.ts:118-120 | an id is among the auctions' trade ids iff some auction carries it |
| TradeRules.WonItemsGoToClub | src/index.ts:495-501 | every won auction's item id is in the one send-to-club command the won step issues, and every id in it is the item of a won auction |
| TradeRules.LostTradesLeaveWatchList | src/index.ts:530-536 | every lost auction's trade id is in the one watch-list removal the lost step issues, and every id in it is the trade of a lost auction |
| TradeRules.WatchListSettled | src/index.ts:495-563 | no auction is both won and lost; won plus lost is at most closed; each bulk call is issued iff there is such an auction |
| TradeRules.PileRemovesSold | src/index.ts:151-296 | sold contracts are removed iff some gold contract on the pile has closed |
| TradeRules.PileRelistsExpired | src/index.ts:290-300 | expired contracts are relisted iff at least 10 gold contracts on the pile have expired, with no upper bound |
| TradeRules.PileSendsOnlyRemovalAndRelist | src/index.ts:290-318 | the pile step sends at most two commands, each a removal of sold items or a relist |
| TradeRules.PileLedger | src/index.ts:155-183 | after the pile step the listed count is the length of the whole pile, gold or not, and the club value grew by the contract price per unsold gold contract; nothing else in the ledger changes; unsold plus sold contracts are all the gold contracts |
| TradeRules.RelistCountsExpired | src/index.ts:264-317 | the relist report is one relist count and a player/coach pair whose counts add up to the expired gold contracts |
| TradeRules.ListingDecision | src/index.ts:366-423 | at most one listing, always a coach contract. It moves the contract to the transfer list iff one is held and `listedItems < listingSize`. It lists, for 3600 seconds at the given prices, iff the reply reports success, and then reports one coach listing. It throws iff the reply is empty |
| TradeRules.ListingLedger | src/index.ts:337-364 | the listing step adds the contract price per player and coach contract held in the club, changes nothing else in the ledger (a listed contract does not raise `listedItems`), and reports both held counts first |
| TradeRules.BiddableAreCheapGoldContracts | src/index.ts:581-587 | the bid candidates are exactly the gold contracts with a current bid of at most 100, in search order |
| TradeRules.BidLoopSpends | src/index.ts:594-620 | at most one bid per candidate, each reported. Every bid costs 150 except one that throws, so credits that start non-negative never go negative, and every bid, the one that threw included, was placed while the credits covered it (150 × bids ≤ credits) |
| TradeRules.BidsOnCandidates | src/index.ts:595-613 | every bid is at price 150, by the account, on one of the candidates' trade ids, and reported by the bid metric |
| TradeRules.BidsStopAtRejection | src/index.ts:594-620 | every bid before the last went through; the last one threw iff the loop was interrupted |
| TradeRules.BidsFollowBudget | src/index.ts:594-614 | with no bid throwing: bids placed = min(candidates, credits div 150), on the first candidates in order, and final credits = credits − 150 × bids |
| TradeRules.BidStepWithinBudget | src/index.ts:568-621 | the bid step searches page `page` (start page×50, 50 results, macr 150) first, then bids only at 150 on cheap gold contracts of that page. Its credits never rise and stay non-negative from a non-negative start, every bid is covered by the starting credits, and nothing else in the ledger changes |
| TradeRules.InitAppendsUsable | src/index.ts:51-70 | initialisation appends exactly the usable accounts, in order, and sends no command |
| TradeRules.InitReportsEveryAccount | src/index.ts:51-93 | initialisation reports one health metric per configured account plus three gauges per usable one |
| TradeRules.InitRegisters | src/index.ts:63-70 | initialisation keeps every ledger, gives every usable account one, and so keeps every account worked on registered |
| TradeRules.Apply | src/index.ts:599-613 | applying a step's effects sets that account's ledger, keeps every other ledger and the account list, and appends the step's commands and metrics to the logs |
| TradeRules.AccountRound | src/index.ts:110-119 | an account's round keeps the set of ledgers and the account list |
| TradeRules.AccountRounds | src/index.ts:110-119 | the rounds keep the set of ledgers and the account list |
| TradeRules.BidRounds | src/index.ts:125-127 | the bid steps keep the set of ledgers and the account list |
| TradeRules.Names | src/index.ts:70 | the worker keeps one name per usable account, in order |
| TradeRules.VisitsRegistered | src/index.ts:110-127 | the snapshot of every visit belongs to an account with a ledger when the visits are named as the accounts worked on |
| TradeRules.Cycle | src/index.ts:101-130 | a cycle keeps every account it works on registered with a ledger |
| TradeRules.RoundsStayOffMarket | src/index.ts:110-119 | the rounds keep the earlier commands and append neither searches nor bids |
| TradeRules.RoundsStopAtFailure | src/index.ts:110-119 | once a round throws, no later account is visited |
| TradeRules.CycleBidsOnlyWhenComplete | src/index.ts:101-130 | a cycle in which a round threw has issued no search and no bid |
| TradeRules.BidRoundsSearchEveryPage | src/index.ts:125-127 | the account at position i searches page i, and earlier commands are kept |
| TradeRules.CycleSearchesEveryPage | src/index.ts:101-130 | a cycle that ran to its end searched one page per account name, the names of earlier cycles and then this cycle's usable ones, in order |
| Trader.FutAutoTrader.constructor | src/index.ts:33-39 | the worker keeps the configured account names and starts with no ledgers, no accounts and empty logs |
| Trader.FutAutoTrader.EmitMetrics | src/index.ts:132-144 | appends exactly one emission tagged with the account name and changes nothing else |
| Trader.FutAutoTrader.InitializeAccount | src/index.ts:52-92 | one account's initialisation leaves exactly the state `InitOne` describes |
| Trader.FutAutoTrader.IntializeAccountInfo | src/index.ts:44-94 | initialisation of the configured accounts from this cycle's answers leaves exactly the state `InitFold` describes |
| Trader.FutAutoTrader.SendInventoryToClub | src/index.ts:429-493 | appends the inventory step's command and metrics, and leaves the ledgers alone |
| Trader.FutAutoTrader.SendWonToClub | src/index.ts:495-528 | appends the won auctions' send and their purchase pair |
| Trader.FutAutoTrader.DeleteOutbids | src/index.ts:530-563 | appends the lost auctions' removal and their outbid pair |
| Trader.FutAutoTrader.SendPurchasedContractsToClub | src/index.ts:427-566 | appends exactly the club step's commands and metrics, and leaves the ledgers alone |
| Trader.FutAutoTrader.EmitPileStates | src/index.ts:189-283 | the pile loop appends every trade state's metrics in order and returns the expired player and coach counts |
| Trader.FutAutoTrader.ValueListedContracts | src/index.ts:155-183 | the ledger gets the unsold contracts' value and the pile length; the listing pair is appended |
| Trader.FutAutoTrader.RemoveSoldRelistExpired | src/index.ts:290-318 | appends exactly the pile step's commands and the relist report |
| Trader.FutAutoTrader.RemoveOrRelistSellings | src/index.ts:146-321 | the account's ledger becomes `PileInfo`, and exactly the pile step's commands and metrics are appended |
| Trader.FutAutoTrader.ValueHeldContracts | src/index.ts:326-364 | the account's club value grows by the contracts held in the club, whose counts are reported |
| Trader.FutAutoTrader.ListOneContract | src/index.ts:366-423 | appends exactly the listing attempt's commands and metric, and reports whether it threw |
| Trader.FutAutoTrader.ListContracts | src/index.ts:323-425 | the ledger, the commands and the metrics become those of the listing step, and `completed` says whether it threw |
| Trader.FutAutoTrader.BidOn | src/index.ts:595-614 | one candidate: skipped below 150 credits, otherwise bid on and reported, paying 150 unless the bid throws |
| Trader.FutAutoTrader.PlaceBids | src/index.ts:594-620 | the loop leaves exactly the credits, commands and metrics of the bid loop |
| Trader.FutAutoTrader.TradeB150 | src/index.ts:568-621 | the ledger, commands and metrics become those of the bid step for the given page |
| Trader.FutAutoTrader.RunRound | src/index.ts:110-119 | one account's round leaves exactly the state and outcome `AccountRound` describes |
| Trader.FutAutoTrader.RunRounds | src/index.ts:110-119 | the rounds over the visits leave exactly the state and outcome `AccountRounds` describes, stopping at the first that throws |
| Trader.FutAutoTrader.BidAll | src/index.ts:125-127 | every account's bid step, the position choosing the page |
| Trader.FutAutoTrader.Trade | src/index.ts:101-130 | given this cycle's answers for the configured accounts and one snapshot per visit, a cycle leaves exactly the state and outcome `Cycle` describes and keeps the accounts registered |

## Left out

- Remote calls.
  - The market calls are answered from the `Remote` snapshot and are not modelled themselves.
  - Failures are modelled only where the core's own code turns them into behaviour: a missing mass info, a bid that throws, an empty transfer reply, and the per-item success flags.
  - Any other call that throws (the pile, the watch list, the search, the list call, the metric sink) is not modelled.
- `sleep`, `async`/`await`, the cron schedule and logging are not modelled. `_.groupBy` and `_.mapObject` are used only for logging and are left out.
- `setTracker` and `src/tracker.ts` are not part of this model: the tracker is a metrics sink.
- The analysis handler is not part of this model: it is dashboard configuration with no logic.
- `tradeGoldContract` and `updateBidMetrics` are left out: their only call is commented out.
- TradeRules.BidEffects: the found ratio `biddable.length / total` is a floating-point division with no guard for an empty page. The metric records the numerator, the denominator and the weight, and never divides.
- The listing price chosen by comparing the account name with one e-mail address is the `listingPrice` parameter of the snapshot.
- A trade pile whose `auctionInfo` is absent is modelled as an empty pile, so its listed count is 0 as the code's `== null` test gives.
- The delegating wrappers of the account wrapper (`getItems` … `sendResourceToTransferList`) are calls into the market and are not modelled. `relist` in the account wrapper also emits a relist count, but the trader calls the market's `relist` directly.
- `src/constants.ts` does not define the resource ids, trade states and bid states that `src/utils.ts` reads. The classifier takes them as the `Resources` parameter; the trader uses 5001006 and 5001013 from `src/index.ts`.
- Numbers are unbounded integers. JavaScript's floating-point numbers are not modelled, which matters only far beyond any credit balance.
- Accounts.ClubMetrics: its contract states only the count of emissions. Among their values only the listing pair and the club value are proved, in `ClubMetricsReportListingAndValue`; the sold, average and in-club pairs are not stated.
- Accounts.InitMetrics: states the number of gauges and the credits gauge; the listing and transfer-list gauges are not stated.
- TradeRules.AccountRound, TradeRules.AccountRounds, TradeRules.BidRounds, TradeRules.Cycle: their own contracts state only what they keep. What they send and report is stated by the lemmas about them and by the `Trader` methods proved equal to them.
