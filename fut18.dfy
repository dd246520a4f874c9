/**
 * The values the FUT 18 market client hands to the trader (its
 * `applet.fifa.fut18` types), reduced to the fields the trader reads.
 */
module Fut18 {
  import opened Wrappers
  import opened Collections

  /** An item in a pile, a club or a search result (`ItemData`). */
  datatype Item = Item(id: int, resourceId: int, rareflag: int, discardValue: int)

  /** A market auction wrapping one item (`AuctionInfo`). */
  datatype AuctionInfo = AuctionInfo(
    tradeId: int,
    tradeState: string,
    bidState: string,
    currentBid: int,
    itemData: Item)

  /** The trade states and bid states the market reports, as strings. */
  const ActiveState: string := "active"
  const ExpiredState: string := "expired"
  const ClosedState: string := "closed"
  const HighestBid: string := "highest"
  const OutbidBid: string := "outbid"

  /** One `pileSizeClientData` entry: the size of the pile numbered `key`. */
  datatype PileEntry = PileEntry(key: int, value: int)

  /** The pile numbers whose sizes are the listing capacity and the transfer-list capacity. */
  const ListingSizeKey: int := 2
  const TransferListSizeKey: int := 4

  /** `_.find(entries, (x) => x.key === key)`. */
  function FindPileEntry(entries: seq<PileEntry>, key: int): (r: Option<PileEntry>)
    ensures r.Some? ==> r.value in entries && r.value.key == key
    ensures r.None? <==> forall e :: e in entries ==> e.key != key
  {
    Find((e: PileEntry) => e.key == key, entries)
  }

  /** The reply of `getUserMassInfo`, reduced to what the trader reads. */
  datatype UserMassInfo = UserMassInfo(credits: int, tradeFeature: int, pileEntries: seq<PileEntry>)

  /** One entry of the club development consumables: a resource and how many the club holds. */
  datatype Consumable = Consumable(resourceId: int, count: int)

  /** `_.find(consumables, (d) => d.resourceId === resourceId)`. */
  function FindConsumable(consumables: seq<Consumable>, resourceId: int): (r: Option<Consumable>)
    ensures r.Some? ==> r.value in consumables && r.value.resourceId == resourceId
    ensures r.None? <==> forall c :: c in consumables ==> c.resourceId != resourceId
  {
    Find((c: Consumable) => c.resourceId == resourceId, consumables)
  }

  /** One per-item entry of a send-to-club or send-to-transfer-list reply. */
  datatype SendResult = SendResult(id: int, success: bool)

  predicate IsSuccess(r: SendResult) { r.success }

  /** How many entries of a bulk reply report success. */
  function CountSuccesses(reply: seq<SendResult>): (n: nat)
    ensures n <= |reply|
    ensures n == |reply| <==> forall r :: r in reply ==> r.success
  {
    var isFailure := (r: SendResult) => !r.success;
    FilterComplement(IsSuccess, isFailure, reply);
    var failures := Filter(isFailure, reply);
    assert failures == [] <==> forall r :: r in reply ==> r.success by {
      if failures != [] {
        assert failures[0] in reply && !failures[0].success;
      }
    }
    |Filter(IsSuccess, reply)|
  }
}
