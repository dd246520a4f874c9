/**
 * Metric emissions. Both the trader and the account wrapper report to an
 * append-only sink; the model records each emission as a value.
 */
module Metrics {
  import opened Utils

  /** The metric names the trader and the account wrapper emit. */
  datatype Name =
    | TradeRequest | Credits | ListingSize | TransferListSize | HealthyAccount | ClubValue
    | ContractsListing | ListingItems | ActiveContractsAverage | ExpiredContractsAverage
    | SoldContractsAverage | ContractsSold | Relist | ContractsRelisted | ContractsInClub
    | ListContracts | ContractsPurchased | ContractsOutbid | ContractsSearchB150
    | ContractsBidB150 | Bid

  /** The dimension keys. */
  datatype Dimension = AccountName | ContractTypeDim | TradeStateDim | BidPriceDim | BidStatusDim | BidPurposeDim

  datatype DimValue = Text(text: string) | Number(number: int) | Kind(kind: ContractType)

  type Dimensions = map<Dimension, DimValue>

  /**
   * The metric values: a count, a last value, an average of one sample, an
   * average of one sample with a weight, and the average of a ratio, kept as
   * its numerator and denominator (the division is never performed here).
   */
  datatype Value =
    | Count(n: int)
    | Last(v: int)
    | Average(v: int)
    | WeightedAverage(v: int, weight: int)
    | RatioAverage(numerator: int, denominator: int, weight: int)

  datatype Metric = Metric(dimensions: Dimensions, name: Name, value: Value)

  /**
   * `_.extend({account name}, dimensions)`: the account-name dimension is
   * added, and the caller's own dimensions win on a clash.
   */
  function WithAccount(account: string, dimensions: Dimensions): Dimensions {
    map[AccountName := Text(account)] + dimensions
  }

  /** The account name is added unless the caller set it; every dimension of the caller is kept. */
  lemma WithAccountKeeps(account: string, dimensions: Dimensions)
    ensures WithAccount(account, dimensions).Keys == dimensions.Keys + {AccountName}
    ensures forall k :: k in dimensions ==> WithAccount(account, dimensions)[k] == dimensions[k]
    ensures AccountName !in dimensions ==> WithAccount(account, dimensions)[AccountName] == Text(account)
  {
  }

  /** One emission on behalf of an account. */
  function Emission(account: string, dimensions: Dimensions, name: Name, value: Value): Metric {
    Metric(WithAccount(account, dimensions), name, value)
  }

  /** The metric carries dimension `k` with value `v`. */
  predicate HasDim(m: Metric, k: Dimension, v: DimValue) {
    k in m.dimensions && m.dimensions[k] == v
  }

  /** The contract-type dimension alone. */
  function KindOnly(t: ContractType): Dimensions {
    map[ContractTypeDim := Kind(t)]
  }
}
