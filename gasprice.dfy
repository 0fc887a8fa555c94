/**
 The gas price snapshot published by the feed: one recommended price per
 transaction category, in Gwei. Prices are modelled as `real` numbers.
 */
module GasPrice {

  datatype CurrentGasPrice = CurrentGasPrice(fast: real, fastest: real, safeLow: real, average: real)

  /** The snapshot the process starts with, before any feed update has arrived. */
  const ZeroGasPrice: CurrentGasPrice := CurrentGasPrice(0.0, 0.0, 0.0, 0.0)

}
