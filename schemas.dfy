/** The closed enumerations of capintel/schemas.py that the core works over. */
module Schemas {

  /** A trading action: `Literal["BUY", "SHORT", "CLOSE", "WAIT"]`. */
  datatype Action = Buy | Short | Close | Wait

  /** The holding horizon: `Literal["intraday", "swing", "position"]`. */
  datatype Horizon = Intraday | Swing | Position

  /** The asset class: `Literal["crypto", "equity"]`. */
  datatype AssetClass = Crypto | Equity

  /** True for the two actions that open a position. */
  predicate IsTrade(a: Action) {
    a == Buy || a == Short
  }
}
