/** The records the service returns and the API routes answer with (app/schemas.py). */
module Schemas {
  import opened Wrappers

  /** A timezone-aware datetime, abstracted as a count of time units. */
  type Timestamp = int

  /** One normalised transfer; `amount` and `usd_value` are Python floats, here reals. */
  datatype WhaleTransfer = WhaleTransfer(
    txHash: string,
    fromAddress: string,
    toAddress: string,
    tokenSymbol: string,
    tokenAddress: Option<string>,
    amount: real,
    usdValue: Option<real>,
    chain: string,
    blockNumber: Option<int>,
    timestamp: Option<Timestamp>,
    observedAt: Option<Timestamp>)

  /** Response of the `/alerts/latest` route. */
  datatype WhaleTransferList = WhaleTransferList(transfers: seq<WhaleTransfer>, count: int, summary: Option<string>)

  /** Response of the `/alerts/summary` route. */
  datatype AlertsSummary = AlertsSummary(summary: string, transferCount: int)

  /** Response of the `/alerts/chat` route. */
  datatype ChatResponse = ChatResponse(answer: string, transferCount: int)
}
