/** The swap life cycle shared by loop-in and loop-out swaps, and the durable
    event log both executors resume from (loopdb/swapstate.go, loopdb/loop.go). */
module SwapStates {

  datatype SwapState =
    | Initiated
    | PreimageRevealed
    | Success
    | FailOffchainPayments
    | FailTimeout
    | FailSweepTimeout
    | FailInsufficientValue
    | FailTemporary
    | HtlcPublished
    | InvoiceSettled
    | FailIncorrectHtlcAmt
    | FailAbandoned
    | FailInsufficientConfirmedBalance
    | FailIncorrectHtlcAmtSwept
  {
    predicate IsPending() {
      || Initiated? || HtlcPublished? || PreimageRevealed?
      || FailTemporary? || InvoiceSettled? || FailIncorrectHtlcAmt?
    }

    predicate IsFinal() {
      !IsPending()
    }
  }

  datatype SwapCost = SwapCost(server: int, onchain: int, offchain: int)

  const NO_COST := SwapCost(0, 0, 0)

  /** One persisted update of a swap. */
  datatype LoopEvent = LoopEvent(state: SwapState, cost: SwapCost, htlcTxKnown: bool)

  /** The most recent state of a swap: a swap without updates is Initiated. */
  function LastState(events: seq<LoopEvent>): SwapState {
    if |events| == 0 then Initiated else events[|events| - 1].state
  }
}
