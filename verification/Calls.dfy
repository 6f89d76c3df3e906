/** Calls that leave the process, as the executors see them. */
module Calls {
  /** How a call goes: done and acknowledged, not done, or done but reported as failed. */
  datatype Reply = Ack | Refused | Lost
}
