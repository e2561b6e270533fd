/** src/uart_rx_retry.c: when a failed restart of reception is worth a retry. */
module UartRxRetry {
  import opened Words

  /** uart_rx_enable_succeeded: -EBUSY means another path already enabled it. */
  predicate EnableSucceeded(err: int) {
    err == 0 || err == -EBUSY
  }

  /** uart_rx_should_schedule_retry. */
  predicate ShouldScheduleRetry(allocOk: bool, err: int) {
    !allocOk || !EnableSucceeded(err)
  }
}
