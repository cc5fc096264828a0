/** Wire-level constants of the iperf3 control protocol, and the stream-id rule
    that both peers apply independently. */
module Wire {
  const TEST_START := 1
  const TEST_RUNNING := 2
  const TEST_END := 4
  const PARAM_EXCHANGE := 9
  const CREATE_STREAMS := 10
  const EXCHANGE_RESULTS := 13
  const DISPLAY_RESULTS := 14
  const IPERF_START := 15
  const IPERF_DONE := 16
  const SERVER_ERROR := -2

  const COOKIE_SIZE := 37
  const MAX_PARALLEL := 128
  const MAX_LEN := 1048576

  datatype Option<+T> = None | Some(value: T)

  /** iperf3 numbers streams 1, 3, 4, 5, ...: the second stream skips 2. */
  function NextStreamId(existing: nat): nat {
    if existing == 0 then 1 else existing + 2
  }
}
