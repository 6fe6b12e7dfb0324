// Reason texts the proxy reports to its clients when the session registry
// refuses a request (src/roq/proxy/fix/error.cpp).

module Error {
  const NOT_READY: string := "NOT_READY"
  const SUCCESS: string := "SUCCESS"
  const NOT_LOGGED_ON: string := "NOT_LOGGED_ON"
  const ALREADY_LOGGED_ON: string := "ALREADY_LOGGED_ON"
  const INVALID_PASSWORD: string := "INVALID_PASSWORD"
}
