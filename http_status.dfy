/** HTTP status classes (section 15 of RFC 9110), as `reqwest::StatusCode`
    tests them. */
module HttpStatus {
  /** `StatusCode::is_success`: 2xx is Successful (section 15.3). */
  predicate IsSuccess(status: nat) {
    200 <= status <= 299
  }

  /** `StatusCode::is_client_error`: 4xx is Client Error (section 15.5). */
  predicate IsClientError(status: nat) {
    400 <= status <= 499
  }
}
