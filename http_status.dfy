/** The HTTP status codes the backend answers with. */
module HttpStatus {

  const OK := 200
  const NOT_FOUND := 404
  const INTERNAL_ERROR := 500
  const UNAVAILABLE := 503
}
