/** The HTTP status codes the request handlers answer with. */
module Http {

  datatype StatusCode = OK | BadRequest | Unauthorized
}
