/**
 How a call to the API server, or to a server's own management interface, ends: it succeeds, it fails without effect,
 or it takes effect and still reports an error.
 */
module ApiCalls {

  datatype Outcome = Ok | Failed | Lost
}
