/**
 * The remote-driver arguments: the URL and the port of a remote browser
 * driver must be given together or not at all; when both are given and
 * non-empty, the driver endpoint is "http://<url>:<port>", otherwise a local
 * driver is used.
 */
module Cli {
  import opened Wrappers

  datatype ArgError = UrlAndPortNotTogether

  /**
   * `Success(Some(endpoint))` selects a remote driver, `Success(None)` a local
   * one; `Failure` is the argument error that ends the program.
   */
  function DriverEndpoint(url: Option<string>, port: Option<string>): (r: Result<Option<string>, ArgError>)
    ensures r.Failure? <==> url.None? != port.None?
    ensures r.Success? && r.value.Some? <==>
      url.Some? && port.Some? && url.value != [] && port.value != []
    ensures r.Success? && r.value.Some? ==>
      r.value.value == "http://" + url.value + ":" + port.value
  {
    if url.None? != port.None? then Failure(UrlAndPortNotTogether)
    else if url.Some? && url.value != [] && port.Some? && port.value != [] then
      Success(Some("http://" + url.value + ":" + port.value))
    else Success(None)
  }

  /**
   * Both arguments given but one of them empty passes the pairing check and
   * still falls back to a local driver.
   */
  lemma EmptyArgumentFallsBackToLocal(port: string)
    ensures DriverEndpoint(Some([]), Some(port)) == Success(None)
  {
  }
}
