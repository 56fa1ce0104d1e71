/**
 * The start-up defaults of the `start` command: the listening port and
 * the check that an origin was given.
 */
module Cli {
  import opened Wrappers

  /** What `start` does: exit with a code, or listen on a port for an origin. */
  datatype Launch = ExitWith(code: int) | Listen(port: int, origin: string)

  /** `argv.port || 3000`: an absent (or zero) port becomes 3000. */
  function ListenPort(port: Option<int>): (r: int)
    ensures r != 0
    ensures port.Some? && port.value != 0 ==> r == port.value
    ensures port.None? || port.value == 0 ==> r == 3000
  {
    if port.Some? && port.value != 0 then port.value else 3000
  }

  /** The origin is required: a missing or empty origin exits with code 1 before the store is loaded. */
  function Start(port: Option<int>, origin: Option<string>): (r: Launch)
    ensures r.ExitWith? <==> (origin == None || origin == Some(""))
    ensures r.ExitWith? ==> r.code == 1
    ensures r.Listen? ==> r.origin == origin.value && r.port == ListenPort(port)
  {
    if origin == None || origin == Some("") then ExitWith(1)
    else Listen(ListenPort(port), origin.value)
  }
}
