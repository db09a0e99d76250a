/** Context resolution in netreport.go: getCIDR (lines 23-38) and
    getWifiInterface (lines 41-51), over a runner given as the outcome of each
    command. */
module Resolve {
  import opened Text
  import opened Exec

  datatype Option<T> = None | Some(value: T)

  datatype Result<T> = Ok(value: T) | Err(msg: string)

  /** The three results of getCIDR; `err` is None where Go returns nil. */
  datatype Resolution = Resolution(cidr: string, iface: string, err: Option<string>)

  /** The network context the probes read; an empty field is unresolved. */
  datatype Context = Context(iface: string, cidr: string, wifiIf: string)

  /** Go's `fmt.Errorf("<what>: %v: %s", err, out)`. */
  function StepError(what: string, r: RunResult): (e: string)
    ensures HasPrefix(e, what + ": " + r.errText + ": ")
    ensures |e| == |what| + 2 + |r.errText| + 2 + |r.out|
    ensures e[|e| - |r.out|..] == r.out
  {
    what + ": " + r.errText + ": " + r.out
  }

  /** getCIDR: find the default interface, then its IPv4 address range. A
      failing first step or an empty interface gives nothing; a failing second
      step still gives the interface. */
  function GetCIDR(run: Command -> RunResult): (r: Resolution)
    ensures !run(RouteCommand).ok ==>
              r == Resolution("", "", Some(StepError("get default interface", run(RouteCommand))))
    ensures run(RouteCommand).ok && AllSpace(run(RouteCommand).out) ==>
              r == Resolution("", "", Some("default interface not found"))
    ensures run(RouteCommand).ok && !AllSpace(run(RouteCommand).out) ==>
              r.iface == TrimSpace(run(RouteCommand).out) &&
              var addr := run(AddrCommand(r.iface));
              (!addr.ok ==> r.cidr == "" && r.err == Some(StepError("get CIDR", addr))) &&
              (addr.ok ==> r.cidr == TrimSpace(addr.out) && r.err == None)
    ensures r.iface == "" ==> r.cidr == "" && r.err.Some?
    ensures r.err == None <==> r.iface != "" && run(AddrCommand(r.iface)).ok
    ensures r.iface == TrimSpace(r.iface) && r.cidr == TrimSpace(r.cidr)
  {
    var route := run(RouteCommand);
    if !route.ok then
      Resolution("", "", Some(StepError("get default interface", route)))
    else
      var iface := TrimSpace(route.out);
      if iface == "" then
        Resolution("", "", Some("default interface not found"))
      else
        var addr := run(AddrCommand(iface));
        TrimSpaceIdempotent(route.out);
        if !addr.ok then
          Resolution("", iface, Some(StepError("get CIDR", addr)))
        else
          TrimSpaceIdempotent(addr.out);
          Resolution(TrimSpace(addr.out), iface, None)
  }

  /** getWifiInterface: the first white-space-separated token of the listing.
      A token is non-empty, holds no white space and is preceded in the
      listing by white space only; a listing with no token is an error. */
  function GetWifiInterface(run: Command -> RunResult): (r: Result<string>)
    ensures !run(WifiListCommand).ok ==>
              r == Err(StepError("list wifi interfaces", run(WifiListCommand)))
    ensures run(WifiListCommand).ok && AllSpace(run(WifiListCommand).out) ==>
              r == Err("no wifi interface found")
    ensures r.Ok? <==> run(WifiListCommand).ok && !AllSpace(run(WifiListCommand).out)
    ensures r.Ok? ==> r.value != [] && NoSpace(r.value) &&
                      (exists lead, rest :: LeadingWord(run(WifiListCommand).out, lead, r.value, rest))
  {
    var listing := run(WifiListCommand);
    if !listing.ok then
      Err(StepError("list wifi interfaces", listing))
    else
      var fields := Fields(listing.out);
      if |fields| == 0 then
        Err("no wifi interface found")
      else
        FirstField(listing.out);
        Ok(fields[0])
  }

  /** The context main builds: the errors are only printed, so an
      unresolved field is left empty. */
  function ResolveContext(run: Command -> RunResult): (ctx: Context)
    ensures ctx.iface == GetCIDR(run).iface && ctx.cidr == GetCIDR(run).cidr
    ensures ctx.wifiIf == (match GetWifiInterface(run) case Ok(w) => w case Err(_) => "")
    ensures ctx.cidr != "" ==> ctx.iface != ""
    ensures NoSpace(ctx.wifiIf)
  {
    var res := GetCIDR(run);
    var wifiIf := match GetWifiInterface(run) case Ok(w) => w case Err(_) => "";
    Context(res.iface, res.cidr, wifiIf)
  }
}
