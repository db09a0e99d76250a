/** The process runner of netreport.go (`run`, lines 13-20) as an external
    collaborator: a command goes in, the combined output, a success flag and
    the rendered error come out. */
module Exec {

  /** A program name and its argument list, as passed to exec.Command. */
  datatype Command = Command(name: string, args: seq<string>)

  /** The outcome of one `run`: the combined standard output and error, whether
      the process exited successfully, and the text Go's `%v` gives its error
      (meaningless when `ok`). */
  datatype RunResult = RunResult(out: string, ok: bool, errText: string)

  /** The commands netreport.go issues. */
  const RouteCommand: Command :=
    Command("sh", ["-c", "ip route | awk '/default/ {print $5}'"])

  function AddrCommand(iface: string): Command
  {
    Command("sh", ["-c", "ip -o -f inet addr show dev " + iface + " | awk '{print $4}'"])
  }

  const WifiListCommand: Command :=
    Command("sh", ["-c", "iw dev | awk '$1==\"Interface\"{print $2}'"])

  function NmapCommand(cidr: string): Command
  {
    Command("nmap", ["-sn", cidr])
  }

  function IwLinkCommand(wifiIf: string): Command
  {
    Command("iw", ["dev", wifiIf, "link"])
  }

  const SpeedtestCommand: Command :=
    Command("speedtest", ["--server-id", "3696", "--simple"])

  /** A stand-in for the operating system: every command has a fixed outcome,
      and every process started is recorded, in order, in `log`. */
  class Runner {
    const outcome: Command -> RunResult
    var log: seq<Command>

    constructor (outcome: Command -> RunResult)
      ensures this.outcome == outcome && log == []
    {
      this.outcome := outcome;
      log := [];
    }

    /** Starts `cmd` and waits for it. */
    method Run(cmd: Command) returns (r: RunResult)
      modifies this`log
      ensures r == outcome(cmd)
      ensures log == old(log) + [cmd]
    {
      r := outcome(cmd);
      log := log + [cmd];
    }
  }
}
