/** `main` of netreport.go (lines 53-143): resolve the context, run the three
    probes into a shared three-field record, then print the report. The
    goroutines are run one after another, in an order given by the caller. */
module NetReport {
  import opened Text
  import opened Exec
  import opened Resolve
  import opened Probes

  /** The `results` struct of lines 67-71: one field per probe, each written
      by its own probe only. */
  class Results {
    var nmap: string
    var freq: string
    var speed: string

    constructor ()
      ensures nmap == "" && freq == "" && speed == ""
    {
      nmap, freq, speed := "", "", "";
    }

    method SetNmap(v: string)
      modifies this`nmap
      ensures nmap == v && freq == old(freq) && speed == old(speed)
    {
      nmap := v;
    }

    method SetFreq(v: string)
      modifies this`freq
      ensures freq == v && nmap == old(nmap) && speed == old(speed)
    {
      freq := v;
    }

    method SetSpeed(v: string)
      modifies this`speed
      ensures speed == v && nmap == old(nmap) && freq == old(freq)
    {
      speed := v;
    }
  }

  /** The three goroutines of main. */
  datatype Probe = Nmap | Wifi | Speed

  /** The processes a probe starts: none when its prerequisite is missing. */
  function ProbeCalls(ctx: Context, p: Probe): (calls: seq<Command>)
    ensures |calls| <= 1
    ensures p == Nmap ==> (calls == [] <==> ctx.cidr == "")
    ensures p == Nmap && ctx.cidr != "" ==> calls == [NmapCommand(ctx.cidr)]
    ensures p == Wifi ==> (calls == [] <==> ctx.wifiIf == "")
    ensures p == Wifi && ctx.wifiIf != "" ==> calls == [IwLinkCommand(ctx.wifiIf)]
    ensures p == Speed ==> calls == [SpeedtestCommand]
  {
    match p
    case Nmap => if ctx.cidr == "" then [] else [NmapCommand(ctx.cidr)]
    case Wifi => if ctx.wifiIf == "" then [] else [IwLinkCommand(ctx.wifiIf)]
    case Speed => [SpeedtestCommand]
  }

  /** The processes started by running the probes in the order `schedule`. */
  function ScheduleCalls(ctx: Context, schedule: seq<Probe>): seq<Command>
  {
    if schedule == [] then []
    else ProbeCalls(ctx, schedule[0]) + ScheduleCalls(ctx, schedule[1..])
  }

  lemma {:induction false} ScheduleCallsAppend(ctx: Context, s: seq<Probe>, t: seq<Probe>)
    ensures ScheduleCalls(ctx, s + t) == ScheduleCalls(ctx, s) + ScheduleCalls(ctx, t)
  {
    if s == [] {
      assert s + t == t;
    } else {
      assert (s + t)[0] == s[0];
      assert (s + t)[1..] == s[1..] + t;
      ScheduleCallsAppend(ctx, s[1..], t);
      assert ScheduleCalls(ctx, s + t) == ProbeCalls(ctx, s[0]) + ScheduleCalls(ctx, s[1..] + t);
    }
  }

  /** Whatever the order the probes run in, the same processes are started. */
  lemma {:induction false} ScheduleCallsPermutation(ctx: Context, s: seq<Probe>, t: seq<Probe>)
    requires multiset(s) == multiset(t)
    ensures multiset(ScheduleCalls(ctx, s)) == multiset(ScheduleCalls(ctx, t))
    decreases |s|
  {
    if s != [] {
      assert s[0] in multiset(t);
      var k :| 0 <= k < |t| && t[k] == s[0];
      var t' := t[..k] + t[k + 1..];
      RemoveAt(t, k);
      assert s == [s[0]] + s[1..];
      assert multiset(s) == multiset([s[0]]) + multiset(s[1..]);
      assert multiset([s[0]]) == multiset{s[0]};
      assert multiset(s[1..]) == multiset(s) - multiset{s[0]};
      assert multiset(t') == multiset(t) - multiset{t[k]};
      ScheduleCallsPermutation(ctx, s[1..], t');
      ScheduleCallsRemoveAt(ctx, t, k);
    }
  }

  lemma RemoveAt(t: seq<Probe>, k: nat)
    requires k < |t|
    ensures multiset(t) == multiset{t[k]} + multiset(t[..k] + t[k + 1..])
  {
    assert t == t[..k] + [t[k]] + t[k + 1..];
  }

  lemma ScheduleCallsRemoveAt(ctx: Context, t: seq<Probe>, k: nat)
    requires k < |t|
    ensures multiset(ScheduleCalls(ctx, t))
            == multiset(ProbeCalls(ctx, t[k])) + multiset(ScheduleCalls(ctx, t[..k] + t[k + 1..]))
  {
    assert t == t[..k] + ([t[k]] + t[k + 1..]);
    ScheduleCallsAppend(ctx, t[..k], [t[k]] + t[k + 1..]);
    ScheduleCallsAppend(ctx, [t[k]], t[k + 1..]);
    ScheduleCallsAppend(ctx, t[..k], t[k + 1..]);
    assert ScheduleCalls(ctx, [t[k]]) == ProbeCalls(ctx, t[k]);
  }

  /** The first goroutine (lines 75-87). */
  method RunNmapProbe(cidr: string, runner: Runner, res: Results)
    modifies runner`log, res`nmap
    ensures res.nmap == NmapText(cidr, runner.outcome(NmapCommand(cidr)))
    ensures runner.log == old(runner.log) + (if cidr == "" then [] else [NmapCommand(cidr)])
    ensures cidr == "" ==> res.nmap == "CIDR not found" && runner.log == old(runner.log)
  {
    if cidr == "" {
      res.SetNmap("CIDR not found");
      return;
    }
    var r := runner.Run(NmapCommand(cidr));
    if !r.ok {
      res.SetNmap(ErrorText("nmap", r));
    } else {
      res.SetNmap(r.out);
    }
  }

  /** The second goroutine (lines 91-115). */
  method RunWifiProbe(wifiIf: string, runner: Runner, res: Results)
    modifies runner`log, res`freq
    ensures res.freq == FreqText(wifiIf, runner.outcome(IwLinkCommand(wifiIf)))
    ensures runner.log == old(runner.log) + (if wifiIf == "" then [] else [IwLinkCommand(wifiIf)])
    ensures wifiIf == "" ==> res.freq == "wifi interface not found" && runner.log == old(runner.log)
  {
    if wifiIf == "" {
      res.SetFreq("wifi interface not found");
      return;
    }
    var r := runner.Run(IwLinkCommand(wifiIf));
    if !r.ok {
      res.SetFreq(ErrorText("iw", r));
      return;
    }
    var freq := ParseFreq(r.out);
    if freq == "" {
      res.SetFreq(r.out);
    } else {
      res.SetFreq(freq);
    }
  }

  /** The third goroutine (lines 119-127). */
  method RunSpeedProbe(runner: Runner, res: Results)
    modifies runner`log, res`speed
    ensures res.speed == SpeedText(runner.outcome(SpeedtestCommand))
    ensures runner.log == old(runner.log) + [SpeedtestCommand]
  {
    var r := runner.Run(SpeedtestCommand);
    if !r.ok {
      res.SetSpeed(ErrorText("speedtest", r));
    } else {
      res.SetSpeed(r.out);
    }
  }

  /** The fixed texts of the report: its title, the two context labels,
      and the headings of the three probe sections. */
  datatype Labels = Labels(title: string, iface: string, cidr: string,
                           nmap: string, wifi: string, freq: string, speed: string)

  /** The texts lines 131-141 print. */
  const ReportLabels := Labels("Relatório de Rede - ", "Interface padrão: ", "CIDR: ",
                               "Dispositivos conectados (nmap -sn):", "Interface WiFi: ",
                               "Frequência de conexão:", "Speedtest (São Paulo):")

  /** Every label fits on one line. */
  predicate SingleLineLabels(l: Labels)
  {
    SingleLine(l.title) && SingleLine(l.iface) && SingleLine(l.cidr) && SingleLine(l.nmap)
    && SingleLine(l.wifi) && SingleLine(l.freq) && SingleLine(l.speed)
  }

  lemma ReportLabelsSingleLine()
    ensures SingleLineLabels(ReportLabels)
  {
  }

  /** The report of lines 131-142 as the lines the Printf and Println calls
      print, each followed by a newline, section by section in a fixed
      order; the probe texts may themselves span several lines. */
  function ReportLines(l: Labels, timestamp: string, ctx: Context, nmap: string, freq: string, speed: string): seq<string>
  {
    ContextSection(l, timestamp, ctx) + NmapSection(l, nmap) + WifiSection(l, ctx.wifiIf, freq) + SpeedSection(l, speed)
  }

  /** Lines 131-133: an empty context field still gets its line. */
  function ContextSection(l: Labels, timestamp: string, ctx: Context): seq<string>
  {
    [l.title + timestamp, "", l.iface + ctx.iface, l.cidr + ctx.cidr, ""]
  }

  /** Lines 135-136. */
  function NmapSection(l: Labels, nmap: string): seq<string>
  {
    [l.nmap, nmap]
  }

  /** Lines 138-139. */
  function WifiSection(l: Labels, wifiIf: string, freq: string): seq<string>
  {
    [l.wifi + wifiIf, l.freq, freq, ""]
  }

  /** Lines 141-142. */
  function SpeedSection(l: Labels, speed: string): seq<string>
  {
    [l.speed, speed]
  }

  /** Each line followed by a newline: the lines joined by newlines, plus
      a final newline. */
  function Terminated(lines: seq<string>): (text: string)
    ensures lines != [] ==> text == JoinLines(lines) + "\n"
    ensures lines == [] ==> text == []
  {
    if lines == [] then [] else lines[0] + "\n" + Terminated(lines[1..])
  }

  /** The text main prints: its lines (MainReportLayout) joined by
      newlines, ending in a newline. */
  function Report(timestamp: string, ctx: Context, nmap: string, freq: string, speed: string): (text: string)
    ensures text == JoinLines(ReportLines(ReportLabels, timestamp, ctx, nmap, freq, speed)) + "\n"
  {
    Terminated(ReportLines(ReportLabels, timestamp, ctx, nmap, freq, speed))
  }

  /** The lines of each piece in turn. */
  function SplitEach(pieces: seq<string>): seq<string>
  {
    if pieces == [] then [] else Split(pieces[0]) + SplitEach(pieces[1..])
  }

  /** Reading the printed text back line by line gives the lines of every
      printed piece, in order, and a final empty piece after the last
      newline. */
  lemma {:induction false} TerminatedSplit(lines: seq<string>)
    ensures Split(Terminated(lines)) == SplitEach(lines) + [""]
  {
    if lines != [] {
      TerminatedSplit(lines[1..]);
      SplitAppend(lines[0], Terminated(lines[1..]));
    }
  }

  lemma {:induction false} SplitEachAppend(a: seq<string>, b: seq<string>)
    ensures SplitEach(a + b) == SplitEach(a) + SplitEach(b)
  {
    if a == [] {
      assert a + b == b;
    } else {
      assert (a + b)[0] == a[0];
      assert (a + b)[1..] == a[1..] + b;
      SplitEachAppend(a[1..], b);
      assert SplitEach(a + b) == Split(a[0]) + SplitEach(a[1..] + b);
    }
  }

  lemma SplitEachCons(piece: string, rest: seq<string>)
    ensures SplitEach([piece] + rest) == Split(piece) + SplitEach(rest)
  {
    assert ([piece] + rest)[1..] == rest;
  }

  lemma ContextSectionLines(l: Labels, timestamp: string, ctx: Context)
    ensures SplitEach(ContextSection(l, timestamp, ctx))
            == Split(l.title + timestamp) + [""] + Split(l.iface + ctx.iface) + Split(l.cidr + ctx.cidr) + [""]
  {
    SplitEachFive(l.title + timestamp, "", l.iface + ctx.iface, l.cidr + ctx.cidr, "");
  }

  lemma SplitEachFive(a: string, b: string, c: string, d: string, e: string)
    ensures SplitEach([a, b, c, d, e]) == Split(a) + Split(b) + Split(c) + Split(d) + Split(e)
  {
    assert [a, b, c, d, e] == [a] + ([b] + ([c] + ([d] + ([e] + []))));
    SplitEachCons(a, [b] + ([c] + ([d] + ([e] + []))));
    SplitEachCons(b, [c] + ([d] + ([e] + [])));
    SplitEachCons(c, [d] + ([e] + []));
    SplitEachCons(d, [e] + []);
    SplitEachCons(e, []);
    AppendFive(Split(a), Split(b), Split(c), Split(d), Split(e));
  }

  lemma AppendFive(a: seq<string>, b: seq<string>, c: seq<string>, d: seq<string>, e: seq<string>)
    ensures a + (b + (c + (d + (e + [])))) == a + b + c + d + e
  {
    assert e + [] == e;
  }

  lemma HeadedSectionLines(heading: string, text: string)
    requires SingleLine(heading)
    ensures SplitEach([heading, text]) == [heading] + Split(text)
  {
    assert [heading, text] == [heading] + ([text] + []);
    SplitEachCons(heading, [text] + []);
    SplitEachCons(text, []);
    SplitNoNewline(heading);
  }

  lemma WifiSectionLines(l: Labels, wifiIf: string, freq: string)
    requires SingleLine(l.freq)
    ensures SplitEach(WifiSection(l, wifiIf, freq)) == Split(l.wifi + wifiIf) + [l.freq] + Split(freq) + [""]
  {
    var a := l.wifi + wifiIf;
    SplitNoNewline(l.freq);
    assert WifiSection(l, wifiIf, freq) == [a] + ([l.freq] + ([freq] + ([""] + [])));
    SplitEachCons(a, [l.freq] + ([freq] + ([""] + [])));
    SplitEachCons(l.freq, [freq] + ([""] + []));
    SplitEachCons(freq, [""] + []);
    SplitEachCons("", []);
  }

  /** The printed lines read back line by line: the lines of the title, an
      empty line, the lines of the interface and of the CIDR (present even
      when the field is empty), an empty line, then each probe's section
      with the probe's own lines, in this fixed order. A context value that
      spans several lines (two default routes, two addresses) contributes
      all of its lines. */
  lemma ReportLayout(l: Labels, timestamp: string, ctx: Context, nmap: string, freq: string, speed: string)
    requires SingleLineLabels(l)
    ensures Split(Terminated(ReportLines(l, timestamp, ctx, nmap, freq, speed)))
            == Split(l.title + timestamp) + [""] + Split(l.iface + ctx.iface) + Split(l.cidr + ctx.cidr)
               + ["", l.nmap]
               + Split(nmap)
               + Split(l.wifi + ctx.wifiIf) + [l.freq]
               + Split(freq)
               + ["", l.speed]
               + Split(speed)
               + [""]
  {
    ReportSections(l, timestamp, ctx, nmap, freq, speed);
    Regroup(Split(l.title + timestamp), Split(l.iface + ctx.iface), Split(l.cidr + ctx.cidr),
            l.nmap, Split(nmap), Split(l.wifi + ctx.wifiIf), l.freq, Split(freq), l.speed, Split(speed));
  }

  /** The report main prints, read back line by line. When the timestamp
      and the context values hold no newline, each of their lines is the
      one line `[label + value]` (Text.SplitNoNewline). */
  lemma MainReportLayout(timestamp: string, ctx: Context, nmap: string, freq: string, speed: string)
    ensures Split(Report(timestamp, ctx, nmap, freq, speed))
            == Split("Relatório de Rede - " + timestamp) + [""]
               + Split("Interface padrão: " + ctx.iface) + Split("CIDR: " + ctx.cidr)
               + ["", "Dispositivos conectados (nmap -sn):"]
               + Split(nmap)
               + Split("Interface WiFi: " + ctx.wifiIf) + ["Frequência de conexão:"]
               + Split(freq)
               + ["", "Speedtest (São Paulo):"]
               + Split(speed)
               + [""]
  {
    ReportLabelsSingleLine();
    ReportLayout(ReportLabels, timestamp, ctx, nmap, freq, speed);
  }

  lemma ReportSections(l: Labels, timestamp: string, ctx: Context, nmap: string, freq: string, speed: string)
    requires SingleLineLabels(l)
    ensures Split(Terminated(ReportLines(l, timestamp, ctx, nmap, freq, speed)))
            == (Split(l.title + timestamp) + [""] + Split(l.iface + ctx.iface) + Split(l.cidr + ctx.cidr) + [""])
               + ([l.nmap] + Split(nmap))
               + (Split(l.wifi + ctx.wifiIf) + [l.freq] + Split(freq) + [""])
               + ([l.speed] + Split(speed)) + [""]
  {
    var c := ContextSection(l, timestamp, ctx);
    var n := NmapSection(l, nmap);
    var w := WifiSection(l, ctx.wifiIf, freq);
    var p := SpeedSection(l, speed);
    TerminatedSplit(c + n + w + p);
    SplitEachAppend(c + n + w, p);
    SplitEachAppend(c + n, w);
    SplitEachAppend(c, n);
    ContextSectionLines(l, timestamp, ctx);
    HeadedSectionLines(l.nmap, nmap);
    WifiSectionLines(l, ctx.wifiIf, freq);
    HeadedSectionLines(l.speed, speed);
  }

  lemma Regroup(t: seq<string>, i: seq<string>, c: seq<string>, n: string, ns: seq<string>,
                w: seq<string>, f: string, fs: seq<string>, p: string, ps: seq<string>)
    ensures (t + [""] + i + c + [""]) + ([n] + ns) + (w + [f] + fs + [""]) + ([p] + ps) + [""]
            == t + [""] + i + c + ["", n] + ns + w + [f] + fs + ["", p] + ps + [""]
  {
    assert [""] + [n] == ["", n];
    assert [""] + [p] == ["", p];
  }

  /** The three writes of lines 78-125 applied to the record in the order
      `schedule`: the record ends the same whatever the order, because each
      write touches its own field only. */
  method StoreInOrder(res: Results, schedule: seq<Probe>, nmap: string, freq: string, speed: string)
    requires multiset(schedule) == multiset{Nmap, Wifi, Speed}
    modifies res
    ensures res.nmap == nmap && res.freq == freq && res.speed == speed
  {
    var i := 0;
    while i < |schedule|
      invariant 0 <= i <= |schedule|
      invariant Nmap in schedule[..i] ==> res.nmap == nmap
      invariant Wifi in schedule[..i] ==> res.freq == freq
      invariant Speed in schedule[..i] ==> res.speed == speed
    {
      ScheduledPrefix(schedule, i);
      match schedule[i] {
        case Nmap => res.SetNmap(nmap);
        case Wifi => res.SetFreq(freq);
        case Speed => res.SetSpeed(speed);
      }
      i := i + 1;
    }
    AllScheduled(schedule);
  }

  /** One more probe run: its processes follow those already started. */
  lemma ScheduleStep(ctx: Context, schedule: seq<Probe>, i: nat)
    requires i < |schedule|
    ensures ScheduleCalls(ctx, schedule[..i + 1]) == ScheduleCalls(ctx, schedule[..i]) + ProbeCalls(ctx, schedule[i])
  {
    assert schedule[..i + 1] == schedule[..i] + [schedule[i]];
    ScheduleCallsAppend(ctx, schedule[..i], [schedule[i]]);
    assert ScheduleCalls(ctx, [schedule[i]]) == ProbeCalls(ctx, schedule[i]);
  }

  /** The probes run after one more step. */
  lemma ScheduledPrefix(schedule: seq<Probe>, i: nat)
    requires i < |schedule|
    ensures forall p :: p in schedule[..i + 1] <==> p in schedule[..i] || p == schedule[i]
  {
    assert schedule[..i + 1] == schedule[..i] + [schedule[i]];
  }

  lemma AllScheduled(schedule: seq<Probe>)
    requires multiset(schedule) == multiset{Nmap, Wifi, Speed}
    ensures schedule[..|schedule|] == schedule
    ensures Nmap in schedule && Wifi in schedule && Speed in schedule
  {
    assert schedule[..|schedule|] == schedule;
    assert Nmap in multiset(schedule) && Wifi in multiset(schedule) && Speed in multiset(schedule);
  }

  /** One goroutine of main: the probe `p` writes its own field only. */
  method RunProbe(p: Probe, ctx: Context, runner: Runner, res: Results)
    modifies runner`log, res`nmap, res`freq, res`speed
    ensures runner.log == old(runner.log) + ProbeCalls(ctx, p)
    ensures p == Nmap ==> res.nmap == NmapText(ctx.cidr, runner.outcome(NmapCommand(ctx.cidr)))
    ensures p == Wifi ==> res.freq == FreqText(ctx.wifiIf, runner.outcome(IwLinkCommand(ctx.wifiIf)))
    ensures p == Speed ==> res.speed == SpeedText(runner.outcome(SpeedtestCommand))
    ensures p != Nmap ==> res.nmap == old(res.nmap)
    ensures p != Wifi ==> res.freq == old(res.freq)
    ensures p != Speed ==> res.speed == old(res.speed)
  {
    match p
    case Nmap => RunNmapProbe(ctx.cidr, runner, res);
    case Wifi => RunWifiProbe(ctx.wifiIf, runner, res);
    case Speed => RunSpeedProbe(runner, res);
  }

  /** The goroutines of lines 74-127, run one after another in the order
      `schedule` (each exactly once), each into its own field of `res`. */
  method RunAll(ctx: Context, runner: Runner, res: Results, schedule: seq<Probe>)
    requires multiset(schedule) == multiset{Nmap, Wifi, Speed}
    modifies runner`log, res`nmap, res`freq, res`speed
    ensures res.nmap == NmapText(ctx.cidr, runner.outcome(NmapCommand(ctx.cidr)))
    ensures res.freq == FreqText(ctx.wifiIf, runner.outcome(IwLinkCommand(ctx.wifiIf)))
    ensures res.speed == SpeedText(runner.outcome(SpeedtestCommand))
    ensures runner.log == old(runner.log) + ScheduleCalls(ctx, schedule)
  {
    var i := 0;
    while i < |schedule|
      invariant 0 <= i <= |schedule|
      invariant runner.log == old(runner.log) + ScheduleCalls(ctx, schedule[..i])
      invariant Nmap in schedule[..i] ==>
                  res.nmap == NmapText(ctx.cidr, runner.outcome(NmapCommand(ctx.cidr)))
      invariant Wifi in schedule[..i] ==>
                  res.freq == FreqText(ctx.wifiIf, runner.outcome(IwLinkCommand(ctx.wifiIf)))
      invariant Speed in schedule[..i] ==>
                  res.speed == SpeedText(runner.outcome(SpeedtestCommand))
    {
      ScheduleStep(ctx, schedule, i);
      ScheduledPrefix(schedule, i);
      RunProbe(schedule[i], ctx, runner, res);
      i := i + 1;
    }
    AllScheduled(schedule);
  }

  /** main: resolve the context, run the three probes in the order
      `schedule`, and render the report. The report does not depend on the
      order; a probe whose prerequisite is missing starts no process. */
  method Generate(runner: Runner, timestamp: string, schedule: seq<Probe>) returns (report: string)
    requires multiset(schedule) == multiset{Nmap, Wifi, Speed}
    modifies runner`log
    ensures var ctx := ResolveContext(runner.outcome);
            report == Report(timestamp, ctx,
                             NmapText(ctx.cidr, runner.outcome(NmapCommand(ctx.cidr))),
                             FreqText(ctx.wifiIf, runner.outcome(IwLinkCommand(ctx.wifiIf))),
                             SpeedText(runner.outcome(SpeedtestCommand)))
    ensures runner.log == old(runner.log) + ScheduleCalls(ResolveContext(runner.outcome), schedule)
  {
    var ctx := ResolveContext(runner.outcome);
    var res := new Results();
    RunAll(ctx, runner, res, schedule);
    report := Report(timestamp, ctx, res.nmap, res.freq, res.speed);
  }
}
