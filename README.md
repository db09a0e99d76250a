# netreport in Dafny

netreport is a small Go program that prints a network report. It finds the
default interface and its IPv4 address range (`getCIDR`). It finds the first
wireless interface (`getWifiInterface`). Then it runs three probes side by
side: a host scan with `nmap -sn`, the link frequency from `iw dev <if> link`,
and a bandwidth test with `speedtest`. Each probe writes its own field of a
three-field result record. Finally the program prints the report in a fixed
order.

This project models that logic in five modules:

- `Text` (text.dfy): the parts of Go's `strings` package the program uses.
  These are `TrimSpace`, `HasPrefix`, `Split` on a newline and `Fields`.
  White space is the ASCII set only.
- `Exec` (exec.dfy): the commands the program starts and their outcome
  `RunResult(out, ok, errText)`. A `Runner` class gives every command a fixed
  outcome and records, in order, every process it starts.
- `Resolve` (resolve.dfy): `getCIDR` and `getWifiInterface` as functions of
  the outcome of each command, and the context `main` builds from them.
- `Probes` (probes.dfy): the text each probe stores. It includes the
  frequency-line search loop (`ParseFreq`), proved against the function
  `FirstFreqLine`.
- `NetReport` (netreport.dfy): the result record as a class with one writer
  per field, the three probes as methods over the runner and the record,
  the report layout, and `main` as `Generate`.

The goroutines run one after another, in an order `schedule` chosen by the
caller. `Generate` promises the same report for every such order. The
processes it starts are the same for every order up to reordering
(`ScheduleCallsPermutation`).

## Model

| member | source | states |
|---|---|---|
| Text.TrimSpace | netreport.go:28 | the result neither starts nor ends with white space, is no longer than the input, and is empty exactly when the input is all white space |
| Text.TrimSpaceSlice | netreport.go:36 | the input is the result with only white space before and after it |
| Text.TrimSpaceIdempotent | netreport.go:28-36 | trimming an already trimmed text changes nothing, so the interface and range getCIDR returns are in trimmed form |
| Text.Split | netreport.go:104 | splitting on newlines yields at least one piece, and no piece holds a newline |
| Text.SplitAppend | netreport.go:104 | splitting `a + "\n" + b` gives the pieces of `a` followed by the pieces of `b` |
| Text.SplitNoNewline | netreport.go:104 | a text without newlines is one piece |
| Text.JoinSplit | netreport.go:104 | joining the pieces with newlines gives back the text |
| Text.SplitJoin | netreport.go:104 | splitting newline-free pieces after joining them gives back the pieces |
| Text.Fields | netreport.go:46 | every field is non-empty and holds no white space, and there are no fields exactly when the text is all white space |
| Text.FirstField | netreport.go:46-50 | the first field is preceded by white space only and is followed by white space or the end of the text |
| Exec.Runner.constructor | netreport.go:13-20 | a new runner has the given outcomes and has started no process |
| Exec.Runner.Run | netreport.go:13-20 | running a command returns its outcome and appends it to the log of started processes |
| Resolve.StepError | netreport.go:26 | the error of a failed resolution step is "<step>: <err>: " followed by the whole captured output; the same text is built at lines 34 and 44 |
| Resolve.GetCIDR | netreport.go:23-38 | a failed route query gives two empty strings and the "get default interface" error; an all-space interface gives two empty strings and "default interface not found"; a failed address query still gives the trimmed interface with an empty range and the "get CIDR" error; success gives the trimmed interface and trimmed range with no error; no error exactly when the interface is found and the address query succeeds; both results are already trimmed |
| Resolve.GetWifiInterface | netreport.go:41-51 | a failed listing gives the "list wifi interfaces" error; a listing with no token gives "no wifi interface found"; otherwise the result is the first token of the listing, non-empty and free of white space |
| Resolve.ResolveContext | netreport.go:56-64 | the context keeps what the two resolvers return and an empty wireless interface on error; a range is only found with an interface; the wireless interface holds no white space |
| Probes.ErrorText | netreport.go:83 | the text of a failed probe run starts with "<tool> error: <err>" and a newline and ends with the whole captured output; the same text is built at lines 99 and 123 (its lines: Probes.ErrorTextLines) |
| Probes.NmapText | netreport.go:77-86 | an empty range gives "CIDR not found"; otherwise a failed scan gives the "nmap" error text and a successful one its output |
| Probes.FreqText | netreport.go:93-114 | an empty wireless interface gives "wifi interface not found"; a failed link query gives the "iw" error text; a successful one gives a text starting with "freq:" when some line is a frequency line (the first one, trimmed: Probes.FreqTextFirstMatch) and the whole output otherwise (Probes.FreqTextFallback) |
| Probes.SpeedText | netreport.go:121-126 | a failed test gives the "speedtest" error text and a successful one its output |
| Probes.FirstFreqLine | netreport.go:103-114 | the result is non-empty exactly when some line's trimmed form starts with "freq:", and a non-empty result starts with "freq:" |
| Probes.FirstFreqLineIsFirstMatch | netreport.go:104-107 | the result is the trimmed form of the first frequency line |
| Probes.ParseFreq | netreport.go:103-109 | the loop that stops at the first match computes `FirstFreqLine` of the output's lines |
| Probes.FreqTextFirstMatch | netreport.go:110-114 | after a successful link query with a frequency line, the stored text is the first such line, trimmed, and starts with "freq:" |
| Probes.FreqTextFallback | netreport.go:110-111 | after a successful link query with no frequency line, the stored text is the whole untrimmed output |
| Probes.ErrorTextLines | netreport.go:82-83 | a failed run is stored as one "<tool> error: <err>" line followed by the lines of the captured output; the same holds for the link query (lines 98-99) and the bandwidth test (lines 122-123) |
| NetReport.Results.constructor | netreport.go:67-71 | the record starts with three empty fields |
| NetReport.Results.SetNmap | netreport.go:78 | writes the scan field and leaves the other two unchanged |
| NetReport.Results.SetFreq | netreport.go:94 | writes the frequency field and leaves the other two unchanged |
| NetReport.Results.SetSpeed | netreport.go:123-125 | writes the bandwidth field and leaves the other two unchanged |
| NetReport.StoreInOrder | netreport.go:67-125 | the three writes, in any order, leave the record holding the three written values |
| NetReport.ProbeCalls | netreport.go:77-121 | a probe starts at most one process; the scan starts none exactly when the range is empty and otherwise `nmap -sn <cidr>`, the link query none exactly when the wireless interface is empty and otherwise `iw dev <if> link`, and the bandwidth test always starts its one command |
| NetReport.ScheduleCallsPermutation | netreport.go:74-127 | two orders of the same probes start the same processes, up to reordering |
| NetReport.RunNmapProbe | netreport.go:75-87 | stores "CIDR not found" without starting a process when the range is empty; otherwise starts `nmap -sn <cidr>` and stores the output or the error text; only the scan field changes |
| NetReport.RunWifiProbe | netreport.go:91-115 | stores "wifi interface not found" without starting a process when the interface is empty; otherwise starts `iw dev <if> link` and stores the error text, the first frequency line or the whole output; only the frequency field changes |
| NetReport.RunSpeedProbe | netreport.go:119-127 | starts the speedtest command with server 3696 and stores its output or its error text; only the bandwidth field changes |
| NetReport.RunProbe | netreport.go:74-127 | a probe writes its own field only and starts only its own processes |
| NetReport.RunAll | netreport.go:66-129 | after all three probes, in any order, each field holds its probe's text, and the processes started are those of the probes in that order |
| NetReport.ReportLabelsSingleLine | netreport.go:131-141 | no title or heading of the report spans two lines |
| NetReport.Report | netreport.go:131-142 | the printed text is the report's lines joined by newlines and ending in a newline (its lines: NetReport.MainReportLayout) |
| NetReport.ReportLayout | netreport.go:131-142 | read back line by line, the report is the lines of the title, an empty line, the lines of the interface and of the range, an empty line, the scan heading and the scan's lines, the lines of the wireless interface, the frequency heading, the frequency lines, an empty line, the bandwidth heading and its lines, then the empty piece after the final newline; empty context values keep their line, and a value spanning several lines (two default routes, two addresses) gives all of them |
| NetReport.MainReportLayout | netreport.go:131-142 | the same layout with the program's own Portuguese titles and headings |
| NetReport.Generate | netreport.go:53-143 | the printed report is the layout of the resolved context and the three probe texts, whatever the order the probes run in; the processes started are those of the probes in that order |

## Left out

- `run` and `os/exec` (netreport.go:13-20): starting a process, the shared output buffer and the `sh -c` pipelines with `ip`, `awk` and `iw` are replaced by a fixed outcome per command.
- Goroutines and `sync.WaitGroup` (netreport.go:66, 74-129): the probes run one after another in a caller-chosen order. Interleaving is not modelled; only the order independence of the disjoint writes is kept.
- `time.Now` and its formatting (netreport.go:54, 131): the timestamp is an opaque string parameter.
- The console notices `CIDR error: ...` and `WiFi interface error: ...` (netreport.go:58, 63): they are only printed, so they are not modelled.
- Go's `%v` rendering of an error: it is the opaque `errText` of a run.
- Text.TrimSpace: trims the six ASCII white-space characters only, not Go's Unicode white space (U+0085, U+00A0 and the other Unicode spaces); Text.Fields splits on the same ASCII set.
- NetReport.Generate: the three processes started while resolving the context (netreport.go:24, 32, 42) are not entered in the runner's log; resolution reads the runner's outcomes directly, and the log holds the probes' processes only.
