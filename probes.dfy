/** The three probes of netreport.go (the goroutine bodies at lines 75-127)
    as rules from a context field and the runner's outcome to the text the
    probe stores, and the frequency-line search of the wireless probe
    (lines 102-114). */
module Probes {
  import opened Text
  import opened Exec

  /** Go's `fmt.Sprintf("<tool> error: %v\n%s", err, out)`: a failed run is
      turned into text, never into an abort. */
  function ErrorText(tool: string, r: RunResult): (t: string)
    ensures HasPrefix(t, tool + " error: " + r.errText + "\n")
    ensures |t| == |tool| + 8 + |r.errText| + 1 + |r.out|
    ensures t[|t| - |r.out|..] == r.out
  {
    tool + " error: " + r.errText + "\n" + r.out
  }

  /** A line whose trimmed form starts with "freq:". */
  predicate IsFreqLine(line: string)
  {
    HasPrefix(TrimSpace(line), "freq:")
  }

  /** The trimmed first frequency line, or "" when there is none. A found
      line is never empty, so the result is non-empty exactly when some line
      is a frequency line. */
  function FirstFreqLine(lines: seq<string>): (f: string)
    ensures f != "" <==> exists i :: 0 <= i < |lines| && IsFreqLine(lines[i])
    ensures f != "" ==> HasPrefix(f, "freq:")
  {
    if lines == [] then ""
    else if IsFreqLine(lines[0]) then TrimSpace(lines[0])
    else
      var f := FirstFreqLine(lines[1..]);
      assert forall i :: 1 <= i < |lines| ==> lines[i] == lines[1..][i - 1];
      assert (exists i :: 0 <= i < |lines| && IsFreqLine(lines[i])) ==>
             (exists i :: 0 <= i < |lines[1..]| && IsFreqLine(lines[1..][i]));
      f
  }

  /** The result is the trimmed form of the first frequency line. */
  lemma {:induction false} FirstFreqLineIsFirstMatch(lines: seq<string>, i: nat)
    requires i < |lines| && IsFreqLine(lines[i])
    requires forall j :: 0 <= j < i ==> !IsFreqLine(lines[j])
    ensures FirstFreqLine(lines) == TrimSpace(lines[i])
  {
    if i > 0 {
      assert forall j :: 0 <= j < i - 1 ==> lines[1..][j] == lines[j + 1];
      FirstFreqLineIsFirstMatch(lines[1..], i - 1);
    }
  }

  /** The loop of lines 103-109: walk the lines of `out` and stop at the
      first frequency line. */
  method ParseFreq(out: string) returns (freq: string)
    ensures freq == FirstFreqLine(Split(out))
  {
    var lines := Split(out);
    freq := "";
    var i := 0;
    while i < |lines|
      invariant 0 <= i <= |lines|
      invariant forall j :: 0 <= j < i ==> !IsFreqLine(lines[j])
      invariant freq == ""
    {
      if HasPrefix(TrimSpace(lines[i]), "freq:") {
        freq := TrimSpace(lines[i]);
        FirstFreqLineIsFirstMatch(lines, i);
        break;
      }
      i := i + 1;
    }
  }

  /** The device-discovery probe (lines 77-86). */
  function NmapText(cidr: string, r: RunResult): (t: string)
    ensures cidr == "" ==> t == "CIDR not found"
    ensures cidr != "" && !r.ok ==> t == ErrorText("nmap", r)
    ensures cidr != "" && r.ok ==> t == r.out
  {
    if cidr == "" then "CIDR not found"
    else if !r.ok then ErrorText("nmap", r)
    else r.out
  }

  /** The wireless-link probe (lines 93-114). */
  function FreqText(wifiIf: string, r: RunResult): (t: string)
    ensures wifiIf == "" ==> t == "wifi interface not found"
    ensures wifiIf != "" && !r.ok ==> t == ErrorText("iw", r)
    ensures wifiIf != "" && r.ok ==>
              if exists i :: 0 <= i < |Split(r.out)| && IsFreqLine(Split(r.out)[i])
              then HasPrefix(t, "freq:")
              else t == r.out
  {
    if wifiIf == "" then "wifi interface not found"
    else if !r.ok then ErrorText("iw", r)
    else
      var freq := FirstFreqLine(Split(r.out));
      if freq == "" then r.out else freq
  }

  /** The bandwidth probe (lines 121-126); it has no prerequisite. */
  function SpeedText(r: RunResult): (t: string)
    ensures !r.ok ==> t == ErrorText("speedtest", r)
    ensures r.ok ==> t == r.out
  {
    if !r.ok then ErrorText("speedtest", r) else r.out
  }

  /** On a successful link query with a frequency line, the probe's text is
      that line, trimmed, for the first such line. */
  lemma FreqTextFirstMatch(wifiIf: string, r: RunResult, i: nat)
    requires wifiIf != "" && r.ok
    requires i < |Split(r.out)| && IsFreqLine(Split(r.out)[i])
    requires forall j :: 0 <= j < i ==> !IsFreqLine(Split(r.out)[j])
    ensures FreqText(wifiIf, r) == TrimSpace(Split(r.out)[i])
    ensures HasPrefix(FreqText(wifiIf, r), "freq:")
  {
    FirstFreqLineIsFirstMatch(Split(r.out), i);
  }

  /** On a successful link query without a frequency line, the probe's text
      is the whole output, untrimmed. */
  lemma FreqTextFallback(wifiIf: string, r: RunResult)
    requires wifiIf != "" && r.ok
    requires forall j :: 0 <= j < |Split(r.out)| ==> !IsFreqLine(Split(r.out)[j])
    ensures FreqText(wifiIf, r) == r.out
  {
  }

  /** A failed run's text is the error line followed by the captured output,
      line for line. */
  lemma {:induction false} ErrorTextLines(tool: string, r: RunResult)
    requires SingleLine(tool) && SingleLine(r.errText)
    ensures Split(ErrorText(tool, r)) == [tool + " error: " + r.errText] + Split(r.out)
  {
    var head := tool + " error: " + r.errText;
    assert SingleLine(head);
    SplitAppend(head, r.out);
    SplitNoNewline(head);
  }
}
