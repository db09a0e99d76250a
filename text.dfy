/** The few pieces of Go's `strings` package that netreport.go relies on:
    TrimSpace, HasPrefix, Split on a newline and Fields. White space is the
    ASCII set only (see README). */
module Text {

  /** ' ', '\t', '\n', '\v', '\f' and '\r'. */
  predicate IsSpace(c: char)
  {
    c == ' ' || c == '\t' || c == '\n' || c == '\U{000B}' || c == '\U{000C}' || c == '\r'
  }

  predicate AllSpace(s: string)
  {
    forall i :: 0 <= i < |s| ==> IsSpace(s[i])
  }

  predicate NoSpace(s: string)
  {
    forall i :: 0 <= i < |s| ==> !IsSpace(s[i])
  }

  /** The index of the first non-white-space character at or after `i`
      (or `|s|`). */
  function SkipSpace(s: string, i: nat): (j: nat)
    requires i <= |s|
    ensures i <= j <= |s|
    ensures forall k :: i <= k < j ==> IsSpace(s[k])
    ensures j == |s| || !IsSpace(s[j])
    decreases |s| - i
  {
    if i < |s| && IsSpace(s[i]) then SkipSpace(s, i + 1) else i
  }

  /** The end of `s` with its trailing white space dropped, never below `lo`. */
  function TrimEnd(s: string, lo: nat): (e: nat)
    requires lo <= |s|
    ensures lo <= e <= |s|
    ensures forall k :: e <= k < |s| ==> IsSpace(s[k])
    ensures e == lo || !IsSpace(s[e - 1])
  {
    TrimEndFrom(s, lo, |s|)
  }

  function TrimEndFrom(s: string, lo: nat, e: nat): (r: nat)
    requires lo <= e <= |s|
    requires forall k :: e <= k < |s| ==> IsSpace(s[k])
    ensures lo <= r <= e
    ensures forall k :: r <= k < |s| ==> IsSpace(s[k])
    ensures r == lo || !IsSpace(s[r - 1])
  {
    if lo < e && IsSpace(s[e - 1]) then TrimEndFrom(s, lo, e - 1) else e
  }

  /** strings.TrimSpace: the result is the slice of `s` between its leading
      and its trailing white space; it neither starts nor ends with white
      space, and it is empty exactly when `s` is all white space. */
  function TrimSpace(s: string): (r: string)
    ensures |r| <= |s|
    ensures r == [] || (!IsSpace(r[0]) && !IsSpace(r[|r| - 1]))
    ensures r == [] <==> AllSpace(s)
  {
    var a := SkipSpace(s, 0);
    s[a..TrimEnd(s, a)]
  }

  /** `s` is `r` with white space only around it. */
  predicate Padded(s: string, lead: string, r: string, trail: string)
  {
    AllSpace(lead) && AllSpace(trail) && s == lead + r + trail
  }

  /** TrimSpace removes white space only, and only around the text. */
  lemma TrimSpaceSlice(s: string)
    ensures exists lead, trail :: Padded(s, lead, TrimSpace(s), trail)
  {
    var a := SkipSpace(s, 0);
    var e := TrimEnd(s, a);
    PaddedAt(s, a, e);
    assert Padded(s, s[..a], TrimSpace(s), s[e..]);
  }

  lemma PaddedAt(s: string, a: nat, e: nat)
    requires a <= e <= |s|
    requires forall k :: 0 <= k < a ==> IsSpace(s[k])
    requires forall k :: e <= k < |s| ==> IsSpace(s[k])
    ensures Padded(s, s[..a], s[a..e], s[e..])
  {
    ThreeSlices(s, a, e);
  }

  lemma ThreeSlices(s: string, a: nat, b: nat)
    requires a <= b <= |s|
    ensures s == s[..a] + s[a..b] + s[b..]
  {
    assert s[..b] == s[..a] + s[a..b];
    assert s == s[..b] + s[b..];
  }

  /** Trimming twice changes nothing more than trimming once. */
  lemma TrimSpaceIdempotent(s: string)
    ensures TrimSpace(TrimSpace(s)) == TrimSpace(s)
  {
    var r := TrimSpace(s);
    assert SkipSpace(r, 0) == 0;
    assert TrimEnd(r, 0) == |r|;
  }

  /** strings.HasPrefix. */
  predicate HasPrefix(s: string, p: string)
  {
    |p| <= |s| && s[..|p|] == p
  }

  /** `s` holds no newline. */
  predicate SingleLine(s: string)
  {
    forall i :: 0 <= i < |s| ==> s[i] != '\n'
  }

  /** strings.Split(s, "\n"): the pieces between newlines, always at least
      one (the empty string splits into one empty piece). */
  function Split(s: string): (r: seq<string>)
    ensures |r| >= 1
    ensures forall k :: 0 <= k < |r| ==> SingleLine(r[k])
  {
    if s == [] then [[]]
    else
      var t := Split(s[1..]);
      if s[0] == '\n' then [[]] + t
      else [[s[0]] + t[0]] + t[1..]
  }

  /** strings.Join(pieces, "\n"). */
  function JoinLines(pieces: seq<string>): string
  {
    if |pieces| == 0 then []
    else if |pieces| == 1 then pieces[0]
    else pieces[0] + "\n" + JoinLines(pieces[1..])
  }

  /** Splitting at a newline splits the two sides independently. */
  lemma {:induction false} SplitAppend(a: string, b: string)
    ensures Split(a + "\n" + b) == Split(a) + Split(b)
  {
    if a == [] {
      assert a + "\n" + b == ['\n'] + b;
      assert (['\n'] + b)[1..] == b;
    } else {
      var a' := a[1..];
      assert (a + "\n" + b)[1..] == a' + "\n" + b;
      SplitAppend(a', b);
    }
  }

  /** A string without newlines is one piece. */
  lemma {:induction false} SplitNoNewline(s: string)
    requires SingleLine(s)
    ensures Split(s) == [s]
  {
    if s != [] {
      assert SingleLine(s[1..]);
      SplitNoNewline(s[1..]);
      assert [s[0]] + s[1..] == s;
    }
  }

  /** Joining the pieces gives back the input. */
  lemma {:induction false} JoinSplit(s: string)
    ensures JoinLines(Split(s)) == s
  {
    if s != [] {
      JoinSplit(s[1..]);
      if s[0] == '\n' {
        JoinEmptyFirst(Split(s[1..]));
      } else {
        JoinExtendFirst(s[0], Split(s[1..]));
      }
      assert [s[0]] + s[1..] == s;
    }
  }

  lemma JoinEmptyFirst(t: seq<string>)
    requires |t| >= 1
    ensures JoinLines([[]] + t) == "\n" + JoinLines(t)
  {
    assert ([[]] + t)[1..] == t;
  }

  lemma JoinExtendFirst(c: char, t: seq<string>)
    requires |t| >= 1
    ensures JoinLines([[c] + t[0]] + t[1..]) == [c] + JoinLines(t)
  {
    if |t| > 1 {
      assert ([[c] + t[0]] + t[1..])[1..] == t[1..];
    }
  }

  /** Splitting newline-free pieces after joining them gives them back. */
  lemma {:induction false} SplitJoin(pieces: seq<string>)
    requires |pieces| >= 1
    requires forall k :: 0 <= k < |pieces| ==> SingleLine(pieces[k])
    ensures Split(JoinLines(pieces)) == pieces
  {
    SplitNoNewline(pieces[0]);
    if |pieces| > 1 {
      SplitJoin(pieces[1..]);
      SplitAppend(pieces[0], JoinLines(pieces[1..]));
    }
  }

  /** The end of the run of non-white-space characters starting at `i`. */
  function SkipWord(s: string, i: nat): (j: nat)
    requires i <= |s|
    ensures i <= j <= |s|
    ensures forall k :: i <= k < j ==> !IsSpace(s[k])
    ensures j == |s| || IsSpace(s[j])
    decreases |s| - i
  {
    if i < |s| && !IsSpace(s[i]) then SkipWord(s, i + 1) else i
  }

  /** The fields of `s[i..]`. */
  function FieldsFrom(s: string, i: nat): (r: seq<string>)
    requires i <= |s|
    ensures forall w :: w in r ==> w != [] && NoSpace(w)
    ensures r == [] <==> forall k :: i <= k < |s| ==> IsSpace(s[k])
    decreases |s| - i
  {
    var a := SkipSpace(s, i);
    if a == |s| then []
    else [s[a..SkipWord(s, a)]] + FieldsFrom(s, SkipWord(s, a))
  }

  /** strings.Fields: the maximal runs of non-white-space characters. Every
      field is non-empty and holds no white space, and there are none exactly
      when `s` is all white space. */
  function Fields(s: string): (r: seq<string>)
    ensures forall w :: w in r ==> w != [] && NoSpace(w)
    ensures r == [] <==> AllSpace(s)
  {
    FieldsFrom(s, 0)
  }

  /** `s` is `w` preceded by white space only and followed by the end of `s`
      or a white-space character. */
  predicate LeadingWord(s: string, lead: string, w: string, rest: string)
  {
    AllSpace(lead) && s == lead + w + rest && (rest == [] || IsSpace(rest[0]))
  }

  /** The first field is what follows the leading white space, up to the next
      white space or the end. */
  lemma FirstField(s: string)
    requires Fields(s) != []
    ensures exists lead, rest :: LeadingWord(s, lead, Fields(s)[0], rest)
  {
    var a := SkipSpace(s, 0);
    var b := SkipWord(s, a);
    FieldsHead(s);
    LeadingWordAt(s, a, b);
  }

  lemma FieldsHead(s: string)
    requires Fields(s) != []
    ensures SkipSpace(s, 0) < |s|
    ensures Fields(s)[0] == s[SkipSpace(s, 0)..SkipWord(s, SkipSpace(s, 0))]
  {
  }

  lemma LeadingWordAt(s: string, a: nat, b: nat)
    requires a <= b <= |s|
    requires forall k :: 0 <= k < a ==> IsSpace(s[k])
    requires b == |s| || IsSpace(s[b])
    ensures LeadingWord(s, s[..a], s[a..b], s[b..])
  {
    ThreeSlices(s, a, b);
    assert s[b..] == [] || s[b..][0] == s[b];
  }
}
