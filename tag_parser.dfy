/**
 * The parser of get_current_tagged_version_parts in main.py: the first
 * three maximal runs of ASCII digits of the current tag become the major,
 * minor and patch parts. Major and minor stay strings; patch goes through
 * int().
 */
module TagParser {
  import opened Outcomes
  import opened Decimal

  /** The parts the parser returns: two digit strings and an integer. */
  datatype Parts = Parts(major: string, minor: string, patch: nat)

  /** What every successful parse returns: non-empty digit strings for major and minor. */
  predicate WellFormed(p: Parts) {
    |p.major| > 0 && AllDigits(p.major) && |p.minor| > 0 && AllDigits(p.minor)
  }

  /**
   * The exceptions of the parser: `.group()` on the None that re.search
   * returns when there is no further digit run (AttributeError), and
   * str.index not finding the substring (ValueError).
   */
  datatype ParseError = NoDigitRun | SubstringNotFound

  // ---------------------------------------------------------------------
  // Reference definition: the maximal digit runs of a string, as read by a
  // scanner that keeps the run in progress and emits it at each non-digit.
  // ---------------------------------------------------------------------

  function Runs(s: string): (runs: seq<string>)
    ensures forall k :: 0 <= k < |runs| ==> |runs[k]| > 0 && AllDigits(runs[k])
  {
    Scan(s, "")
  }

  function Flush(pending: string): (runs: seq<string>)
    requires AllDigits(pending)
    ensures forall k :: 0 <= k < |runs| ==> |runs[k]| > 0 && AllDigits(runs[k])
  {
    if pending == [] then [] else [pending]
  }

  function Scan(s: string, pending: string): (runs: seq<string>)
    requires AllDigits(pending)
    ensures forall k :: 0 <= k < |runs| ==> |runs[k]| > 0 && AllDigits(runs[k])
    decreases |s|
  {
    if s == [] then Flush(pending)
    else if IsDigit(s[0]) then
      assert AllDigits(pending + [s[0]]) by {
        forall i | 0 <= i < |pending| + 1 ensures IsDigit((pending + [s[0]])[i]) {
          if i < |pending| { assert (pending + [s[0]])[i] == pending[i]; }
        }
      }
      Scan(s[1..], pending + [s[0]])
    else Flush(pending) + Scan(s[1..], "")
  }

  // ---------------------------------------------------------------------
  // The operations main.py calls.
  // ---------------------------------------------------------------------

  /** The first position at or after `from` that holds a digit, or |s| if none does. */
  function FirstDigit(s: string, from: nat): (i: nat)
    requires from <= |s|
    ensures from <= i <= |s|
    ensures forall k :: from <= k < i ==> !IsDigit(s[k])
    ensures i < |s| ==> IsDigit(s[i])
    decreases |s| - from
  {
    if from == |s| || IsDigit(s[from]) then from else FirstDigit(s, from + 1)
  }

  /** The first position at or after `from` that does not hold a digit, or |s|. */
  function RunEnd(s: string, from: nat): (j: nat)
    requires from <= |s|
    ensures from <= j <= |s|
    ensures forall k :: from <= k < j ==> IsDigit(s[k])
    ensures j < |s| ==> !IsDigit(s[j])
    decreases |s| - from
  {
    if from == |s| || !IsDigit(s[from]) then from else RunEnd(s, from + 1)
  }

  /**
   * re.search(r'\d+', s).group(): the leftmost match of the greedy pattern,
   * or None where re.search returns None.
   */
  function Search(s: string): (m: Option<string>)
    ensures m.Some? ==> |m.value| > 0 && AllDigits(m.value)
    ensures m.None? <==> forall k :: 0 <= k < |s| ==> !IsDigit(s[k])
  {
    var i := FirstDigit(s, 0);
    if i == |s| then None else Some(s[i..RunEnd(s, i)])
  }

  predicate OccursAt(s: string, sub: string, k: nat) {
    k + |sub| <= |s| && s[k..k + |sub|] == sub
  }

  /**
   * s.index(sub, start): the lowest position at or after `start` where
   * `sub` occurs; None stands for the ValueError raised when there is none.
   */
  function Index(s: string, sub: string, start: nat): (r: Option<nat>)
    ensures r.Some? ==> start <= r.value && OccursAt(s, sub, r.value)
    ensures r.Some? ==> forall k :: start <= k < r.value ==> !OccursAt(s, sub, k)
    ensures r.None? ==> forall k :: start <= k ==> !OccursAt(s, sub, k)
    decreases |s| - start
  {
    if start + |sub| > |s| then None
    else if OccursAt(s, sub, start) then Some(start)
    else Index(s, sub, start + 1)
  }

  /** get_current_tagged_version_parts, applied to the (stripped) output of `git describe`. */
  function ParseTag(tag: string): (r: Result<Parts, ParseError>)
    ensures r.Ok? ==> WellFormed(r.value)
  {
    match Search(tag)
    case None => Err(NoDigitRun)
    case Some(major) =>
      match Index(tag, major, 0)
      case None => Err(SubstringNotFound)
      case Some(i) => ParseFromMinor(tag, major, i + |major|)
  }

  /** The rest of the parser once the major part is read and `majorOffset` is just past it. */
  function ParseFromMinor(tag: string, major: string, majorOffset: nat): (r: Result<Parts, ParseError>)
    requires |major| > 0 && AllDigits(major) && majorOffset <= |tag|
    ensures r.Ok? ==> WellFormed(r.value)
  {
    match Search(tag[majorOffset..])
    case None => Err(NoDigitRun)
    case Some(minor) =>
      match Index(tag, minor, majorOffset)
      case None => Err(SubstringNotFound)
      case Some(j) => ParsePatch(tag, major, minor, j + |minor|)
  }

  /** The last step: the next run after `minorOffset` goes through int(). */
  function ParsePatch(tag: string, major: string, minor: string, minorOffset: nat): (r: Result<Parts, ParseError>)
    requires |major| > 0 && AllDigits(major) && |minor| > 0 && AllDigits(minor) && minorOffset <= |tag|
    ensures r.Ok? ==> WellFormed(r.value)
  {
    match Search(tag[minorOffset..])
    case None => Err(NoDigitRun)
    case Some(patch) => Ok(Parts(major, minor, ParseNat(patch)))
  }

  // ---------------------------------------------------------------------
  // The parser against the reference.
  // ---------------------------------------------------------------------

  /** Non-digits before the next run produce nothing. */
  lemma {:induction false} SkipNonDigits(s: string, from: nat)
    requires from <= |s|
    ensures Scan(s[from..], "") == Scan(s[FirstDigit(s, from)..], "")
    decreases |s| - from
  {
    if from < |s| && !IsDigit(s[from]) {
      assert s[from..][1..] == s[from + 1..];
      SkipNonDigits(s, from + 1);
    }
  }

  /** The scanner collects a whole run of digits into the pending run. */
  lemma {:induction false} TakeRun(s: string, from: nat, pending: string)
    requires from <= |s| && AllDigits(pending)
    ensures AllDigits(pending + s[from..RunEnd(s, from)])
    ensures Scan(s[from..], pending) == Scan(s[RunEnd(s, from)..], pending + s[from..RunEnd(s, from)])
    decreases |s| - from
  {
    var e := RunEnd(s, from);
    if from == e {
      assert pending + s[from..e] == pending;
    } else {
      var p := pending + [s[from]];
      assert AllDigits(p) by {
        forall i | 0 <= i < |p| ensures IsDigit(p[i]) {
          if i < |pending| { assert p[i] == pending[i]; }
        }
      }
      assert s[from..][1..] == s[from + 1..];
      TakeRun(s, from + 1, p);
      assert RunEnd(s, from + 1) == e;
      assert p + s[from + 1..e] == pending + s[from..e];
    }
  }

  /** A non-empty pending run is emitted at the end of the string or at a non-digit. */
  lemma {:induction false} EmitRun(s: string, run: string)
    requires |run| > 0 && AllDigits(run)
    requires s == [] || !IsDigit(s[0])
    ensures Scan(s, run) == [run] + Scan(s, "")
  {
  }

  /** str.index finds a digit run at its own position when only non-digits precede it. */
  lemma {:induction false} IndexOfRun(s: string, sub: string, start: nat, at: nat)
    requires start <= at && OccursAt(s, sub, at)
    requires |sub| > 0 && IsDigit(sub[0])
    requires forall k :: start <= k < at ==> !IsDigit(s[k])
    ensures Index(s, sub, start) == Some(at)
    decreases at - start
  {
    if start < at {
      assert !OccursAt(s, sub, start);
      IndexOfRun(s, sub, start + 1, at);
    }
  }

  /** Search finds the first run of the reference, at the position the scan functions give. */
  lemma {:induction false} FirstRunAt(t: string)
    ensures Search(t).None? ==> Runs(t) == []
    ensures Search(t).Some? ==>
      FirstDigit(t, 0) < |t| &&
      Search(t).value == t[FirstDigit(t, 0)..RunEnd(t, FirstDigit(t, 0))] &&
      Runs(t) == [Search(t).value] + Runs(t[RunEnd(t, FirstDigit(t, 0))..])
  {
    var i := FirstDigit(t, 0);
    assert t[0..] == t;
    SkipNonDigits(t, 0);
    if i == |t| {
      assert t[i..] == [];
    } else {
      var j := RunEnd(t, i);
      var run := t[i..j];
      TakeRun(t, i, "");
      assert "" + run == run;
      EmitRun(t[j..], run);
    }
  }

  /** Search finds nothing exactly when the string has no digit run. */
  lemma {:induction false} NoRun(t: string)
    ensures Search(t).None? <==> Runs(t) == []
  {
    FirstRunAt(t);
  }

  /**
   * One step of the parser: the run that Search finds in the rest of the
   * tag from `offset` is located by str.index, and the text after it holds
   * exactly the remaining runs.
   */
  lemma {:induction false} NextRun(tag: string, offset: nat) returns (next: nat)
    requires offset <= |tag| && Search(tag[offset..]).Some?
    ensures Index(tag, Search(tag[offset..]).value, offset) == Some(next - |Search(tag[offset..]).value|)
    ensures next <= |tag|
    ensures Runs(tag[offset..]) == [Search(tag[offset..]).value] + Runs(tag[next..])
  {
    var t := tag[offset..];
    FirstRunAt(t);
    var i := FirstDigit(t, 0);
    var j := RunEnd(t, i);
    LocateRun(tag, offset, i, t[i..j]);
    next := offset + j;
    assert tag[next..] == t[j..];
  }

  /** A run found at position `at` of the rest of the tag from `offset` is at offset + at of the tag. */
  lemma {:induction false} LocateRun(tag: string, offset: nat, at: nat, run: string)
    requires offset + at + |run| <= |tag|
    requires tag[offset..][at..at + |run|] == run
    requires |run| > 0 && IsDigit(run[0])
    requires forall k :: 0 <= k < at ==> !IsDigit(tag[offset..][k])
    ensures Index(tag, run, offset) == Some(offset + at)
  {
    var t := tag[offset..];
    assert tag[offset + at..offset + at + |run|] == run;
    forall k | offset <= k < offset + at ensures !IsDigit(tag[k]) {
      assert tag[k] == t[k - offset];
    }
    IndexOfRun(tag, run, offset, offset + at);
  }

  /** The last step reads the first run after `minorOffset`, and fails only when there is none. */
  lemma {:induction false} PatchReadsRuns(tag: string, major: string, minor: string, minorOffset: nat)
    requires |major| > 0 && AllDigits(major) && |minor| > 0 && AllDigits(minor) && minorOffset <= |tag|
    ensures ParsePatch(tag, major, minor, minorOffset).Ok? <==> Runs(tag[minorOffset..]) != []
    ensures ParsePatch(tag, major, minor, minorOffset).Err? ==>
      ParsePatch(tag, major, minor, minorOffset).error == NoDigitRun
    ensures Runs(tag[minorOffset..]) != [] ==>
      ParsePatch(tag, major, minor, minorOffset).value == Parts(major, minor, ParseNat(Runs(tag[minorOffset..])[0]))
  {
    NoRun(tag[minorOffset..]);
    if Search(tag[minorOffset..]).Some? {
      var next := NextRun(tag, minorOffset);
    }
  }

  /** After the major part, the parser reads the next two runs, and fails only when there are fewer. */
  lemma {:induction false} MinorReadsRuns(tag: string, major: string, majorOffset: nat)
    requires |major| > 0 && AllDigits(major) && majorOffset <= |tag|
    ensures ParseFromMinor(tag, major, majorOffset).Ok? <==> |Runs(tag[majorOffset..])| >= 2
    ensures ParseFromMinor(tag, major, majorOffset).Err? ==>
      ParseFromMinor(tag, major, majorOffset).error == NoDigitRun
    ensures |Runs(tag[majorOffset..])| >= 2 ==>
      ParseFromMinor(tag, major, majorOffset).value ==
        Parts(major, Runs(tag[majorOffset..])[0], ParseNat(Runs(tag[majorOffset..])[1]))
  {
    var rest := tag[majorOffset..];
    NoRun(rest);
    if Search(rest).None? {
      assert ParseFromMinor(tag, major, majorOffset) == Err(NoDigitRun);
    } else {
      var minor := Search(rest).value;
      var minorOffset := NextRun(tag, majorOffset);
      assert ParseFromMinor(tag, major, majorOffset) == ParsePatch(tag, major, minor, minorOffset);
      PatchReadsRuns(tag, major, minor, minorOffset);
      var later := Runs(tag[minorOffset..]);
      assert Runs(rest) == [minor] + later;
      assert |Runs(rest)| >= 2 <==> later != [];
    }
  }

  /**
   * The parser returns exactly the first, second and third maximal digit
   * runs, whatever separates them and whatever follows; it fails exactly
   * when the tag has fewer than three runs, and always through the
   * re.search result being None, never through str.index.
   */
  lemma {:induction false} ParseTagReadsRuns(tag: string)
    ensures ParseTag(tag).Ok? <==> |Runs(tag)| >= 3
    ensures ParseTag(tag).Err? ==> ParseTag(tag).error == NoDigitRun
    ensures |Runs(tag)| >= 3 ==>
      ParseTag(tag).value == Parts(Runs(tag)[0], Runs(tag)[1], ParseNat(Runs(tag)[2]))
  {
    NoRun(tag);
    if Search(tag).None? {
      assert ParseTag(tag) == Err(NoDigitRun);
    } else {
      var major := Search(tag).value;
      assert tag[0..] == tag;
      var majorOffset := NextRun(tag, 0);
      assert ParseTag(tag) == ParseFromMinor(tag, major, majorOffset);
      MinorReadsRuns(tag, major, majorOffset);
    }
  }

  /** The render-side counterpart: the runs of `v<a>.<b>.<c>` are a, b and c. */
  lemma {:induction false} DigitsThen(d: string, rest: string, pending: string)
    requires AllDigits(d) && AllDigits(pending)
    ensures AllDigits(pending + d)
    ensures Scan(d + rest, pending) == Scan(rest, pending + d)
    decreases |d|
  {
    if d == [] {
      assert d + rest == rest && pending + d == pending;
    } else {
      var p := pending + [d[0]];
      assert AllDigits(p) by {
        forall i | 0 <= i < |p| ensures IsDigit(p[i]) {
          if i < |pending| { assert p[i] == pending[i]; }
        }
      }
      assert (d + rest)[1..] == d[1..] + rest;
      DigitsThen(d[1..], rest, p);
      assert p + d[1..] == pending + d;
    }
  }
}
