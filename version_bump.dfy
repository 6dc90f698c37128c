/**
 * The increment branch of `process` in main.py: the labels of the pull
 * request (if there is one) pick the component to bump, and the new tag is
 * rendered as 'v{}.{}.{}'. Only the chosen component is incremented; the
 * other two are carried over as they were read.
 */
module VersionBump {
  import opened Outcomes
  import opened Decimal
  import opened TagParser

  /** Which branch of the if/elif chain is taken; DefaultPatch is the warned fallback. */
  datatype Increment = Major | Minor | Patch | DefaultPatch

  /**
   * The label precedence: `major` over `minor` over `patch`; no recognised
   * label, or no pull request at all (None), falls back to a patch bump.
   */
  function ChooseIncrement(labels: Option<seq<string>>): (inc: Increment)
    ensures inc == Major <==> labels.Some? && "major" in labels.value
    ensures inc == Minor <==> labels.Some? && "major" !in labels.value && "minor" in labels.value
    ensures inc == Patch <==>
      labels.Some? && "major" !in labels.value && "minor" !in labels.value && "patch" in labels.value
    ensures inc == DefaultPatch <==>
      labels.None? || ("major" !in labels.value && "minor" !in labels.value && "patch" !in labels.value)
  {
    match labels
    case None => DefaultPatch
    case Some(names) =>
      if "major" in names then Major
      else if "minor" in names then Minor
      else if "patch" in names then Patch
      else DefaultPatch
  }

  /** 'v{}.{}.{}'.format(major, minor, patch) on already rendered parts. */
  function Render(major: string, minor: string, patch: string): (tag: string) {
    "v" + major + "." + minor + "." + patch
  }

  /**
   * The new tag name. A bumped component goes through int() and is
   * rendered afresh; a carried-over major or minor is the digit string read
   * from the old tag, leading zeros included.
   */
  function NewVersion(p: Parts, inc: Increment): (v: string)
    requires WellFormed(p)
  {
    match inc
    case Major => Render(NatToString(ParseNat(p.major) + 1), p.minor, NatToString(p.patch))
    case Minor => Render(p.major, NatToString(ParseNat(p.minor) + 1), NatToString(p.patch))
    case _ => Render(p.major, p.minor, NatToString(p.patch + 1))
  }

  /** The numeric value of a version, as a (major, minor, patch) triple. */
  function Numbers(p: Parts): (triple: (nat, nat, nat))
    requires WellFormed(p)
  {
    (ParseNat(p.major), ParseNat(p.minor), p.patch)
  }

  /** Lexicographic order on version triples. */
  predicate Below(x: (nat, nat, nat), y: (nat, nat, nat)) {
    x.0 < y.0 || (x.0 == y.0 && (x.1 < y.1 || (x.1 == y.1 && x.2 < y.2)))
  }

  /** A run of digits that ends at a non-digit, or at the end, is emitted whole. */
  lemma {:induction false} RunThenBoundary(d: string, rest: string)
    requires |d| > 0 && AllDigits(d)
    requires rest == [] || !IsDigit(rest[0])
    ensures Runs(d + rest) == [d] + Runs(rest)
  {
    DigitsThen(d, rest, "");
    assert "" + d == d;
    EmitRun(rest, d);
  }

  /** A separator that is not a digit adds no run. */
  lemma {:induction false} SeparatorThen(sep: char, rest: string)
    requires !IsDigit(sep)
    ensures Runs([sep] + rest) == Runs(rest)
  {
    assert ([sep] + rest)[1..] == rest;
  }

  /**
   * The digit runs of a rendered version followed by text that does not
   * continue its last number: its three components, then the runs of that text.
   */
  lemma {:induction false} RenderRuns(a: string, b: string, c: string, suffix: string)
    requires |a| > 0 && AllDigits(a) && |b| > 0 && AllDigits(b) && |c| > 0 && AllDigits(c)
    requires suffix == [] || !IsDigit(suffix[0])
    ensures Runs(Render(a, b, c) + suffix) == [a, b, c] + Runs(suffix)
  {
    var tailC := "." + (c + suffix);
    var tailB := "." + (b + tailC);
    var tailA := a + tailB;
    calc {
      Runs(Render(a, b, c) + suffix);
      { assert Render(a, b, c) + suffix == "v" + tailA; }
      Runs("v" + tailA);
      { SeparatorThen('v', tailA); }
      Runs(tailA);
      { RunThenBoundary(a, tailB); }
      [a] + Runs(tailB);
      { SeparatorThen('.', b + tailC); RunThenBoundary(b, tailC); }
      [a] + ([b] + Runs(tailC));
      { SeparatorThen('.', c + suffix); RunThenBoundary(c, suffix); }
      [a] + ([b] + ([c] + Runs(suffix)));
      [a, b, c] + Runs(suffix);
    }
  }

  /** Text without digits in front of a string adds no run. */
  lemma {:induction false} DigitFreePrefix(prefix: string, rest: string)
    requires forall k :: 0 <= k < |prefix| ==> !IsDigit(prefix[k])
    ensures Runs(prefix + rest) == Runs(rest)
    decreases |prefix|
  {
    if prefix != [] {
      assert (prefix + rest)[0] == prefix[0];
      assert (prefix + rest)[1..] == prefix[1..] + rest;
      assert Scan(prefix + rest, "") == Flush("") + Scan(prefix[1..] + rest, "");
      DigitFreePrefix(prefix[1..], rest);
    } else {
      assert prefix + rest == rest;
    }
  }

  /** Parsing what `process` renders gives back the parts it rendered. */
  lemma {:induction false} ParseRender(a: string, b: string, c: string)
    requires |a| > 0 && AllDigits(a) && |b| > 0 && AllDigits(b) && |c| > 0 && AllDigits(c)
    ensures ParseTag(Render(a, b, c)) == Ok(Parts(a, b, ParseNat(c)))
  {
    assert Render(a, b, c) + "" == Render(a, b, c);
    RenderRuns(a, b, c, "");
    ParseTagReadsRuns(Render(a, b, c));
  }

  /**
   * A tag such as `release-v2.13.7-hotfix`: text without digits before the
   * version and a suffix that does not continue the last number leave the
   * three parts as they are.
   */
  lemma {:induction false} DecoratedTagParts(prefix: string, a: string, b: string, c: string, suffix: string)
    requires forall k :: 0 <= k < |prefix| ==> !IsDigit(prefix[k])
    requires |a| > 0 && AllDigits(a) && |b| > 0 && AllDigits(b) && |c| > 0 && AllDigits(c)
    requires suffix == [] || !IsDigit(suffix[0])
    ensures ParseTag(prefix + Render(a, b, c) + suffix) == Ok(Parts(a, b, ParseNat(c)))
  {
    var tag := prefix + Render(a, b, c) + suffix;
    assert tag == prefix + (Render(a, b, c) + suffix);
    DigitFreePrefix(prefix, Render(a, b, c) + suffix);
    RenderRuns(a, b, c, suffix);
    var R := Runs(tag);
    assert |R| >= 3 && R[0] == a && R[1] == b && R[2] == c;
    ParseTagReadsRuns(tag);
  }

  /**
   * Render/parse round trip: the new tag parses back, and compared
   * numerically it is the old version with exactly the chosen component
   * one higher; the other components come back as the very strings read.
   */
  lemma {:induction false} NewVersionReadsBack(p: Parts, inc: Increment)
    requires WellFormed(p)
    ensures ParseTag(NewVersion(p, inc)).Ok?
    ensures var q := ParseTag(NewVersion(p, inc)).value;
      match inc
      case Major => ParseNat(q.major) == ParseNat(p.major) + 1 && q.minor == p.minor && q.patch == p.patch
      case Minor => q.major == p.major && ParseNat(q.minor) == ParseNat(p.minor) + 1 && q.patch == p.patch
      case _ => q.major == p.major && q.minor == p.minor && q.patch == p.patch + 1
  {
    var q := ParseTag(NewVersion(p, inc));
    match inc
    case Major =>
      var a := NatToString(ParseNat(p.major) + 1);
      var c := NatToString(p.patch);
      assert NewVersion(p, inc) == Render(a, p.minor, c);
      ParseRender(a, p.minor, c);
      ParseNatToString(ParseNat(p.major) + 1);
      ParseNatToString(p.patch);
      assert q == Ok(Parts(a, p.minor, p.patch));
    case Minor =>
      var b := NatToString(ParseNat(p.minor) + 1);
      var c := NatToString(p.patch);
      assert NewVersion(p, inc) == Render(p.major, b, c);
      ParseRender(p.major, b, c);
      ParseNatToString(ParseNat(p.minor) + 1);
      ParseNatToString(p.patch);
      assert q == Ok(Parts(p.major, b, p.patch));
    case _ =>
      var c := NatToString(p.patch + 1);
      assert NewVersion(p, inc) == Render(p.major, p.minor, c);
      ParseRender(p.major, p.minor, c);
      ParseNatToString(p.patch + 1);
      assert q == Ok(Parts(p.major, p.minor, p.patch + 1));
  }

  /** Every run tags a version strictly above the one it read. */
  lemma {:induction false} NewVersionIsGreater(p: Parts, inc: Increment)
    requires WellFormed(p)
    ensures ParseTag(NewVersion(p, inc)).Ok?
    ensures Below(Numbers(p), Numbers(ParseTag(NewVersion(p, inc)).value))
  {
    NewVersionReadsBack(p, inc);
  }

  /**
   * The labels decide the bump: `major` wins whatever else is present,
   * then `minor`, and otherwise (a `patch` label, no recognised label, or
   * no pull request) the patch goes up; nothing is reset.
   */
  lemma {:induction false} LabelsDecideBump(p: Parts, labels: Option<seq<string>>)
    requires WellFormed(p)
    ensures ParseTag(NewVersion(p, ChooseIncrement(labels))).Ok?
    ensures var q := ParseTag(NewVersion(p, ChooseIncrement(labels))).value;
      if labels.Some? && "major" in labels.value then
        ParseNat(q.major) == ParseNat(p.major) + 1 && q.minor == p.minor && q.patch == p.patch
      else if labels.Some? && "minor" in labels.value then
        q.major == p.major && ParseNat(q.minor) == ParseNat(p.minor) + 1 && q.patch == p.patch
      else
        q.major == p.major && q.minor == p.minor && q.patch == p.patch + 1
  {
    NewVersionReadsBack(p, ChooseIncrement(labels));
  }

  /** int('007') is 7. */
  lemma ZeroPaddedPatch()
    ensures AllDigits("007") && ParseNat("007") == 7
  {
    assert AllDigits("7");
    ParseNatLeadingZero("7");
    assert "0" + "7" == "07";
    ParseNatLeadingZero("07");
    assert "0" + "07" == "007";
  }

  /**
   * The tag `v1.02.007` (rendered here from its parts) parses to the digit
   * strings "1" and "02" and the number int('007'), which is 7.
   */
  lemma ZeroPaddedTagParts()
    ensures ParseTag(Render("1", "02", "007")) == Ok(Parts("1", "02", ParseNat("007")))
  {
    var a, b, c := "1", "02", "007";
    ParseRender(a, b, c);
  }

  /** Bumping the patch of those parts gives `v1.02.8`: the minor keeps its zero, the patch has lost its zeros. */
  lemma ZeroPaddedPatchBump()
    ensures NewVersion(Parts("1", "02", 7), Patch) == "v1.02.8"
  {
    assert NatToString(8) == "8";
  }
}
