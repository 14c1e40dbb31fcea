/** Disablement evaluation, the standard early/late helpers and the suite
    record of package openshifttests (pkg/openshifttests/e2e.go). */
module OpenshiftTests {
  import opened Options
  import opened Strings
  import opened Calendar

  const DisabledMarker := "[Disabled"
  const EarlyTag := "[Early]"
  const LateTag := "[Late]"
  const ConformanceParallelTag := "[Suite:openshift/conformance/parallel"

  // ---------------------------------------------------------------------
  // The skip-until tag  [SkippedUntil:MMDDYYYY:blocker-bz/ID]
  // ---------------------------------------------------------------------

  const SkipOpen := "[SkippedUntil:"
  const BlockerInfix := ":blocker-bz/"
  /** Offsets inside a tag: the date occupies [DateStart, DateEnd) and the
      blocker id starts at IdStart. */
  const DateStart: nat := 14
  const DateEnd: nat := 22
  const IdStart: nat := 34

  /** The regular expression `\[SkippedUntil:(\d{8}):blocker-bz\/([a-zA-Z0-9]+)\]`
      matches `s` at offset `i` with a blocker id of `idLen` characters. */
  ghost predicate TagSpan(s: string, i: nat, idLen: nat) {
    && 1 <= idLen
    && i + IdStart + idLen < |s|
    && s[i..i + DateStart] == SkipOpen
    && AllDigits(s[i + DateStart..i + DateEnd])
    && s[i + DateEnd..i + IdStart] == BlockerInfix
    && AllAlnum(s[i + IdStart..i + IdStart + idLen])
    && s[i + IdStart + idLen] == ']'
  }

  /** Some match of the regular expression starts at offset `i`. */
  ghost predicate TagAt(s: string, i: nat) {
    exists idLen: nat :: TagSpan(s, i, idLen)
  }

  /** `i` is where the leftmost match starts (what FindStringSubmatch reports). */
  ghost predicate LeftmostTagAt(s: string, i: nat) {
    TagAt(s, i) && forall j: nat :: j < i ==> !TagAt(s, j)
  }

  /** The submatches of a match: where it starts, the 8 date digits and the blocker id. */
  datatype SkipTag = SkipTag(start: nat, date: string, blocker: string)

  /** Length of the run of `[a-zA-Z0-9]` characters starting at `j`. */
  function AlnumRun(s: string, j: nat): (n: nat)
    requires j <= |s|
    ensures j + n <= |s|
    ensures AllAlnum(s[j..j + n])
    ensures j + n == |s| || !IsAsciiAlnum(s[j + n])
    decreases |s| - j
  {
    if j < |s| && IsAsciiAlnum(s[j]) then 1 + AlnumRun(s, j + 1) else 0
  }

  /** Match the pattern at offset `i`: the length of the blocker id, if it matches. */
  function TagLengthAt(s: string, i: nat): (r: Option<nat>)
    ensures r.Some? ==> TagSpan(s, i, r.value)
    ensures r.None? ==> !TagAt(s, i)
  {
    if i + IdStart <= |s|
       && s[i..i + DateStart] == SkipOpen
       && AllDigits(s[i + DateStart..i + DateEnd])
       && s[i + DateEnd..i + IdStart] == BlockerInfix
    then
      var n := AlnumRun(s, i + IdStart);
      if 1 <= n && i + IdStart + n < |s| && s[i + IdStart + n] == ']' then Some(n)
      else
        None
    else None
  }

  /** Scan offsets `from`, `from + 1`, ... for the first match. */
  function FindTagFrom(s: string, from: nat): (r: Option<nat>)
    ensures r.Some? ==> from <= r.value && TagAt(s, r.value)
    ensures r.Some? ==> forall j: nat :: from <= j < r.value ==> !TagAt(s, j)
    ensures r.None? ==> forall j: nat :: from <= j ==> !TagAt(s, j)
    decreases |s| - from
  {
    if |s| <= from then None
    else if TagLengthAt(s, from).Some? then Some(from)
    else FindTagFrom(s, from + 1)
  }

  /** re.FindStringSubmatch for the skip-until pattern: the leftmost match
      and its two submatches. */
  function FindSkipTag(s: string): (r: Option<SkipTag>)
    ensures r.None? ==> forall j: nat :: !TagAt(s, j)
    ensures r.Some? ==> LeftmostTagAt(s, r.value.start)
    ensures r.Some? ==> TagSpan(s, r.value.start, |r.value.blocker|)
    ensures r.Some? ==> r.value.date == s[r.value.start + DateStart..r.value.start + DateEnd]
    ensures r.Some? ==>
      r.value.blocker == s[r.value.start + IdStart..r.value.start + IdStart + |r.value.blocker|]
    ensures r.Some? ==> |r.value.date| == 8 && AllDigits(r.value.date)
    ensures r.Some? ==> 1 <= |r.value.blocker| && AllAlnum(r.value.blocker)
  {
    match FindTagFrom(s, 0)
    case None => None
    case Some(i) =>
      var n := TagLengthAt(s, i).value;
      Some(SkipTag(i, s[i + DateStart..i + DateEnd], s[i + IdStart..i + IdStart + n]))
  }

  // ---------------------------------------------------------------------
  // Disablement
  // ---------------------------------------------------------------------

  /** shouldSkipUntil: the leftmost skip-until tag, if its date parses, skips
      the test while midnight UTC of that date is after `now`. A missing tag
      or an unparseable date does not skip (fail-open). */
  predicate ShouldSkipUntil(name: string, now: Instant) {
    match FindSkipTag(name)
    case None => false
    case Some(tag) =>
      match ParseMMDDYYYY(tag.date)
      case None => false
      case Some(d) => After(Midnight(d), now)
  }

  /** IsDisabled: an explicit `[Disabled` marker, or a skip-until tag that has not expired. */
  predicate IsDisabled(name: string, now: Instant) {
    if Contains(name, DisabledMarker) then true else ShouldSkipUntil(name, now)
  }

  /** IsStandardEarlyTest: an `[Early]` test of the parallel conformance suite. */
  predicate IsStandardEarlyTest(name: string) {
    if !Contains(name, EarlyTag) then false else Contains(name, ConformanceParallelTag)
  }

  /** IsStandardEarlyOrLateTest: an `[Early]` or `[Late]` test of the parallel conformance suite. */
  predicate IsStandardEarlyOrLateTest(name: string) {
    if !Contains(name, EarlyTag) && !Contains(name, LateTag) then false
    else Contains(name, ConformanceParallelTag)
  }

  // ---------------------------------------------------------------------
  // The suite record and TestSuites()
  // ---------------------------------------------------------------------

  /** Which post-run synthetic event-invariant check a suite applies. */
  datatype InvariantCheck = NoInvariantCheck | StableSystemEventInvariants | SystemEventInvariants

  /** The PreSuite hooks; their bodies resolve the cluster provider and are not modelled. */
  datatype PreSuiteHook =
    | SuiteWithInitializedProviderPreSuite
    | SuiteWithProviderPreSuite
    | SuiteWithNoProviderPreSuite
    | SuiteWithKubeTestInitializationPreSuite

  datatype PostSuiteHook = NoPostSuite | PrintStorageCapabilities

  /** The embedded ginkgo.TestSuite: name, membership predicate (represented
      by a value of type M that the registry interprets) and execution policy.
      Unset numeric fields are 0 and the timeout is counted in minutes. */
  datatype GinkgoSuite<M> = GinkgoSuite(
    name: string,
    matches: M,
    parallelism: nat := 0,
    maximumAllowedFlakes: nat := 0,
    testTimeoutMinutes: nat := 0,
    count: nat := 0,
    syntheticEventTests: InvariantCheck := NoInvariantCheck)

  /** openshifttests.TestSuite. No registered suite sets a PreTest hook, so
      the record leaves it out. */
  datatype TestSuite<M> = TestSuite(
    suite: GinkgoSuite<M>,
    preSuite: PreSuiteHook,
    postSuite: PostSuiteHook := NoPostSuite)

  /** A Go pointer `&s[index].TestSuite` into the backing array of a TestSuites slice. */
  datatype SuiteRef<M> = SuiteRef(slice: array<TestSuite<M>>, index: nat)

  /** The ginkgo.TestSuite a reference points to. */
  function Deref<M>(r: SuiteRef<M>): GinkgoSuite<M>
    requires r.index < r.slice.Length
    reads r.slice
  {
    r.slice[r.index].suite
  }

  /** TestSuites.TestSuites(): one pointer per element, in order, each to the
      embedded ginkgo.TestSuite of that element of the same backing array. */
  method TestSuites<M>(s: array<TestSuite<M>>) returns (copied: seq<SuiteRef<M>>)
    ensures |copied| == s.Length
    ensures forall i :: 0 <= i < |copied| ==> copied[i].slice == s && copied[i].index == i
    ensures forall i :: 0 <= i < |copied| ==> Deref(copied[i]) == s[i].suite
  {
    copied := [];
    for i := 0 to s.Length
      invariant |copied| == i
      invariant forall k :: 0 <= k < i ==> copied[k] == SuiteRef(s, k)
    {
      copied := copied + [SuiteRef(s, i)];
    }
  }

  // ---------------------------------------------------------------------
  // Properties of the disablement evaluator
  // ---------------------------------------------------------------------

  /** An explicit `[Disabled` marker disables a test whatever skip-until tag it carries. */
  lemma DisabledMarkerDisables(name: string, now: Instant)
    requires Contains(name, DisabledMarker)
    ensures IsDisabled(name, now)
  {
  }

  /** A match of the pattern at a given offset determines its blocker id. */
  lemma TagSpanUnique(s: string, i: nat, k1: nat, k2: nat)
    requires TagSpan(s, i, k1) && TagSpan(s, i, k2)
    ensures k1 == k2
  {
  }

  /** Without any match of the pattern the test is never skipped: this covers
      7-digit or non-digit dates and empty or non-alphanumeric blocker ids. */
  lemma NoTagNeverSkips(name: string, now: Instant)
    requires forall j: nat :: !TagAt(name, j)
    ensures !ShouldSkipUntil(name, now)
  {
  }

  /** Only the leftmost match is consulted: if its date does not parse, the
      test is not skipped, whatever later tags say. */
  lemma UnparseableFirstDateNeverSkips(name: string, i: nat, now: Instant)
    requires LeftmostTagAt(name, i) && i + DateEnd <= |name|
    requires ParseMMDDYYYY(name[i + DateStart..i + DateEnd]).None?
    ensures !ShouldSkipUntil(name, now)
  {
  }

  /** For a leftmost tag with a valid date, the test is skipped exactly when
      that date is later than today's UTC date; on the date itself it runs. */
  lemma SkipIffLaterThanToday(name: string, i: nat, today: Date, nanos: int)
    requires LeftmostTagAt(name, i) && i + DateEnd <= |name|
    requires ParseMMDDYYYY(name[i + DateStart..i + DateEnd]).Some?
    requires ValidDate(today) && 0 <= nanos < NanosPerDay
    ensures ShouldSkipUntil(name, Midnight(today) + nanos)
        <==> DateBefore(today, ParseMMDDYYYY(name[i + DateStart..i + DateEnd]).value)
  {
    var d := ParseMMDDYYYY(name[i + DateStart..i + DateEnd]).value;
    var tag := FindSkipTag(name).value;
    assert tag.start == i;
    assert ShouldSkipUntil(name, Midnight(today) + nanos) <==> After(Midnight(d), Midnight(today) + nanos);
    MidnightAfterIffLaterDate(d, today, nanos);
  }

  /** Skipping only ever ends: once a test runs, it runs at every later instant. */
  lemma SkipMonotoneInTime(name: string, now: Instant, later: Instant)
    requires now <= later
    requires !ShouldSkipUntil(name, now)
    ensures !ShouldSkipUntil(name, later)
  {
  }

  /** The tag text `[SkippedUntil:<date>:blocker-bz/<blocker>]`. */
  function SkipUntilTag(date: string, blocker: string): (tag: string)
    ensures |tag| == |SkipOpen| + |date| + |BlockerInfix| + |blocker| + 1
  {
    SkipOpen + date + BlockerInfix + blocker + "]"
  }

  /** The pieces of a written tag sit at the offsets the pattern expects. */
  lemma WrittenTagSpan(pre: string, date: string, blocker: string, post: string)
    requires |date| == 8 && AllDigits(date)
    requires 1 <= |blocker| && AllAlnum(blocker)
    ensures var s := pre + SkipUntilTag(date, blocker) + post;
      && TagSpan(s, |pre|, |blocker|)
      && s[|pre| + DateStart..|pre| + DateEnd] == date
      && s[|pre| + IdStart..|pre| + IdStart + |blocker|] == blocker
  {
    var tag := SkipUntilTag(date, blocker);
    var s := pre + tag + post;
    var p := |pre|;
    assert s[p..p + |tag|] == tag;
    assert tag[..DateStart] == SkipOpen;
    assert tag[DateStart..DateEnd] == date;
    assert tag[DateEnd..IdStart] == BlockerInfix;
    assert tag[IdStart..IdStart + |blocker|] == blocker;
    assert s[p..p + DateStart] == tag[..DateStart];
    assert s[p + DateStart..p + DateEnd] == tag[DateStart..DateEnd];
    assert s[p + DateEnd..p + IdStart] == tag[DateEnd..IdStart];
    assert s[p + IdStart..p + IdStart + |blocker|] == tag[IdStart..IdStart + |blocker|];
    assert s[p + IdStart + |blocker|] == tag[IdStart + |blocker|];
  }

  /** No match can start inside a prefix that holds no `[`. */
  lemma NoTagInBracketFreePrefix(pre: string, rest: string, j: nat)
    requires forall k :: 0 <= k < |pre| ==> pre[k] != '['
    requires j < |pre|
    ensures !TagAt(pre + rest, j)
  {
    var s := pre + rest;
    if j + DateStart <= |s| {
      assert s[j..j + DateStart][0] == pre[j] != SkipOpen[0];
    }
  }

  /** A well-formed tag after a prefix without `[` is what the scanner reports,
      with its date and blocker id, whatever follows it. */
  lemma FindsWrittenTag(pre: string, date: string, blocker: string, post: string)
    requires forall k :: 0 <= k < |pre| ==> pre[k] != '['
    requires |date| == 8 && AllDigits(date)
    requires 1 <= |blocker| && AllAlnum(blocker)
    ensures FindSkipTag(pre + SkipUntilTag(date, blocker) + post) == Some(SkipTag(|pre|, date, blocker))
  {
    var s := pre + SkipUntilTag(date, blocker) + post;
    var p := |pre|;
    WrittenTagSpan(pre, date, blocker, post);
    assert TagAt(s, p);
    forall j: nat | j < p
      ensures !TagAt(s, j)
    {
      assert s == pre + (SkipUntilTag(date, blocker) + post);
      NoTagInBracketFreePrefix(pre, SkipUntilTag(date, blocker) + post, j);
    }
    var r := FindSkipTag(s).value;
    assert r.start == p;
    TagSpanUnique(s, p, |r.blocker|, |blocker|);
  }

  /** A tag written with a valid date skips the test exactly while that
      date's midnight is after `now`, in both directions. */
  lemma WrittenTagSkipsIffAfter(pre: string, d: Date, blocker: string, post: string, now: Instant)
    requires forall k :: 0 <= k < |pre| ==> pre[k] != '['
    requires ValidDate(d) && d.year < 10000
    requires 1 <= |blocker| && AllAlnum(blocker)
    ensures ShouldSkipUntil(pre + SkipUntilTag(FormatMMDDYYYY(d), blocker) + post, now)
        <==> After(Midnight(d), now)
  {
    FindsWrittenTag(pre, FormatMMDDYYYY(d), blocker, post);
    ParseFormatRoundTrip(d);
  }

  /** A first tag whose 8 digits are not a date leaves the test enabled even if
      a later tag in `post` is valid and in the future. */
  lemma WrittenBadDateNeverSkips(pre: string, date: string, blocker: string, post: string, now: Instant)
    requires forall k :: 0 <= k < |pre| ==> pre[k] != '['
    requires |date| == 8 && AllDigits(date) && ParseMMDDYYYY(date).None?
    requires 1 <= |blocker| && AllAlnum(blocker)
    ensures !ShouldSkipUntil(pre + SkipUntilTag(date, blocker) + post, now)
  {
    FindsWrittenTag(pre, date, blocker, post);
  }

  /** Standard early tests are among the standard early-or-late tests. */
  lemma StandardEarlyIsEarlyOrLate(name: string)
    requires IsStandardEarlyTest(name)
    ensures IsStandardEarlyOrLateTest(name)
  {
  }
}
