# openshift-tests suite selection, modelled in Dafny

This project models the part of the `openshift-tests` binary that decides
which end-to-end tests belong to which named suite, and with what execution
policy a suite runs:

- **Disablement** (`pkg/openshifttests/e2e.go`). `IsDisabled` rejects a test
  whose name contains `[Disabled`, or whose leftmost
  `[SkippedUntil:MMDDYYYY:blocker-bz/ID]` tag carries a valid date that is
  still in the future. The regular expression is replaced by a scanner
  (`OpenshiftTests.FindSkipTag`) that is proved to return the leftmost
  match and its two submatches. `time.Parse("01022006", …)` becomes
  `Calendar.ParseMMDDYYYY`, with Go's month and day range checks and the
  Gregorian leap-year rule. The parsed date is turned into its midnight-UTC
  instant. The current time is a parameter `now`: an integer count of
  nanoseconds since 0000-01-01T00:00:00Z.
- **Standard early/late tests**. `IsStandardEarlyTest` and
  `IsStandardEarlyOrLateTest` are modelled as predicates over
  `strings.Contains`, which becomes `Strings.Contains`.
- **The suite record and `TestSuites()`**.
  - A Go slice `TestSuites` becomes an `array<TestSuite<M>>`.
  - A pointer `&s[i].TestSuite` becomes `SuiteRef(s, i)`.
  - `TestSuites()` is a loop that appends one reference per element. It is
    proved to return one reference per element, in order, each pointing
    into the same array.
- **The static registry** (`cmd/openshift-tests/main.go`).
  - `Suites.StaticSuites` lists every suite in declaration order, with its
    parallelism, flake tolerance, timeout in minutes, repeat count,
    invariant set, PreSuite hook and PostSuite hook.
  - Each `Matches` closure becomes a constructor of `Suites.Matcher`.
    `Suites.Matches` gives that constructor the closure's meaning, branch
    for branch.
  - The registry declares **22** suites (not 21), and the model has all of them.
  - Fields a suite leaves unset keep Go's zero value: 0, or "no invariant
    check". Turning a 0 into the execution engine's default (for example a
    repeat count of 1) happens outside this code.

The modules are:

- `Options`: an option type;
- `Strings`: containment;
- `Calendar`: date parsing and day numbers;
- `OpenshiftTests`: e2e.go;
- `OpenshiftTestsExamples`: worked examples on concrete names;
- `Suites`: main.go.

## Model

| member | source | states |
|---|---|---|
| Calendar.DaysIn | pkg/openshifttests/e2e.go:48 | Gregorian month lengths: 31 for January, March, May, July, August, October and December; 30 for April, June, September and November; 29 for February of a leap year and 28 otherwise |
| Calendar.ParseMMDDYYYY | pkg/openshifttests/e2e.go:48 | time.Parse with layout "01022006": anything but 8 digits is an error, and a result is always a valid date of a four-digit year (month 1..12, day within the month) |
| Calendar.Midnight | pkg/openshifttests/e2e.go:48 | definition: the parsed time is midnight UTC of the date, as nanoseconds since 0000-01-01T00:00Z |
| Calendar.After | pkg/openshifttests/e2e.go:53 | definition: time.Time.After is strict order on instants |
| Calendar.ParseFormatRoundTrip | pkg/openshifttests/e2e.go:48 | every valid date of a four-digit year, written as MMDDYYYY, parses back to itself |
| Calendar.FormatParseRoundTrip | pkg/openshifttests/e2e.go:48 | a successful parse yields a valid date whose MMDDYYYY text is exactly the input |
| Calendar.DayNumberOrder | pkg/openshifttests/e2e.go:48-53 | the day count since 0000-01-01 orders valid dates chronologically and is injective |
| Calendar.MidnightAfterIffLaterDate | pkg/openshifttests/e2e.go:53 | the parsed midnight is after an instant of day `today` iff the date is later than `today` (the same day is not after) |
| OpenshiftTests.TagSpan | pkg/openshifttests/e2e.go:37 | definition: the regular expression `\[SkippedUntil:(\d{8}):blocker-bz\/([a-zA-Z0-9]+)\]` matches at an offset with an id of a given length |
| OpenshiftTests.ShouldSkipUntil | pkg/openshifttests/e2e.go:36-57 | definition: no match, or a date that does not parse, gives false; otherwise true iff the date's midnight is after `now` |
| OpenshiftTests.IsDisabled | pkg/openshifttests/e2e.go:19-25 | definition: a `[Disabled` marker gives true; otherwise the skip-until result |
| OpenshiftTests.IsStandardEarlyTest | pkg/openshifttests/e2e.go:80-85 | definition: the name contains `[Early]` and the parallel conformance tag |
| OpenshiftTests.IsStandardEarlyOrLateTest | pkg/openshifttests/e2e.go:89-94 | definition: the name contains `[Early]` or `[Late]`, and the parallel conformance tag |
| OpenshiftTests.TagLengthAt | pkg/openshifttests/e2e.go:37 | returns a blocker-id length iff the skip-until pattern matches at that offset |
| OpenshiftTests.FindTagFrom | pkg/openshifttests/e2e.go:43 | returns the first offset at or after `from` where the pattern matches, or None if there is none |
| OpenshiftTests.FindSkipTag | pkg/openshifttests/e2e.go:43-46 | FindStringSubmatch: None iff there is no match; otherwise the leftmost match, its 8-digit date submatch and its non-empty alphanumeric id submatch |
| OpenshiftTests.TagSpanUnique | pkg/openshifttests/e2e.go:37 | a match at a given offset has exactly one id length (the id group is followed by `]`) |
| OpenshiftTests.DisabledMarkerDisables | pkg/openshifttests/e2e.go:19-25 | a `[Disabled` marker disables the test whatever else the name holds |
| OpenshiftTests.NoTagNeverSkips | pkg/openshifttests/e2e.go:43-46 | no match (wrong digit count, missing or non-alphanumeric id) means no skip |
| OpenshiftTests.UnparseableFirstDateNeverSkips | pkg/openshifttests/e2e.go:43-51 | if the leftmost match's date is not a calendar date, the test is not skipped (fail-open) |
| OpenshiftTests.SkipIffLaterThanToday | pkg/openshifttests/e2e.go:48-56 | with a valid leftmost date, the test is skipped iff that date is later than today's UTC date |
| OpenshiftTests.SkipMonotoneInTime | pkg/openshifttests/e2e.go:53-56 | once a test is no longer skipped, it stays unskipped at every later instant |
| OpenshiftTests.WrittenTagSpan | pkg/openshifttests/e2e.go:30-37 | a written tag `[SkippedUntil:<date>:blocker-bz/<id>]` matches the pattern at its own offset, with its date and id as submatches |
| OpenshiftTests.FindsWrittenTag | pkg/openshifttests/e2e.go:37-46 | after a prefix without `[`, a well-formed tag is the match reported, whatever follows it |
| OpenshiftTests.WrittenTagSkipsIffAfter | pkg/openshifttests/e2e.go:27-57 | a written tag with a valid date skips the test iff the date's midnight is after `now` |
| OpenshiftTests.WrittenBadDateNeverSkips | pkg/openshifttests/e2e.go:43-51 | a first tag whose 8 digits are not a date keeps the test enabled, even when a later tag would skip it |
| OpenshiftTests.StandardEarlyIsEarlyOrLate | pkg/openshifttests/e2e.go:80-94 | every standard early test is a standard early-or-late test |
| OpenshiftTests.TestSuites | pkg/openshifttests/e2e.go:70-76 | one reference per element, in order, each into the same backing array and dereferencing to that element's embedded suite |
| OpenshiftTestsExamples.SevenDigitTagNotDisabled | pkg/openshifttests/e2e.go:36-46 | a tag with a 7-digit date does not disable the test at any instant |
| OpenshiftTestsExamples.EarlyOrLateExamples | pkg/openshifttests/e2e.go:89-94 | `[Early]` with the parallel conformance tag is standard; `[Early]` alone is not |
| OpenshiftTestsExamples.DateValidationExamples | pkg/openshifttests/e2e.go:48-51 | month 00 or 13, day 00, 04/31, 02/29 of 2023 and of 1900, and a 7-character date are rejected; 02/29 of 2000 and of 2024 parse |
| OpenshiftTestsExamples.SkipUntilExample | pkg/openshifttests/e2e.go:27-35 | the documented tag `[SkippedUntil:05092022:blocker-bz/123456]` disables the test exactly on the days before 9 May 2022 |
| OpenshiftTestsExamples.FirstTagDecidesExample | pkg/openshifttests/e2e.go:43-51 | only the first tag is read: month 13 there keeps the test enabled despite a later tag in 2099 |
| Suites.Matches | cmd/openshift-tests/main.go:28-420 | definition: the `Matches` closure of each of the 22 suites, branch for branch, with `Minimal`, `InCNISuite` and the current instant taken from the environment |
| Suites.StaticSuites | cmd/openshift-tests/main.go:21-426 | definition: the 22 suite records in declaration order, with name, matcher, parallelism, flakes, timeout in minutes, count, invariant set and hooks |
| Suites.PolicyOfSuite | cmd/openshift-tests/main.go:21-426 | definition: a suite's policy is its parallelism, flakes, timeout, count and invariant set |
| Suites.PolicyOf | cmd/openshift-tests/main.go:21-426 | definition: the policy of the first suite with the given name, or none |
| Suites.RegisteredTestSuites | cmd/openshift-tests/main.go:16-21 | `TestSuites()` applied to the registry laid out in an array: 22 references, one per suite in declaration order, each dereferencing to that suite |
| Suites.IndexOfSuite | cmd/openshift-tests/main.go:20-21 | returns the position of the first suite with that name, or None iff no suite has it |
| Suites.StaticSuiteNamesDistinct | cmd/openshift-tests/main.go:21-426 | the registry has 22 suites and no two share a name |
| Suites.LookupFindsEachSuite | cmd/openshift-tests/main.go:21-426 | in a registry with distinct names, looking up a suite's own name finds that suite |
| Suites.PolicyLookup | cmd/openshift-tests/main.go:21-426 | a name has a policy iff some registered suite carries it, and that policy is the suite's own |
| Suites.DeclaredPolicies | cmd/openshift-tests/main.go:39-409 | the declared parallelism, flakes, timeout, count and invariants of parallel, build, network/stress, disruptive, etcd/recovery and all; all has the initialized-provider hook |
| Suites.PermissiveInvariantSuites | cmd/openshift-tests/main.go:74-409 | only openshift/disruptive and openshift/etcd/recovery use SystemEventInvariants |
| Suites.PreSuiteHooks | cmd/openshift-tests/main.go:21-426 | test-cmd alone uses the no-provider hook; csi and reliability/minimal alone initialise the test framework; `all` alone only loads the provider |
| Suites.OnlyCsiHasPostSuite | cmd/openshift-tests/main.go:272-299 | openshift/csi is the one suite with a PostSuite hook |
| Suites.DisabledExcludedExceptFromAll | cmd/openshift-tests/main.go:21-426 | every suite except `all` rejects every disabled test |
| Suites.AllAcceptsEverything | cmd/openshift-tests/main.go:362-373 | `all` accepts every test, disabled ones included |
| Suites.ConformancePartition | cmd/openshift-tests/main.go:22-255 | conformance and conformance-excluded split the enabled tests between them exactly; both reject disabled tests |
| Suites.ConformanceTagInSubsuiteTags | cmd/openshift-tests/main.go:28-67 | the parallel and serial tags contain the conformance tag |
| Suites.StandardEarlyLateIsConformance | pkg/openshifttests/e2e.go:89-94 | a standard early-or-late test carries the conformance tag |
| Suites.SubsuitesOfConformance | cmd/openshift-tests/main.go:22-361 | parallel, serial, network/stress and reliability/minimal select only tests that openshift/conformance selects |
| Suites.CarveOutsOverride | cmd/openshift-tests/main.go:74-326 | a hard-coded exclusion (machine health check, `[Local]`, any-volume data source, `[Disruptive]`, NetworkPolicy, `[Serial:Self]`) wins over every inclusion |
| Suites.StandardEarlyLateInjected | cmd/openshift-tests/main.go:57-409 | the 11 suites that OR in IsStandardEarlyOrLateTest accept every enabled standard early/late test that none of their exclusions hits |
| Suites.DisruptiveTakesStandardEarly | cmd/openshift-tests/main.go:74-97 | openshift/disruptive takes every enabled standard early test that is not the excluded machine-health-check test |
| Suites.DisruptiveLateOnlyViaFeatures | cmd/openshift-tests/main.go:74-97 | a disruptive test without `[Early]` carries `[Feature:EtcdRecovery]` or `[Feature:NodeRecovery]` |
| Suites.MinimalMembership | cmd/openshift-tests/main.go:342-361 | reliability/minimal holds exactly the curated, enabled parallel-conformance tests; each is also in conformance/parallel |

## Left out

- The bodies of the PreSuite hooks (`pkg/openshifttests/e2e.go:96-135`):
  - they decode provider configuration and initialise the Kubernetes test framework through code that is not part of this model;
  - the model records only which hook each suite names.
- The PostSuite body `PrintStorageCapabilities` writes to an output stream; only its presence is modelled.
- `main` and `openshifttests.Main` are not part of this model.
- Suite descriptions (`templates.LongDesc` text) are free text and have no behaviour.
- `ginkgo.JUnitForEventsFunc` and the invariant functions themselves are not part of this model. A suite's invariant field records only which invariant set it wraps, or none.
- Inputs that come from outside are parameters of `Suites.Env`:
  - `openshifttests.Minimal` becomes its key set;
  - `openshifttests.InCNISuite` is a caller-supplied predicate;
  - `time.Now()` becomes the instant `now`.
- Timeouts are whole minutes, not `time.Duration`; every timeout in the registry is a whole number of minutes.
- The `PreTest` field of `TestSuite` is left out: no registered suite sets it.
- The error branch of `regexp.Compile` (`pkg/openshifttests/e2e.go:38-42`) is left out. The pattern is a constant that compiles, so the branch is dead.
- Go strings are byte sequences; the model uses sequences of characters. Every tag involved is ASCII, so the two agree on valid UTF-8 names. Invalid UTF-8 is not modelled.
- OpenshiftTests.TestSuites: the slice's capacity and growth are not modelled; the result is a sequence of references.
- Suites.DeclaredPolicies states six representative suites by name. The policies of the other sixteen are stated only by the `StaticSuites` table itself.
