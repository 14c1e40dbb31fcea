/** Worked examples of the disablement evaluator and the early/late helpers,
    on concrete test names. */
module OpenshiftTestsExamples {
  import opened Options
  import opened Strings
  import opened Calendar
  import opened OpenshiftTests

  /** A 7-digit date is not a skip-until tag, so the test is not disabled at any instant. */
  lemma SevenDigitTagNotDisabled(now: Instant)
    ensures !IsDisabled("test [SkippedUntil:1234567:blocker-bz/123]", now)
  {
    var n := "test [SkippedUntil:1234567:blocker-bz/123]";
    MissingCharNotContained(n, DisabledMarker, 1);
    forall j: nat
      ensures !TagAt(n, j)
    {
      if j + IdStart <= |n| {
        if j == 5 {
          assert n[j + DateStart..j + DateEnd][7] == n[26] == ':';
        } else {
          assert n[j..j + DateStart][0] == n[j] != '[';
        }
      }
    }
    NoTagNeverSkips(n, now);
  }

  /** "foo [Early] [Suite:openshift/conformance/parallel]" is a standard
      early-or-late test; "foo [Early]" is not. */
  lemma EarlyOrLateExamples()
    ensures IsStandardEarlyOrLateTest("foo " + EarlyTag + " " + ConformanceParallelTag + "]")
    ensures !IsStandardEarlyOrLateTest("foo " + EarlyTag)
  {
    var n := "foo " + EarlyTag + " " + ConformanceParallelTag + "]";
    ContainsPiece("foo ", EarlyTag, " " + ConformanceParallelTag + "]");
    assert n == "foo " + EarlyTag + (" " + ConformanceParallelTag + "]");
    ContainsPiece("foo " + EarlyTag + " ", ConformanceParallelTag, "]");
    ShorterNotContained("foo " + EarlyTag, ConformanceParallelTag);
  }

  /** Month 00 or 13, day 00, April 31 and February 29 of a common year are
      parse errors; February 29 of a leap year parses. */
  lemma DateValidationExamples()
    ensures ParseMMDDYYYY("00012024").None?
    ensures ParseMMDDYYYY("13012024").None?
    ensures ParseMMDDYYYY("01002024").None?
    ensures ParseMMDDYYYY("04312024").None?
    ensures ParseMMDDYYYY("02292023").None?
    ensures ParseMMDDYYYY("02291900").None?
    ensures ParseMMDDYYYY("02292000") == Some(Date(2000, 2, 29))
    ensures ParseMMDDYYYY("02292024") == Some(Date(2024, 2, 29))
    ensures ParseMMDDYYYY("0509202").None?
  {
  }

  /** `x [SkippedUntil:05092022:blocker-bz/123456]` is disabled on every day
      up to 8 May 2022 and no longer from midnight of 9 May 2022 on. */
  lemma SkipUntilExample(today: Date, nanos: int)
    requires ValidDate(today) && 0 <= nanos < NanosPerDay
    ensures IsDisabled("x " + SkipUntilTag("05092022", "123456"), Midnight(today) + nanos)
        <==> DateBefore(today, Date(2022, 5, 9))
  {
    var n := "x " + SkipUntilTag("05092022", "123456");
    var d := Date(2022, 5, 9);
    assert FormatMMDDYYYY(d) == "05092022";
    assert n == "x " + SkipUntilTag(FormatMMDDYYYY(d), "123456") + "";
    MissingCharNotContained(n, DisabledMarker, 1);
    WrittenTagSkipsIffAfter("x ", d, "123456", "", Midnight(today) + nanos);
    MidnightAfterIffLaterDate(d, today, nanos);
  }

  /** Only the first tag counts: month 13 in it keeps the test enabled although
      the second tag names a date far in the future. */
  lemma FirstTagDecidesExample(now: Instant)
    ensures !ShouldSkipUntil("x " + SkipUntilTag("13012099", "1") + " " + SkipUntilTag("01012099", "2"), now)
  {
    var first := "x " + SkipUntilTag("13012099", "1");
    assert first + " " + SkipUntilTag("01012099", "2") == first + (" " + SkipUntilTag("01012099", "2"));
    assert ParseMMDDYYYY("13012099").None?;
    WrittenBadDateNeverSkips("x ", "13012099", "1", " " + SkipUntilTag("01012099", "2"), now);
  }
}
