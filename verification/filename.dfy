/** `get_filename`: the output name `<md5 hex>_<unix time>_<exercise type>_<mode>.pdf`. */
module Filename {
  import opened PyValues

  /** What `hashlib.md5(...).hexdigest()` returns: 32 lower-case hexadecimal digits. */
  predicate IsHexDigest(h: string) {
    |h| == 32 && forall k :: 0 <= k < |h| ==> h[k] in "0123456789abcdef"
  }

  /** The output file name. The digest is a parameter `md5` (the MD5 hex digest of the UTF-8 url)
      and `clock` is `round(time.time())`; `worksheetType` defaults to "worksheet" as in the source. */
  function GetFilename(md5: string -> string, url: string, clock: nat, exerciseType: string,
                       worksheetType: string := "worksheet"): (r: string)
    ensures |r| > 4 && r[|r| - 4..] == ".pdf"
  {
    md5(url) + "_" + NatToDecimal(clock) + "_" + exerciseType + "_" + worksheetType + ".pdf"
  }

  /** Splits `s` at its first underscore: the part before it and the part after it
      (all of `s` and nothing when there is none). */
  function SplitAtUnderscore(s: string): (string, string) {
    if s == [] then ([], [])
    else if s[0] == '_' then ([], s[1..])
    else var (head, tail) := SplitAtUnderscore(s[1..]); ([s[0]] + head, tail)
  }

  lemma {:induction false} SplitJoined(a: string, b: string)
    requires '_' !in a
    ensures SplitAtUnderscore(a + "_" + b) == (a, b)
  {
    if a == [] {
      assert a + "_" + b == "_" + b;
    } else {
      var s := a + "_" + b;
      assert s[0] == a[0] && s[1..] == a[1..] + "_" + b;
      assert '_' !in a[1..] by {
        forall k | 0 <= k < |a[1..]| ensures a[1..][k] != '_' {
          assert a[1..][k] == a[k + 1];
        }
      }
      SplitJoined(a[1..], b);
      assert [a[0]] + a[1..] == a;
    }
  }

  /** The name can be read back: its first field is the digest and its second field the clock value,
      whatever the exercise type and mode. */
  lemma FilenameFields(md5: string -> string, url: string, clock: nat, exerciseType: string, worksheetType: string)
    requires IsHexDigest(md5(url))
    ensures var (digest, rest) := SplitAtUnderscore(GetFilename(md5, url, clock, exerciseType, worksheetType));
      var (time, tail) := SplitAtUnderscore(rest);
      digest == md5(url) && AllDigits(time) && DecimalValue(time) == clock
      && tail == exerciseType + "_" + worksheetType + ".pdf"
  {
    var h, t := md5(url), NatToDecimal(clock);
    var tail := exerciseType + "_" + worksheetType + ".pdf";
    assert GetFilename(md5, url, clock, exerciseType, worksheetType) == h + "_" + (t + "_" + tail);
    assert '_' !in h by {
      forall k | 0 <= k < |h| ensures h[k] != '_' {
        assert h[k] in "0123456789abcdef";
      }
    }
    SplitJoined(h, t + "_" + tail);
    assert '_' !in t by {
      forall k | 0 <= k < |t| ensures t[k] != '_' {
        assert IsDigit(t[k]);
      }
    }
    SplitJoined(t, tail);
    DecimalRoundTrip(clock);
  }

  /** The worksheet and answers names for the same inputs share everything up to the mode,
      and differ there. */
  lemma ModesDifferOnlyInMode(md5: string -> string, url: string, clock: nat, exerciseType: string)
    ensures var w := GetFilename(md5, url, clock, exerciseType);
      var a := GetFilename(md5, url, clock, exerciseType, "answers");
      var prefix := md5(url) + "_" + NatToDecimal(clock) + "_" + exerciseType + "_";
      w == prefix + "worksheet.pdf" && a == prefix + "answers.pdf" && w != a
  {
    var prefix := md5(url) + "_" + NatToDecimal(clock) + "_" + exerciseType + "_";
    var w := GetFilename(md5, url, clock, exerciseType);
    var a := GetFilename(md5, url, clock, exerciseType, "answers");
    assert w[|prefix|] == 'w' && a[|prefix|] == 'a';
  }

  /** The tests' expected names, for url "test.com" (whose digest they give), clock 123 and
      exercise type "test_exercise". */
  lemma TestFilenameWorksheet(md5: string -> string)
    requires md5("test.com") == "c97c1b3671fef2055e175ca2154d217a"
    ensures GetFilename(md5, "test.com", 123, "test_exercise")
      == "c97c1b3671fef2055e175ca2154d217a_123_test_exercise_worksheet.pdf"
  {
    ClockOfTests();
  }

  lemma TestFilenameAnswers(md5: string -> string)
    requires md5("test.com") == "c97c1b3671fef2055e175ca2154d217a"
    ensures GetFilename(md5, "test.com", 123, "test_exercise", "answers")
      == "c97c1b3671fef2055e175ca2154d217a_123_test_exercise_answers.pdf"
  {
    ClockOfTests();
  }

  /** The mocked clock value 123 prints as "123". */
  lemma ClockOfTests()
    ensures NatToDecimal(123) == "123"
  {
    assert NatToDecimal(1) == "1";
    assert NatToDecimal(12) == NatToDecimal(1) + [DigitChar(2)] == "12";
    assert NatToDecimal(123) == NatToDecimal(12) + [DigitChar(3)];
  }
}
