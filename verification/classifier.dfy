/** The default path of `convert`: a number that no exception rule claims is read natively or
    Sino-Korean according to the classifier word that follows it. The classifier word (what
    `kor_clf` matched at the start of the right-hand word, if anything), the left-hand word and
    the right-hand word are inputs; the number span is a single numeral. */
module ReadingChoice {
  import opened Tables
  import opened SinoKorean
  import opened Numerals
  import opened NativeKorean

  /** The digits of a numeral before its point, commas removed. */
  function IntegerPart(n: string): (i: string)
    requires IsNumeral(n)
    ensures i != [] && AllDigits(i)
  {
    var k := IndexOf(n, '.');
    assert n[..|n|] == n;
    GroupedIntegerDigits(n[..k]);
    RemoveCommas(n[..k])
  }

  /** The digits of a numeral after its point; empty when there is no point. */
  function FractionPart(n: string): (f: string)
    requires IsNumeral(n)
    ensures AllDigits(f)
  {
    var k := IndexOf(n, '.');
    if k == |n| then "" else n[k + 1..]
  }

  /** `float(n) > 12` on the numeral with its commas removed, compared as an exact decimal. */
  predicate AboveTwelve(n: string)
    requires IsNumeral(n)
  {
    var v := Value(IntegerPart(n));
    v > 12 || (v == 12 && !AllZeros(FractionPart(n)))
  }

  /** What the default path of `convert` makes of the numeral `n`. No classifier: `convert_chi`.
      시: a value above 12 is replaced by its `convert_chi` reading, found by searching for the
      comma-free text, which only occurs in a numeral without commas; what is left goes to
      `convert_kor`. 시간: the text 24 becomes 이십사. Otherwise a right-hand word with 장 after a
      left-hand word with 제 takes `convert_chi`. Everything that still holds digits then goes
      to `convert_kor`; a Sino-Korean reading holds none, so it is kept as it is. */
  function DefaultReading(clf: Option<string>, left: string, right: string, n: string): (r: string)
    requires IsNumeral(n)
    ensures r == SinoWords(n) || r == NativeReading(n, false)
  {
    match clf
    case None => SinoWords(n)
    case Some(w) =>
      if w == "시" then
        if AboveTwelve(n) && RemoveCommas(n) == n then SinoWords(n) else NativeReading(n, false)
      else if w == "시간" then
        if n == "24" then TwentyFourReadsSino(); "이십사" else NativeReading(n, false)
      else if '장' in right && '제' in left then SinoWords(n)
      else NativeReading(n, false)
  }

  /** When the default path reads Sino-Korean, stated without reference to the order of the
      branches: no classifier; 시 above 12; 24 with 시간; 장 after 제 under any other classifier;
      or a numeral `convert_kor` itself hands to `convert_chi`. */
  predicate ReadsSino(clf: Option<string>, left: string, right: string, n: string)
    requires IsNumeral(n)
  {
    Delegates(n) ||
    match clf
    case None => true
    case Some(w) =>
      if w == "시" then AboveTwelve(n)
      else if w == "시간" then n == "24"
      else '장' in right && '제' in left
  }

  /** The default path gives the Sino-Korean reading exactly in the ReadsSino cases and the
      native reading otherwise. */
  lemma DefaultReadingChoice(clf: Option<string>, left: string, right: string, n: string)
    requires IsNumeral(n)
    ensures DefaultReading(clf, left, right, n) ==
      if ReadsSino(clf, left, right, n) then SinoWords(n) else NativeReading(n, false)
  {
    if Delegates(n) {
      DelegatedIgnoresClassifier(clf, left, right, n);
    } else if clf == Some("시") {
      ClockHours(left, right, n);
    } else if clf == Some("시간") {
      Hours(left, right, n);
    }
  }

  /** A numeral with a point or a comma, or of value 50 or more, reads Sino-Korean whatever
      classifier follows it. */
  lemma DelegatedIgnoresClassifier(clf: Option<string>, left: string, right: string, n: string)
    requires IsNumeral(n) && Delegates(n)
    ensures DefaultReading(clf, left, right, n) == SinoWords(n)
  {
    DelegatesToSino(n, false);
  }

  /** With 시, a time above 12 reads Sino-Korean and one at 12 or below natively; the comma test
      of the search makes no difference, since `convert_kor` reads a comma numeral Sino-Korean. */
  lemma ClockHours(left: string, right: string, n: string)
    requires IsNumeral(n)
    ensures DefaultReading(Some("시"), left, right, n) ==
      if AboveTwelve(n) then SinoWords(n) else NativeReading(n, false)
  {
    if ',' in n {
      DelegatesToSino(n, false);
    } else {
      RemoveCommasNoComma(n);
    }
  }

  /** For a numeral without point or comma, `float(n) > 12` is the integer comparison. */
  lemma PlainAboveTwelve(n: string)
    requires IsNumeral(n) && '.' !in n && ',' !in n
    ensures AboveTwelve(n) <==> Value(n) > 12
  {
    assert IndexOf(n, '.') == |n|;
    assert n[..|n|] == n;
    RemoveCommasNoComma(n);
  }

  /** With 시, an hour from 0 to 12 is read by the native character loop, never Sino-Korean. */
  lemma ClockHoursNative(left: string, right: string, n: string)
    requires IsNumeral(n) && '.' !in n && ',' !in n
    ensures Value(n) > 12 ==> DefaultReading(Some("시"), left, right, n) == SinoWords(n)
    ensures Value(n) <= 12 ==>
      (!Delegates(n) && DefaultReading(Some("시"), left, right, n) == NativeReading(n, false))
  {
    PlainAboveTwelve(n);
    ClockHours(left, right, n);
    PlainNumeralDigits(n);
  }

  /** With 시간, the text 24 is read 이십사, which is its Sino-Korean reading; any other numeral
      is read as `convert_kor` reads it. */
  lemma Hours(left: string, right: string, n: string)
    requires IsNumeral(n)
    ensures DefaultReading(Some("시간"), left, right, n) ==
      if n == "24" then SinoWords(n) else NativeReading(n, false)
  {
    if n == "24" {
      TwentyFourReadsSino();
    }
  }

  lemma TwentyFourReadsSino()
    ensures IsNumeral("24") && SinoWords("24") == "이십사"
  {
    assert IndexOf("24", '.') == 2;
    assert "24"[..1] == "2";
    assert Value("24") == 24;
    GroupsFromStep(24, 0);
    FourPlaces(24, 2, 0, 0);
    IntegerReadsAs("24", 24, "이십사");
  }

  // ---------------------------------------------------------------------------
  // Worked readings
  // ---------------------------------------------------------------------------

  lemma ThirteenReadsSino()
    ensures IsNumeral("13") && SinoWords("13") == "십삼"
  {
    assert IndexOf("13", '.') == 2;
    assert "13"[..1] == "1";
    assert Value("13") == 13;
    GroupsFromStep(13, 0);
    FourPlaces(13, 1, 0, 0);
    IntegerReadsAs("13", 13, "십삼");
  }

  lemma ThreeReadsSino()
    ensures IsNumeral("3") && SinoWords("3") == "삼"
  {
    assert IndexOf("3", '.') == 1;
    assert "3"[..0] == [];
    assert Value("3") == 3;
    GroupsFromStep(3, 0);
    FourPlaces(3, 0, 0, 0);
    IntegerReadsAs("3", 3, "삼");
  }

  /** 13 시 is 십삼 시. */
  lemma ClockThirteen()
    ensures IsNumeral("13") && DefaultReading(Some("시"), "", "시", "13") == "십삼"
  {
    ThirteenReadsSino();
    ClockHoursNative("", "시", "13");
  }

  /** 12 시 is 열두 시. */
  lemma ClockTwelve()
    ensures IsNumeral("12") && DefaultReading(Some("시"), "", "시", "12") == "열두"
  {
    var s := Decimal(12);
    NativeCount(12, false);
    DecimalNumeral(12);
    ClockHoursNative("", "시", s);
    assert CountWords(12, false) == "열두";
    assert s == "12";
  }

  /** 5 시 is 다섯 시. */
  lemma ClockFive()
    ensures IsNumeral("5") && DefaultReading(Some("시"), "", "시", "5") == "다섯"
  {
    var s := Decimal(5);
    NativeCount(5, false);
    DecimalNumeral(5);
    ClockHoursNative("", "시", s);
    assert CountWords(5, false) == "다섯";
    assert s == "5";
  }

  /** 24 시간 is 이십사 시간. */
  lemma HoursTwentyFour()
    ensures IsNumeral("24") && DefaultReading(Some("시간"), "", "시간", "24") == "이십사"
  {
    TwentyFourReadsSino();
  }

  /** 3 시간 is 세 시간. */
  lemma HoursThree()
    ensures IsNumeral("3") && DefaultReading(Some("시간"), "", "시간", "3") == "세"
  {
    NativeCount(3, false);
    assert Decimal(3) == "3";
    Hours("", "시간", "3");
  }

  /** 제 3 장 is 제 삼 장; 3 장 is 세 장; a 3 with no classifier is 삼. */
  lemma ChapterExamples()
    ensures IsNumeral("3") && DefaultReading(Some("장"), "제", "장", "3") == "삼"
    ensures IsNumeral("3") && DefaultReading(Some("장"), "", "장", "3") == "세"
    ensures IsNumeral("3") && DefaultReading(None, "", "", "3") == "삼"
  {
    ThreeReadsSino();
    NativeCount(3, false);
    assert Decimal(3) == "3";
  }
}
