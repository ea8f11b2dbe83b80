/** The native-Korean reader `convert_kor`: counts below 50 are read with the native tens
    words 열/스물/서른/마흔 and the attributive ones words, 20 is the irregular 스무, and
    everything else (a point, a comma, or a value of 50 or more) goes to `convert_chi`. */
module NativeKorean {
  import opened Tables
  import opened SinoKorean
  import opened Numerals

  /** The digit strings the character loop of `convert_kor` can be given: every digit before the
      tens place is 0 and the tens digit is at most 4, which is what a value below 50 means. */
  predicate NativeDomain(s: string)
  {
    AllDigits(s) &&
    forall i :: 0 <= i < |s| ==> (i + 3 <= |s| ==> s[i] == '0') && (i + 2 == |s| ==> s[i] <= '4')
  }

  /** The character loop of `convert_kor` from the state where `word` has been built and `s`
      is left; `num_len` is always the number of characters left. A 0 is skipped once something
      has been written; a final 1 is 한, or 첫 for an ordinal; the tens digit takes its
      `kor_unit_dict` word; any other digit its `kor_dict` word. */
  function NativeLoop(s: string, word: string, first: bool): string
    requires NativeDomain(s)
    decreases |s|
  {
    if s == [] then word
    else
      var c := s[0];
      assert NativeDomain(s[1..]) by {
        assert forall i :: 0 <= i < |s| - 1 ==> s[1..][i] == s[i + 1];
      }
      if c == '0' && word != "" then NativeLoop(s[1..], word, first)
      else if c == '1' && |s| == 1 then NativeLoop(s[1..], word + KorOne(first), first)
      else if |s| == 2 then NativeLoop(s[1..], word + KorTens(DigitValue(c)), first)
      else NativeLoop(s[1..], word + KorOnes(DigitValue(c)), first)
  }

  /** Whether `convert_kor` hands the numeral to `convert_chi`. */
  predicate Delegates(num: string)
    requires IsNumeral(num)
  {
    PlainNumeralDigits(num);
    '.' in num || ',' in num || Value(num) >= 50
  }

  /** The reading `convert_kor` gives a numeral. */
  function NativeReading(num: string, first: bool): string
    requires IsNumeral(num)
  {
    if Delegates(num) then SinoWords(num)
    else if num == "20" then "스무"
    else
      PlainNumeralDigits(num);
      SmallValueDomain(num);
      NativeLoop(num, "", first)
  }

  /** `convert_kor`. */
  method ConvertKor(num: string, first: bool) returns (word: string)
    requires IsNumeral(num)
    ensures word == NativeReading(num, first)
  {
    PlainNumeralDigits(num);
    if '.' in num || ',' in num || Value(num) >= 50 {
      var r := ConvertChi(num);
      NumeralReadsOk(num);
      word := r.value;
    } else if num == "20" {
      word := "스무";
    } else {
      SmallValueDomain(num);
      word := "";
      var numLen := |num|;
      for i := 0 to |num|
        invariant numLen == |num| - i
        invariant NativeDomain(num[i..])
        invariant NativeLoop(num, "", first) == NativeLoop(num[i..], word, first)
      {
        var c := num[i];
        assert num[i..][0] == c && num[i..][1..] == num[i + 1..];
        if c == '0' && word != "" {
          numLen := numLen - 1;
          continue;
        } else if c == '1' && numLen == 1 {
          if first {
            word := word + "첫";
          } else {
            word := word + "한";
          }
        } else {
          if numLen == 2 {
            word := word + KorTens(DigitValue(c));
          } else {
            word := word + KorOnes(DigitValue(c));
          }
        }
        numLen := numLen - 1;
      }
      assert num[|num|..] == [];
    }
  }

  // ---------------------------------------------------------------------------
  // The domain of the character loop
  // ---------------------------------------------------------------------------

  lemma {:induction false} ValueZeroAllZeros(s: string)
    requires AllDigits(s) && Value(s) == 0
    ensures AllZeros(s)
    decreases |s|
  {
    if s != [] {
      var p := s[..|s| - 1];
      ValueZeroAllZeros(p);
      assert forall i :: 0 <= i < |p| ==> s[i] == p[i];
    }
  }

  /** A digit string whose value is below 50 is in the domain of the character loop. */
  lemma SmallValueDomain(s: string)
    requires AllDigits(s) && Value(s) < 50
    ensures NativeDomain(s)
  {
    if |s| >= 2 {
      var p := s[..|s| - 1];
      var q := p[..|p| - 1];
      assert Value(s) == 10 * Value(p) + DigitValue(s[|s| - 1]);
      assert Value(p) == 10 * Value(q) + DigitValue(p[|p| - 1]);
      ValueZeroAllZeros(q);
      forall i | 0 <= i < |s|
        ensures (i + 3 <= |s| ==> s[i] == '0') && (i + 2 == |s| ==> s[i] <= '4')
      {
        if i + 3 <= |s| {
          assert s[i] == q[i];
        }
      }
    }
  }

  // ---------------------------------------------------------------------------
  // Delegation and the irregular 스무
  // ---------------------------------------------------------------------------

  /** A numeral with a point or a comma, or of value 50 or more, gets the Sino-Korean reading. */
  lemma DelegatesToSino(num: string, first: bool)
    requires IsNumeral(num) && Delegates(num)
    ensures Ok(NativeReading(num, first)) == SinoReading(num)
  {
  }

  /** Every character the character loop writes is a native-Korean number syllable. */
  lemma {:induction false} NativeLoopWithin(s: string, word: string, first: bool)
    requires NativeDomain(s) && Within(word, NativeChars)
    ensures Within(NativeLoop(s, word, first), NativeChars)
    decreases |s|
  {
    if s != [] {
      var c := s[0];
      assert NativeDomain(s[1..]) by {
        assert forall i :: 0 <= i < |s| - 1 ==> s[1..][i] == s[i + 1];
      }
      var next :=
        if c == '0' && word != "" then word
        else if c == '1' && |s| == 1 then word + KorOne(first)
        else if |s| == 2 then word + KorTens(DigitValue(c))
        else word + KorOnes(DigitValue(c));
      assert Within(next, NativeChars) by {
        if c == '0' && word != "" {
        } else if c == '1' && |s| == 1 {
          KorOneWithin(first);
          WithinConcat(word, KorOne(first), NativeChars);
        } else if |s| == 2 {
          KorTensWithin(DigitValue(c));
          WithinConcat(word, KorTens(DigitValue(c)), NativeChars);
        } else {
          KorOnesWithin(DigitValue(c));
          WithinConcat(word, KorOnes(DigitValue(c)), NativeChars);
        }
      }
      NativeLoopWithin(s[1..], next, first);
    }
  }

  lemma KorOneWithin(first: bool)
    ensures Within(KorOne(first), NativeChars)
  {
    assert "한"[0] == NativeChars[1] && "첫"[0] == NativeChars[2];
  }

  lemma KorTensWithin(d: nat)
    requires d < 5
    ensures Within(KorTens(d), NativeChars)
  {
    assert "열"[0] == NativeChars[14];
    assert "스물"[0] == NativeChars[15] && "스물"[1] == NativeChars[16];
    assert "서른"[0] == NativeChars[17] && "서른"[1] == NativeChars[18];
    assert "마흔"[0] == NativeChars[19] && "마흔"[1] == NativeChars[20];
  }

  lemma KorOnesWithin(d: nat)
    requires d < 10 && d != 1
    ensures Within(KorOnes(d), NativeChars)
  {
    assert "영"[0] == NativeChars[0];
    assert "두"[0] == NativeChars[3];
    assert "세"[0] == NativeChars[4];
    assert "네"[0] == NativeChars[5];
    assert "다섯"[0] == NativeChars[6] && "다섯"[1] == NativeChars[7];
    assert "여섯"[0] == NativeChars[8] && "여섯"[1] == NativeChars[7];
    assert "일곱"[0] == NativeChars[9] && "일곱"[1] == NativeChars[10];
    assert "여덟"[0] == NativeChars[8] && "여덟"[1] == NativeChars[11];
    assert "아홉"[0] == NativeChars[12] && "아홉"[1] == NativeChars[13];
  }

  /** 스무 is read for "20" and for no other numeral: neither the character loop nor the
      Sino-Korean reader ever writes the syllable 무. */
  lemma SeumuOnlyForTwenty(num: string, first: bool)
    requires IsNumeral(num)
    ensures NativeReading(num, first) == "스무" <==> num == "20"
  {
    if num == "20" {
      TwentyReadsSeumu(first);
    } else if Delegates(num) {
      SinoNeverSeumu(num);
    } else {
      PlainNumeralDigits(num);
      SmallValueDomain(num);
      NativeLoopNeverSeumu(num, first);
    }
  }

  lemma SinoNeverSeumu(num: string)
    requires IsNumeral(num)
    ensures SinoWords(num) != "스무"
  {
    NotSeumu(SinoWords(num), SinoChars);
  }

  lemma NativeLoopNeverSeumu(s: string, first: bool)
    requires NativeDomain(s)
    ensures NativeLoop(s, "", first) != "스무"
  {
    NativeLoopWithin(s, "", first);
    NotSeumu(NativeLoop(s, "", first), NativeChars);
  }

  lemma TwentyReadsSeumu(first: bool)
    ensures IsNumeral("20") && NativeReading("20", first) == "스무"
  {
    assert IndexOf("20", '.') == 2;
    assert "20"[..1] == "2";
    assert Value("20") == 20;
  }

  lemma NotSeumu(w: string, alphabet: string)
    requires Within(w, alphabet) && '무' !in alphabet
    ensures w != "스무"
  {
    if |w| == 2 {
      assert w[1] in alphabet;
    }
  }

  // ---------------------------------------------------------------------------
  // Counts below 50
  // ---------------------------------------------------------------------------

  /** The decimal numeral of a number below 100, without leading zeros. */
  function Decimal(n: nat): (s: string)
    requires n < 100
    ensures AllDigits(s) && s != []
  {
    if n < 10 then [DigitChar(n)] else [DigitChar(n / 10), DigitChar(n % 10)]
  }

  /** How a count from 1 to 49 is said in native Korean: the tens word, then the ones word,
      where a ones digit 0 says nothing and a ones digit 1 is 한 (첫 for an ordinal). */
  function CountWords(n: nat, first: bool): string
    requires 1 <= n < 50
  {
    var ones := n % 10;
    KorTens(n / 10) + (if ones == 0 then "" else if ones == 1 then KorOne(first) else KorOnes(ones))
  }

  lemma DecimalNumeral(n: nat)
    requires n < 100
    ensures IsNumeral(Decimal(n)) && Value(Decimal(n)) == n
    ensures '.' !in Decimal(n) && ',' !in Decimal(n)
  {
    var s := Decimal(n);
    DigitsHaveNoSeparator(s);
    assert IndexOf(s, '.') == |s|;
    if n >= 10 {
      assert s[..1] == [DigitChar(n / 10)];
      assert Value(s[..1]) == n / 10;
      assert Value(s) == 10 * (n / 10) + n % 10;
    }
  }

  /** `convert_kor` reads every count from 1 to 49 except 20 as its tens word followed by its
      ones word: 10 is 열, 21 is 스물한, 45 is 마흔다섯. */
  lemma NativeCount(n: nat, first: bool)
    requires 1 <= n < 50 && n != 20
    ensures IsNumeral(Decimal(n)) && NativeReading(Decimal(n), first) == CountWords(n, first)
  {
    var s := Decimal(n);
    DecimalNumeral(n);
    assert s != "20";
    SmallValueDomain(s);
    if n < 10 {
      CountOneDigit(n, first);
    } else {
      CountTwoDigits(n, first);
    }
  }

  lemma CountOneDigit(n: nat, first: bool)
    requires 1 <= n < 10
    ensures NativeDomain([DigitChar(n)])
    ensures NativeLoop([DigitChar(n)], "", first) == CountWords(n, first)
  {
    var s := [DigitChar(n)];
    assert s[0] == DigitChar(n) && s[1..] == [];
    var onesWord := if n == 1 then KorOne(first) else KorOnes(n);
    assert "" + onesWord == onesWord;
    assert NativeLoop(s, "", first) == NativeLoop([], onesWord, first);
  }

  lemma CountTwoDigits(n: nat, first: bool)
    requires 10 <= n < 50
    ensures NativeDomain(Decimal(n))
    ensures NativeLoop(Decimal(n), "", first) == CountWords(n, first)
  {
    var s := Decimal(n);
    var ones := n % 10;
    var tens := KorTens(n / 10);
    var onesWord := if ones == 0 then "" else if ones == 1 then KorOne(first) else KorOnes(ones);
    assert NativeDomain(s);
    assert tens != "";
    assert s[1..] == [DigitChar(ones)] && s[1..][1..] == [];
    assert s[0] == DigitChar(n / 10) && DigitValue(s[0]) == n / 10;
    assert "" + tens == tens;
    assert NativeLoop(s, "", first) == NativeLoop(s[1..], tens, first);
    assert NativeLoop(s[1..], tens, first) == NativeLoop([], tens + onesWord, first);
  }

  /** The ordinal flag changes the reading only through a final digit 1, and then only its last
      syllable, from 한 to 첫. */
  lemma FirstChangesOnlyFinalOne(num: string)
    requires IsNumeral(num)
    ensures NativeReading(num, false) != NativeReading(num, true) <==>
      !Delegates(num) && num != "20" && num[|num| - 1] == '1'
    ensures NativeReading(num, false) != NativeReading(num, true) ==>
      var a, b := NativeReading(num, false), NativeReading(num, true);
      |a| == |b| > 0 && a[..|a| - 1] == b[..|b| - 1] && a[|a| - 1] == '한' && b[|b| - 1] == '첫'
  {
    PlainNumeralDigits(num);
    if !Delegates(num) && num != "20" {
      SmallValueDomain(num);
      NativeLoopFirst(num, "");
    }
  }

  lemma {:induction false} NativeLoopFirst(s: string, word: string)
    requires NativeDomain(s) && s != []
    ensures s[|s| - 1] != '1' ==> NativeLoop(s, word, false) == NativeLoop(s, word, true)
    ensures s[|s| - 1] == '1' ==>
      var a, b := NativeLoop(s, word, false), NativeLoop(s, word, true);
      |a| == |b| > 0 && a[..|a| - 1] == b[..|b| - 1] && a[|a| - 1] == '한' && b[|b| - 1] == '첫'
    decreases |s|
  {
    var c := s[0];
    assert NativeDomain(s[1..]) by {
      assert forall i :: 0 <= i < |s| - 1 ==> s[1..][i] == s[i + 1];
    }
    if |s| == 1 {
      if c == '1' {
        var a, b := word + "한", word + "첫";
        assert a[..|a| - 1] == word && b[..|b| - 1] == word;
      }
    } else {
      var next :=
        if c == '0' && word != "" then word
        else if |s| == 2 then word + KorTens(DigitValue(c))
        else word + KorOnes(DigitValue(c));
      assert NativeLoop(s, word, false) == NativeLoop(s[1..], next, false);
      assert NativeLoop(s, word, true) == NativeLoop(s[1..], next, true);
      assert s[1..][|s[1..]| - 1] == s[|s| - 1];
      NativeLoopFirst(s[1..], next);
    }
  }

  // ---------------------------------------------------------------------------
  // Worked readings
  // ---------------------------------------------------------------------------

  lemma ReadsTenNative()
    ensures IsNumeral("10") && NativeReading("10", false) == "열"
  {
    NativeCount(10, false);
    assert Decimal(10) == "10";
  }

  lemma ReadsTwentyOne()
    ensures IsNumeral("21") && NativeReading("21", false) == "스물한"
  {
    NativeCount(21, false);
    assert Decimal(21) == "21";
  }

  lemma ReadsFortyFive()
    ensures IsNumeral("45") && NativeReading("45", false) == "마흔다섯"
  {
    NativeCount(45, false);
    assert Decimal(45) == "45";
  }

  /** An ordinal 1 is 첫, and so is the final 1 of an ordinal 11. */
  lemma ReadsFirst()
    ensures IsNumeral("1") && NativeReading("1", true) == "첫"
    ensures IsNumeral("11") && NativeReading("11", true) == "열첫"
  {
    NativeCount(1, true);
    assert Decimal(1) == "1";
    NativeCount(11, true);
    assert Decimal(11) == "11";
  }

  /** Leading zeros are read by the character loop: the first 0 is 영, the later ones are
      skipped, so 007 reads 영일곱. */
  lemma ReadsDoubleZeroSevenNative()
    ensures IsNumeral("007") && NativeReading("007", false) == "영일곱"
  {
    var s := "007";
    assert IndexOf(s, '.') == 3;
    assert s[..2] == "00" && s[..2][..1] == "0" && "0"[..0] == [];
    assert Value("0") == 0 && Value("00") == 0;
    assert Value(s) == 7;
    PlainNumeralDigits(s);
    SmallValueDomain(s);
    assert s[1..] == "07" && s[1..][1..] == "7" && s[1..][1..][1..] == [];
    assert NativeLoop(s, "", false) == NativeLoop("07", "영", false);
    assert NativeLoop("07", "영", false) == NativeLoop("7", "영", false);
    assert NativeLoop("7", "영", false) == NativeLoop([], "영일곱", false);
  }
}
