/** The numerals the converter hands to its readers: the language of `pat_num`
    (`\d+(,\d{3})*(\.\d+)?`). Every such numeral has a Sino-Korean reading, and that reading
    is made of Hangul syllables only. */
module Numerals {
  import opened Tables
  import opened IdentifierReaders
  import opened SinoKorean

  /** `\d+(,\d{3})*`: digits, then any number of comma-separated groups of three. */
  predicate IsGroupedInteger(s: string)
    decreases |s|
  {
    |s| > 0 &&
    (AllDigits(s) ||
     (|s| >= 5 && s[|s| - 4] == ',' && AllDigits(s[|s| - 3..]) && IsGroupedInteger(s[..|s| - 4])))
  }

  /** A full match of `pat_num`: a grouped integer, optionally a point and one or more digits. */
  predicate IsNumeral(s: string)
  {
    var k := IndexOf(s, '.');
    if k == |s| then IsGroupedInteger(s)
    else IsGroupedInteger(s[..k]) && k + 1 < |s| && AllDigits(s[k + 1..])
  }

  lemma {:induction false} RemoveCommasAppend(a: string, b: string)
    ensures RemoveCommas(a + b) == RemoveCommas(a) + RemoveCommas(b)
  {
    if a == [] {
      assert a + b == b;
    } else {
      var h := if a[0] == ',' then [] else [a[0]];
      assert (a + b)[0] == a[0] && (a + b)[1..] == a[1..] + b;
      assert RemoveCommas(a + b) == h + RemoveCommas(a[1..] + b);
      assert RemoveCommas(a) == h + RemoveCommas(a[1..]);
      RemoveCommasAppend(a[1..], b);
      ConcatAssoc(h, RemoveCommas(a[1..]), RemoveCommas(b));
    }
  }

  lemma DigitsHaveNoSeparator(s: string)
    requires AllDigits(s)
    ensures ',' !in s && '.' !in s
  {
    assert forall i :: 0 <= i < |s| ==> s[i] != ',' && s[i] != '.';
  }

  /** Removing the commas from a grouped integer leaves a nonempty digit string. */
  lemma {:induction false} GroupedIntegerDigits(s: string)
    requires IsGroupedInteger(s)
    ensures '.' !in s
    ensures RemoveCommas(s) != [] && AllDigits(RemoveCommas(s))
    decreases |s|
  {
    if AllDigits(s) {
      DigitsHaveNoSeparator(s);
      RemoveCommasNoComma(s);
    } else {
      var p, t := s[..|s| - 4], s[|s| - 3..];
      GroupedIntegerDigits(p);
      assert s == p + ([','] + t);
      AppendGroup(p, t);
    }
  }

  /** One more comma-separated group keeps the numeral free of points and its digits digits. */
  lemma AppendGroup(p: string, t: string)
    requires '.' !in p && AllDigits(RemoveCommas(p)) && AllDigits(t)
    ensures '.' !in p + ([','] + t)
    ensures RemoveCommas(p + ([','] + t)) == RemoveCommas(p) + t
    ensures AllDigits(RemoveCommas(p) + t)
  {
    DigitsHaveNoSeparator(t);
    RemoveCommasNoComma(t);
    assert ([','] + t)[0] == ',' && ([','] + t)[1..] == t;
    assert RemoveCommas([','] + t) == t;
    RemoveCommasAppend(p, [','] + t);
    DigitsConcat(RemoveCommas(p), t);
  }

  lemma DigitsConcat(a: string, b: string)
    requires AllDigits(a) && AllDigits(b)
    ensures AllDigits(a + b)
  {
    assert forall i :: |a| <= i < |a + b| ==> (a + b)[i] == b[i - |a|];
  }

  /** A numeral without a point or a comma is a plain digit string. */
  lemma PlainNumeralDigits(s: string)
    requires IsNumeral(s)
    ensures '.' !in s && ',' !in s ==> AllDigits(s) && s != []
  {
    if '.' !in s && ',' !in s {
      assert IndexOf(s, '.') == |s|;
      GroupedIntegerDigits(s);
      RemoveCommasNoComma(s);
    }
  }

  /** The integer branch of `convert_chi` never fails on a nonempty digit string. */
  lemma IntegerWordsOk(n1: string)
    requires n1 != [] && AllDigits(n1)
    ensures IntegerWords(n1).Ok?
  {
  }

  /** `convert_chi` reads every numeral: none of its error cases can arise. */
  lemma NumeralReadsOk(s: string)
    requires IsNumeral(s)
    ensures SinoReading(s).Ok?
  {
    var k := IndexOf(s, '.');
    if k == |s| {
      GroupedIntegerDigits(s);
      IntegerWordsOk(RemoveCommas(s));
    } else {
      var f := s[k + 1..];
      DigitsHaveNoSeparator(f);
      GroupedIntegerDigits(s[..k]);
      IntegerWordsOk(RemoveCommas(s[..k]));
    }
  }

  // ---------------------------------------------------------------------------
  // The alphabet of a Sino-Korean reading
  // ---------------------------------------------------------------------------

  lemma WithinConcat(a: string, b: string, alphabet: string)
    requires Within(a, alphabet) && Within(b, alphabet)
    ensures Within(a + b, alphabet)
  {
    assert forall i :: |a| <= i < |a + b| ==> (a + b)[i] == b[i - |a|];
  }

  lemma ChiCharsAreSino(d: nat)
    requires d < 10
    ensures ChiChars[d] in SinoChars
  {
    assert ChiChars[d] == SinoChars[d + 1];
  }

  lemma DigitAtPlaceWithin(d: nat, p: nat)
    requires d < 10
    ensures Within(DigitAtPlace(d, p), SinoChars)
  {
    if d != 0 && p <= 3 {
      ChiCharsAreSino(d);
      assert PlaceName(1)[0] == SinoChars[11];
      assert PlaceName(2)[0] == SinoChars[12];
      assert PlaceName(3)[0] == SinoChars[13];
    }
  }

  lemma {:induction false} UnitFromWithin(a: nat, p: nat)
    ensures Within(UnitFrom(a, p), SinoChars)
    decreases a
  {
    if a != 0 {
      UnitFromWithin(a / 10, p + 1);
      DigitAtPlaceWithin(a % 10, p);
      WithinConcat(UnitFrom(a / 10, p + 1), DigitAtPlace(a % 10, p), SinoChars);
    }
  }

  lemma GroupWordWithin(b: nat, k: nat)
    ensures Within(GroupWord(b, k), SinoChars)
  {
    if b != 0 && k <= 5 {
      var w := UnitReading(b);
      UnitFromWithin(b, 0);
      if k >= 1 {
        assert TierName(k)[0] == SinoChars[13 + k];
        WithinConcat(w, TierName(k), SinoChars);
      }
    }
  }

  lemma {:induction false} GroupsFromWithin(a: nat, k: nat)
    ensures Within(GroupsFrom(a, k), SinoChars)
    decreases a
  {
    if a != 0 {
      GroupsFromWithin(a / 10000, k + 1);
      GroupWordWithin(a % 10000, k);
      WithinConcat(GroupsFrom(a / 10000, k + 1), GroupWord(a % 10000, k), SinoChars);
    }
  }

  lemma {:induction false} RepeatWithin(k: nat)
    ensures Within(Repeat("영", k), SinoChars)
  {
    if k > 0 {
      RepeatWithin(k - 1);
      assert "영"[0] == SinoChars[0];
      WithinConcat("영", Repeat("영", k - 1), SinoChars);
    }
  }

  lemma IntegerWordsWithin(n1: string)
    requires n1 != [] && AllDigits(n1)
    ensures Within(IntegerWords(n1).value, SinoChars)
  {
    if AllZeros(n1) {
      RepeatWithin(|n1|);
    } else if n1[0] == '0' {
      var r := DigitCode(n1);
      forall i | 0 <= i < |r| ensures r[i] in SinoChars {
        ChiCharsAreSino(DigitValue(n1[i]));
      }
    } else {
      GroupsFromWithin(Value(n1), 0);
    }
  }

  lemma FractionWithin(f: string)
    requires AllDigits(f)
    ensures Within(FractionReading(f).value, SinoChars)
  {
    var w := FractionWords(f).value;
    forall i | 0 <= i < |w| ensures w[i] in SinoChars {
      var d := DigitValue(f[i]);
      if d == 0 {
        assert w[i] == SinoChars[0];
      } else {
        ChiCharsAreSino(d);
      }
    }
    assert "쩜"[0] == SinoChars[19];
    WithinConcat("쩜", w, SinoChars);
  }

  /** The reading of a numeral uses only the Sino-Korean digit, place and tier syllables, 영 and
      쩜: no digit of the numeral survives it. */
  lemma NumeralReadingWithin(s: string)
    requires IsNumeral(s)
    ensures SinoReading(s).Ok? && Within(SinoReading(s).value, SinoChars)
    ensures NoDigits(SinoReading(s).value)
  {
    NumeralReadsOk(s);
    var k := IndexOf(s, '.');
    if k == |s| {
      GroupedIntegerDigits(s);
      IntegerWordsWithin(RemoveCommas(s));
    } else {
      var f := s[k + 1..];
      DigitsHaveNoSeparator(f);
      GroupedIntegerDigits(s[..k]);
      IntegerWordsWithin(RemoveCommas(s[..k]));
      FractionWithin(f);
      WithinConcat(IntegerWords(RemoveCommas(s[..k])).value, FractionReading(f).value, SinoChars);
    }
    SinoCharsNoDigits(SinoReading(s).value);
  }

  lemma SinoCharsNoDigits(w: string)
    requires Within(w, SinoChars)
    ensures NoDigits(w)
  {
    forall i | 0 <= i < |w| ensures !IsDigit(w[i]) {
      var j :| 0 <= j < |SinoChars| && SinoChars[j] == w[i];
    }
  }

  /** The words `convert_chi` gives a numeral. */
  function SinoWords(s: string): (r: string)
    requires IsNumeral(s)
    ensures Ok(r) == SinoReading(s)
    ensures Within(r, SinoChars) && NoDigits(r)
  {
    NumeralReadingWithin(s);
    SinoReading(s).value
  }
}
