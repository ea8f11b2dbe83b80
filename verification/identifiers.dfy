/** The identifier readers of the exception handler: a number that names something
    (a phone number, a flight, a model code, a version, a count in an English phrase)
    is read digit by digit through a fixed table; every other character stays as it is. */
module IdentifierReaders {
  import opened Tables

  /** `re.sub('\d', chi_dict)`: each digit becomes its Sino-Korean syllable (0 becomes 공). */
  function DigitCode(s: string): (r: string)
    ensures |r| == |s|
    ensures forall i :: 0 <= i < |s| ==>
      r[i] == if IsDigit(s[i]) then ChiChars[DigitValue(s[i])] else s[i]
  {
    if s == [] then []
    else (if IsDigit(s[0]) then ChiDigit(DigitValue(s[0])) else [s[0]]) + DigitCode(s[1..])
  }

  /** Reading a digit-coded text again changes nothing: it holds no digit any more. */
  lemma DigitCodeIdempotent(s: string)
    ensures NoDigits(DigitCode(s))
    ensures DigitCode(DigitCode(s)) == DigitCode(s)
  {
    var r := DigitCode(s);
    forall i | 0 <= i < |r| ensures !IsDigit(r[i]) {
      if IsDigit(s[i]) {
        ChiCharsNotDigits(DigitValue(s[i]));
      }
    }
    DigitCodeKeepsNonDigits(r);
  }

  lemma ChiCharsNotDigits(d: nat)
    requires d < 10
    ensures !IsDigit(ChiChars[d])
  {
  }

  /** A text without digits is its own digit code. */
  lemma DigitCodeKeepsNonDigits(s: string)
    requires NoDigits(s)
    ensures DigitCode(s) == s
  {
    var r := DigitCode(s);
    assert forall i :: 0 <= i < |s| ==> r[i] == s[i];
  }

  /** The digit pass of the version reader: 영 for 0, chi_dict for the other digits. */
  function VersionDigits(s: string): (r: string)
    ensures |r| == |s|
    ensures forall i :: 0 <= i < |s| ==>
      r[i] == if IsDigit(s[i]) then SinoDigitWord(DigitValue(s[i]))[0] else s[i]
  {
    if s == [] then []
    else (if IsDigit(s[0]) then SinoDigitWord(DigitValue(s[0])) else [s[0]]) + VersionDigits(s[1..])
  }

  /** `re.sub('\.', '쩜')`: every point becomes 쩜. */
  function PointsToJjeom(s: string): (r: string)
    ensures |r| == |s|
    ensures forall i :: 0 <= i < |s| ==> r[i] == if s[i] == '.' then '쩜' else s[i]
  {
    if s == [] then [] else (if s[0] == '.' then "쩜" else [s[0]]) + PointsToJjeom(s[1..])
  }

  /** The version-number reader: the digit pass, then the point pass. */
  function VersionReading(s: string): string
  {
    PointsToJjeom(VersionDigits(s))
  }

  /** The two passes of the version reader act as one character map: a digit becomes its
      Sino-Korean word with 영 for zero, a point becomes 쩜, anything else stays. */
  lemma VersionReadingPerCharacter(s: string)
    ensures |VersionReading(s)| == |s|
    ensures forall i :: 0 <= i < |s| ==>
      VersionReading(s)[i] ==
        if IsDigit(s[i]) then SinoDigitWord(DigitValue(s[i]))[0]
        else if s[i] == '.' then '쩜'
        else s[i]
  {
    var v := VersionDigits(s);
    forall i | 0 <= i < |s| && IsDigit(s[i]) ensures v[i] != '.' {
      var d := DigitValue(s[i]);
      assert v[i] == SinoDigitWord(d)[0];
    }
  }

  /** `re.sub('\d', eng_dict)`: each digit becomes its English name in Hangul. */
  function EngReading(s: string): (r: string)
    ensures NoDigits(s) ==> r == s
    ensures '+' in r <==> '+' in s
  {
    if s == [] then []
    else
      var head := if IsDigit(s[0]) then EngDigit(DigitValue(s[0])) else [s[0]];
      assert '+' !in head <==> s[0] != '+' by {
        if IsDigit(s[0]) { EngDigitNoPlus(DigitValue(s[0])); }
      }
      head + EngReading(s[1..])
  }

  lemma EngDigitNoPlus(d: nat)
    requires d < 10
    ensures '+' !in EngDigit(d) && NoDigits(EngDigit(d))
  {
  }

  /** The English reader leaves no digit behind. */
  lemma {:induction false} EngReadingNoDigits(s: string)
    ensures NoDigits(EngReading(s))
  {
    if s != [] {
      EngReadingNoDigits(s[1..]);
      if IsDigit(s[0]) { EngDigitNoPlus(DigitValue(s[0])); }
      var head := if IsDigit(s[0]) then EngDigit(DigitValue(s[0])) else [s[0]];
      assert EngReading(s) == head + EngReading(s[1..]);
    }
  }

  /** The English reader replaces each character on its own: one character is replaced by its
      `eng_dict` name when it is a digit and kept otherwise, ... */
  lemma EngReadingSingle(c: char)
    ensures EngReading([c]) == if IsDigit(c) then EngDigit(DigitValue(c)) else [c]
  {
    assert [c][1..] == [];
  }

  /** ... and the reading of a text is the readings of its parts joined. */
  lemma {:induction false} EngReadingAppend(a: string, b: string)
    ensures EngReading(a + b) == EngReading(a) + EngReading(b)
  {
    if a == [] {
      assert a + b == b;
    } else {
      var head := if IsDigit(a[0]) then EngDigit(DigitValue(a[0])) else [a[0]];
      assert (a + b)[0] == a[0] && (a + b)[1..] == a[1..] + b;
      assert EngReading(a + b) == head + EngReading(a[1..] + b);
      assert EngReading(a) == head + EngReading(a[1..]);
      EngReadingAppend(a[1..], b);
      ConcatAssoc(head, EngReading(a[1..]), EngReading(b));
    }
  }

  /** `str.replace('+', ' 플러스 ')`. */
  function SpellPlus(s: string): (r: string)
    ensures '+' !in r
    ensures '+' !in s ==> r == s
  {
    if s == [] then [] else PlusWord(s[0]) + SpellPlus(s[1..])
  }

  function PlusWord(c: char): string
  {
    if c == '+' then " 플러스 " else [c]
  }

  /** The 1+1 promotion reader: English digit names, then the plus sign spelled out. */
  function OnePlusOneReading(s: string): string
  {
    SpellPlus(EngReading(s))
  }

  /** The one-character map the two passes of the 1+1 reader amount to. */
  function PromoChar(c: char): string
  {
    if IsDigit(c) then EngDigit(DigitValue(c)) else if c == '+' then " 플러스 " else [c]
  }

  /** The 1+1 reader replaces each character independently, digits by their English names and
      the plus sign by 플러스 between spaces; so it distributes over concatenation. */
  lemma {:induction false} OnePlusOnePerCharacter(s: string)
    ensures s == [] ==> OnePlusOneReading(s) == []
    ensures s != [] ==> OnePlusOneReading(s) == PromoChar(s[0]) + OnePlusOneReading(s[1..])
  {
    if s != [] {
      var head := if IsDigit(s[0]) then EngDigit(DigitValue(s[0])) else [s[0]];
      assert EngReading(s) == head + EngReading(s[1..]);
      SpellPlusAppend(head, EngReading(s[1..]));
      if IsDigit(s[0]) {
        EngDigitNoPlus(DigitValue(s[0]));
      } else if s[0] == '+' {
        assert SpellPlus(head) == " 플러스 " + SpellPlus([]);
      } else {
        assert SpellPlus(head) == [s[0]] + SpellPlus([]);
      }
    }
  }

  lemma {:induction false} SpellPlusAppend(a: string, b: string)
    ensures SpellPlus(a + b) == SpellPlus(a) + SpellPlus(b)
  {
    if a == [] {
      assert a + b == b;
    } else {
      var rest := SpellPlus(a[1..] + b);
      assert (a + b)[0] == a[0] && (a + b)[1..] == a[1..] + b;
      assert SpellPlus(a + b) == PlusWord(a[0]) + rest;
      SpellPlusAppend(a[1..], b);
      ConcatAssoc(PlusWord(a[0]), SpellPlus(a[1..]), SpellPlus(b));
    }
  }

  /** The worked example: 1+1 reads 원 플러스 원. */
  lemma OnePlusOneExample()
    ensures OnePlusOneReading("1+1") == "원 플러스 원"
  {
    assert PromoChar('1') == "원" && PromoChar('+') == " 플러스 ";
    OnePlusOnePerCharacter("1");
    assert "1"[1..] == "" && OnePlusOneReading("1") == "원";
    OnePlusOnePerCharacter("+1");
    assert "+1"[1..] == "1" && OnePlusOneReading("+1") == " 플러스 원";
    OnePlusOnePerCharacter("1+1");
    assert "1+1"[1..] == "+1";
  }
}
