/** The Sino-Korean reader: `convert_unit` reads a group of up to four digits with the
    place words 십/백/천, and `convert_chi` reads a whole numeral — commas, fraction,
    all-zero and leading-zero integer parts, and base-10^4 grouping with 만/억/조/경/해. */
module SinoKorean {
  import opened Tables
  import opened IdentifierReaders

  // ---------------------------------------------------------------------------
  // One group: convert_unit
  // ---------------------------------------------------------------------------

  /** What `convert_unit` emits for digit `d` at decimal place `p` (0 = ones): nothing for a
      zero, the bare place word for a 1 before 십/백/천, and nothing at all above the
      thousands place, where the source has no branch. */
  function DigitAtPlace(d: nat, p: nat): string
    requires d < 10
  {
    if d == 0 || p > 3 then ""
    else if p == 0 then ChiDigit(d)
    else if d == 1 then PlaceName(p)
    else ChiDigit(d) + PlaceName(p)
  }

  /** The words for the digits of `a`, its lowest digit standing at place `p`. */
  function UnitFrom(a: nat, p: nat): string
    decreases a
  {
    if a == 0 then "" else UnitFrom(a / 10, p + 1) + DigitAtPlace(a % 10, p)
  }

  /** The reading `convert_unit` gives a number. */
  function UnitReading(n: nat): string
  {
    UnitFrom(n, 0)
  }

  /** `convert_unit`: peels off decimal digits from the low end and prepends their words. */
  method ConvertUnit(num: nat) returns (word: string)
    ensures word == UnitReading(num)
  {
    word := "";
    var cnt := 0;
    var a := num;
    while a != 0
      invariant UnitFrom(num, 0) == UnitFrom(a, cnt) + word
      invariant cnt == 0 ==> word == ""
    {
      ghost var before, done := a, word;
      UnitPrepend(num, before, cnt, done);
      var b := a % 10;
      a := a / 10;
      if b == 0 {
        cnt := cnt + 1;
        continue;
      }
      if cnt == 0 {
        word := word + ChiDigit(b);
      } else if cnt == 1 {
        if b == 1 {
          word := "십" + word;
        } else {
          word := ChiDigit(b) + "십" + word;
        }
      } else if cnt == 2 {
        if b == 1 {
          word := "백" + word;
        } else {
          word := ChiDigit(b) + "백" + word;
        }
      } else if cnt == 3 {
        if b == 1 {
          word := "천" + word;
        } else {
          word := ChiDigit(b) + "천" + word;
        }
      }
      assert word == DigitAtPlace(b, cnt) + done;
      cnt := cnt + 1;
    }
  }

  lemma UnitPrepend(num: nat, a: nat, p: nat, done: string)
    requires UnitFrom(num, 0) == UnitFrom(a, p) + done
    ensures UnitFrom(num, 0) == UnitFrom(a / 10, p + 1) + (DigitAtPlace(a % 10, p) + done)
  {
    UnitFromStep(a, p);
    ConcatAssoc(UnitFrom(a / 10, p + 1), DigitAtPlace(a % 10, p), done);
  }

  lemma {:induction false} UnitFromStep(a: nat, p: nat)
    ensures UnitFrom(a, p) == UnitFrom(a / 10, p + 1) + DigitAtPlace(a % 10, p)
  {
  }

  lemma {:induction false} UnitFromAboveThousands(a: nat, p: nat)
    requires p > 3
    ensures UnitFrom(a, p) == ""
    decreases a
  {
    if a != 0 {
      UnitFromAboveThousands(a / 10, p + 1);
    }
  }

  // Decimal digits of a number, one fact at a time (the solver handles each alone).
  lemma Tens(n: nat) ensures n / 10 / 10 == n / 100 {}
  lemma Hundreds(n: nat) ensures n / 100 / 10 == n / 1000 {}
  lemma LowFour(n: nat) ensures n % 10000 == 1000 * (n / 1000 % 10) + n % 1000 {}
  lemma LowThree(n: nat) ensures n % 1000 == 100 * (n / 100 % 10) + n % 100 {}
  lemma LowTwo(n: nat) ensures n % 100 == 10 * (n / 10 % 10) + n % 10 {}

  /** A group reads as its thousands, hundreds, tens and ones words joined, most significant
      first; digits above the thousands place contribute nothing. */
  lemma UnitReadingDigits(n: nat)
    ensures UnitReading(n) ==
      DigitAtPlace(n / 1000 % 10, 3) + DigitAtPlace(n / 100 % 10, 2) +
      DigitAtPlace(n / 10 % 10, 1) + DigitAtPlace(n % 10, 0)
  {
    Tens(n);
    Hundreds(n);
    FourPlaces(n, n / 10, n / 100, n / 1000);
  }

  /** UnitReadingDigits over the successive quotients by 10. */
  lemma FourPlaces(n: nat, a1: nat, a2: nat, a3: nat)
    requires a1 == n / 10 && a2 == a1 / 10 && a3 == a2 / 10
    ensures UnitReading(n) ==
      DigitAtPlace(a3 % 10, 3) + DigitAtPlace(a2 % 10, 2) +
      DigitAtPlace(a1 % 10, 1) + DigitAtPlace(n % 10, 0)
  {
    UnitFromStep(n, 0);
    UnitFromStep(a1, 1);
    UnitFromStep(a2, 2);
    UnitFromStep(a3, 3);
    UnitFromAboveThousands(a3 / 10, 4);
    assert "" + DigitAtPlace(a3 % 10, 3) == DigitAtPlace(a3 % 10, 3);
  }

  /** A group is read as nothing exactly when its value is a multiple of 10^4. */
  lemma UnitReadingEmpty(n: nat)
    ensures UnitReading(n) == "" <==> n % 10000 == 0
  {
    UnitReadingDigits(n);
    LowFour(n);
    LowThree(n);
    LowTwo(n);
  }

  /** The only group read as the single syllable 일 is the group 1. */
  lemma UnitReadingIsIl(n: nat)
    requires n < 10000
    ensures UnitReading(n) == "일" <==> n == 1
  {
    UnitReadingDigits(n);
    LowFour(n);
    LowThree(n);
    LowTwo(n);
    var d3, d2, d1, d0 := n / 1000 % 10, n / 100 % 10, n / 10 % 10, n % 10;
    var p3, p2, p1, p0 := DigitAtPlace(d3, 3), DigitAtPlace(d2, 2), DigitAtPlace(d1, 1), DigitAtPlace(d0, 0);
    var w := UnitReading(n);
    if w == "일" {
      assert w == p3 + p2 + p1 + p0;
      PlacePartEndsInPlaceWord(d1, 1);
      PlacePartEndsInPlaceWord(d2, 2);
      PlacePartEndsInPlaceWord(d3, 3);
      UnitReadingEndsInPlaceWord(n);
      assert '일' !in "십백천";
      assert |p0| == 1 && p0 == [ChiChars[d0]];
      assert p3 + p2 + p1 == [];
      assert w == p0;
      ChiCharsDistinct(d0, 1);
    }
  }

  /** A group whose ones digit is zero, if it reads as anything, ends in a place word. */
  lemma UnitReadingEndsInPlaceWord(n: nat)
    ensures n % 10 == 0 && UnitReading(n) != "" ==> UnitReading(n)[|UnitReading(n)| - 1] in "십백천"
  {
    UnitReadingDigits(n);
    var d3, d2, d1 := n / 1000 % 10, n / 100 % 10, n / 10 % 10;
    var p3, p2, p1 := DigitAtPlace(d3, 3), DigitAtPlace(d2, 2), DigitAtPlace(d1, 1);
    var w := UnitReading(n);
    PlacePartEndsInPlaceWord(d1, 1);
    PlacePartEndsInPlaceWord(d2, 2);
    PlacePartEndsInPlaceWord(d3, 3);
    if n % 10 == 0 && w != "" {
      assert w == p3 + p2 + p1 + DigitAtPlace(0, 0);
      if d1 != 0 {
        assert w == (p3 + p2) + p1 && w[|w| - 1] == p1[|p1| - 1];
      } else if d2 != 0 {
        assert w == p3 + p2 && w[|w| - 1] == p2[|p2| - 1];
      } else {
        assert w == p3;
      }
    }
  }

  /** A nonzero digit above the ones place is read with its place word last. */
  lemma PlacePartEndsInPlaceWord(d: nat, p: nat)
    requires d < 10 && 1 <= p <= 3
    ensures d == 0 <==> DigitAtPlace(d, p) == ""
    ensures d != 0 ==> DigitAtPlace(d, p)[|DigitAtPlace(d, p)| - 1] in "십백천"
  {
  }

  lemma ChiCharsDistinct(d: nat, e: nat)
    requires d < 10 && e < 10 && ChiChars[d] == ChiChars[e]
    ensures d == e
  {
  }

  // ---------------------------------------------------------------------------
  // Base-10^4 grouping
  // ---------------------------------------------------------------------------

  /** What `convert_chi` emits for group value `b` at tier `k` (group k counted from the low
      end): nothing for a zero group; the group alone at tier 0; the group and its tier word
      at tiers 1 to 5, with the group dropped at the 만 tier when it reads 일; and nothing
      above tier 5, where the source has no branch. */
  function GroupWord(b: nat, k: nat): string
  {
    if b == 0 then "" else TierWords(UnitReading(b), k)
  }

  /** What the tier branches of `convert_chi` make of the reading `w` of a nonzero group. */
  function TierWords(w: string, k: nat): string
  {
    if k == 0 then w
    else if k == 1 && |w| == 1 && w[0] == '일' then TierName(1)
    else if k <= 5 then w + TierName(k)
    else ""
  }

  /** The words for the base-10^4 groups of `a`, its lowest group standing at tier `k`. */
  function GroupsFrom(a: nat, k: nat): string
    decreases a
  {
    if a == 0 then "" else GroupsFrom(a / 10000, k + 1) + GroupWord(a % 10000, k)
  }

  lemma {:induction false} GroupsFromStep(a: nat, k: nat)
    ensures GroupsFrom(a, k) == GroupsFrom(a / 10000, k + 1) + GroupWord(a % 10000, k)
  {
  }

  lemma {:induction false} GroupsFromAboveTiers(a: nat, k: nat)
    requires k > 5
    ensures GroupsFrom(a, k) == ""
    decreases a
  {
    if a != 0 {
      GroupsFromAboveTiers(a / 10000, k + 1);
    }
  }

  /** The integer reading is the six tier words joined, most significant first: the groups of
      10^20, 10^16, 10^12, 10^8, 10^4 and the units. Groups above 10^20 contribute nothing. */
  lemma GroupsByTier(v: nat)
    ensures GroupsFrom(v, 0) ==
      GroupWord(v / 1_0000_0000_0000_0000_0000 % 10000, 5) +
      (GroupWord(v / 1_0000_0000_0000_0000 % 10000, 4) +
      (GroupWord(v / 1_0000_0000_0000 % 10000, 3) +
      (GroupWord(v / 1_0000_0000 % 10000, 2) +
      (GroupWord(v / 10000 % 10000, 1) +
      GroupWord(v % 10000, 0)))))
  {
    TierQuotients(v);
    SixTiers(v, v / 10000, v / 1_0000_0000, v / 1_0000_0000_0000, v / 1_0000_0000_0000_0000,
      v / 1_0000_0000_0000_0000_0000);
  }

  /** GroupsByTier over the successive quotients, with no large constant in sight. */
  lemma SixTiers(v: nat, a1: nat, a2: nat, a3: nat, a4: nat, a5: nat)
    requires a1 == v / 10000 && a2 == a1 / 10000 && a3 == a2 / 10000
    requires a4 == a3 / 10000 && a5 == a4 / 10000
    ensures GroupsFrom(v, 0) ==
      GroupWord(a5 % 10000, 5) + (GroupWord(a4 % 10000, 4) + (GroupWord(a3 % 10000, 3) +
      (GroupWord(a2 % 10000, 2) + (GroupWord(a1 % 10000, 1) + GroupWord(v % 10000, 0)))))
  {
    var g0, g1, g2 := GroupWord(v % 10000, 0), GroupWord(a1 % 10000, 1), GroupWord(a2 % 10000, 2);
    var g3, g4, g5 := GroupWord(a3 % 10000, 3), GroupWord(a4 % 10000, 4), GroupWord(a5 % 10000, 5);
    GroupsFromStep(v, 0);
    GroupsFromStep(a1, 1);
    ConcatAssoc(GroupsFrom(a2, 2), g1, g0);
    GroupsFromStep(a2, 2);
    ConcatAssoc(GroupsFrom(a3, 3), g2, g1 + g0);
    GroupsFromStep(a3, 3);
    ConcatAssoc(GroupsFrom(a4, 4), g3, g2 + (g1 + g0));
    GroupsFromStep(a4, 4);
    ConcatAssoc(GroupsFrom(a5, 5), g4, g3 + (g2 + (g1 + g0)));
    GroupsFromStep(a5, 5);
    ConcatAssoc(GroupsFrom(a5 / 10000, 6), g5, g4 + (g3 + (g2 + (g1 + g0))));
    GroupsFromAboveTiers(a5 / 10000, 6);
    assert "" + (g5 + (g4 + (g3 + (g2 + (g1 + g0))))) == g5 + (g4 + (g3 + (g2 + (g1 + g0))));
  }

  // Dividing by 10^4 once more moves to the next tier, one fact at a time.
  lemma Tier2(v: nat) ensures v / 10000 / 10000 == v / 1_0000_0000 {}
  lemma Tier3(v: nat) ensures v / 1_0000_0000 / 10000 == v / 1_0000_0000_0000 {}
  lemma Tier4(v: nat) ensures v / 1_0000_0000_0000 / 10000 == v / 1_0000_0000_0000_0000 {}
  lemma Tier5(v: nat) ensures v / 1_0000_0000_0000_0000 / 10000 == v / 1_0000_0000_0000_0000_0000 {}
  lemma Tier6(v: nat)
    ensures v / 1_0000_0000_0000_0000_0000 / 10000 == v / 1_0000_0000_0000_0000_0000_0000
  {
  }

  lemma TierQuotients(v: nat)
    ensures v / 10000 / 10000 == v / 1_0000_0000
    ensures v / 1_0000_0000 / 10000 == v / 1_0000_0000_0000
    ensures v / 1_0000_0000_0000 / 10000 == v / 1_0000_0000_0000_0000
    ensures v / 1_0000_0000_0000_0000 / 10000 == v / 1_0000_0000_0000_0000_0000
    ensures v / 1_0000_0000_0000_0000_0000 / 10000 == v / 1_0000_0000_0000_0000_0000_0000
  {
    Tier2(v);
    Tier3(v);
    Tier4(v);
    Tier5(v);
    Tier6(v);
  }

  /** A nonzero group at tiers 1 to 5 reads as the group followed by its tier word; the group is
      left out only when it is the value 1 at the 만 tier. */
  lemma GroupWordShape(b: nat, k: nat)
    requires 0 < b < 10000 && 1 <= k <= 5
    ensures GroupWord(b, k) == (if k == 1 && b == 1 then "" else UnitReading(b)) + TierName(k)
  {
    UnitReadingIsIl(b);
  }

  // ---------------------------------------------------------------------------
  // The whole numeral: convert_chi
  // ---------------------------------------------------------------------------

  /** Index of the first occurrence of `c` in `s`, or |s| if there is none. */
  function IndexOf(s: string, c: char): (k: nat)
    ensures k <= |s|
    ensures k < |s| ==> s[k] == c
    ensures c !in s[..k]
  {
    if s == [] then 0
    else if s[0] == c then 0
    else assert s[..1 + IndexOf(s[1..], c)] == [s[0]] + s[1..][..IndexOf(s[1..], c)]; 1 + IndexOf(s[1..], c)
  }

  /** `str.replace(',', '')`. */
  function RemoveCommas(s: string): (r: string)
    ensures ',' !in r
    ensures |r| <= |s|
  {
    if s == [] then [] else (if s[0] == ',' then [] else [s[0]]) + RemoveCommas(s[1..])
  }

  /** `'영' * k`. */
  function Repeat(w: string, k: nat): string
  {
    if k == 0 then [] else w + Repeat(w, k - 1)
  }

  predicate AllZeros(s: string) { forall i :: 0 <= i < |s| ==> s[i] == '0' }

  /** The `for char in n2` loop of `convert_chi`: 영 for 0, chi_dict for the other digits;
      any other character is a lookup failure. */
  function FractionWords(f: string): (r: Result<string>)
    ensures r.Ok? <==> AllDigits(f)
    ensures r.Ok? ==> |r.value| == |f|
    ensures r.Ok? ==> forall i :: 0 <= i < |f| ==> r.value[i] == SinoDigitWord(DigitValue(f[i]))[0]
    ensures r.Err? ==> r.error.BadFractionDigit? && !IsDigit(r.error.c)
  {
    if f == [] then Ok("")
    else
      match FractionWords(f[..|f| - 1])
      case Err(e) => Err(e)
      case Ok(w) =>
        var c := f[|f| - 1];
        if IsDigit(c) then Ok(w + SinoDigitWord(DigitValue(c))) else Err(BadFractionDigit(c))
  }

  /** The integer part, commas already removed: all zeros read one 영 each; a leading zero
      makes it a digit code; otherwise it is grouped by 10^4. */
  function IntegerWords(n1: string): Result<string>
  {
    if AllZeros(n1) then Ok(Repeat("영", |n1|))
    else if n1[0] == '0' then Ok(DigitCode(n1))
    else if !AllDigits(n1) then Err(NotAnInteger(n1))
    else Ok(GroupsFrom(Value(n1), 0))
  }

  /** The reading `convert_chi` gives `num`, or why it raises. */
  function SinoReading(num: string): Result<string>
  {
    var k := IndexOf(num, '.');
    if k == |num| then IntegerWords(RemoveCommas(num))
    else if '.' in num[k + 1..] then Err(MultiplePoints)
    else
      match FractionReading(num[k + 1..])
      case Err(e) => Err(e)
      case Ok(f) => ThenFraction(IntegerWords(RemoveCommas(num[..k])), f)
  }

  /** The fraction part as `convert_chi` appends it: 쩜, then the digit words. */
  function FractionReading(n2: string): Result<string>
  {
    match FractionWords(n2)
    case Ok(f) => Ok("쩜" + f)
    case Err(e) => Err(e)
  }

  /** An integer reading followed by the words of the fraction. */
  function ThenFraction(integer: Result<string>, fraction: string): Result<string>
  {
    match integer
    case Ok(i) => Ok(i + fraction)
    case Err(e) => Err(e)
  }

  lemma {:induction false} FractionErrorPersists(f: string, i: nat)
    requires i <= |f| && FractionWords(f[..i]).Err?
    ensures FractionWords(f) == FractionWords(f[..i])
    decreases |f| - i
  {
    if i < |f| {
      assert f[..i + 1][..i] == f[..i];
      FractionErrorPersists(f, i + 1);
    } else {
      assert f[..i] == f;
    }
  }

  /** The `for char in n2` loop of `convert_chi`: 쩜, then one word per fraction digit. */
  method ReadFraction(n2: string) returns (r: Result<string>)
    ensures r == FractionReading(n2)
  {
    var n2Word := "쩜";
    for i := 0 to |n2|
      invariant FractionWords(n2[..i]).Ok?
      invariant n2Word == "쩜" + FractionWords(n2[..i]).value
    {
      var c := n2[i];
      assert n2[..i + 1][..i] == n2[..i];
      if c == '0' {
        n2Word := n2Word + "영";
      } else if IsDigit(c) {
        n2Word := n2Word + ChiDigit(DigitValue(c));
      } else {
        FractionErrorPersists(n2, i + 1);
        return Err(BadFractionDigit(c));
      }
    }
    assert n2[..|n2|] == n2;
    return Ok(n2Word);
  }

  /** `convert_chi`. */
  method ConvertChi(num: string) returns (r: Result<string>)
    ensures r == SinoReading(num)
  {
    var n1 := num;
    var n2Word := "";
    var k := IndexOf(num, '.');
    if '.' in num {
      if '.' in num[k + 1..] {
        return Err(MultiplePoints);
      }
      n1 := num[..k];
      var fraction := ReadFraction(num[k + 1..]);
      if fraction.Err? {
        return Err(fraction.error);
      }
      n2Word := fraction.value;
    } else {
      assert k == |num|;
    }
    n1 := RemoveCommas(n1);
    // from here on the reading is the integer part's words followed by the fraction's
    assert SinoReading(num) == ThenFraction(IntegerWords(n1), n2Word) by {
      if k == |num| {
        assert n2Word == "";
        match IntegerWords(n1)
        case Ok(i) => assert i + n2Word == i;
        case Err(_) =>
      }
    }
    if AllZeros(n1) {
      return Ok(Repeat("영", |n1|) + n2Word);
    }
    if n1[0] == '0' {
      return Ok(DigitCode(n1) + n2Word);
    }
    if !AllDigits(n1) {
      return Err(NotAnInteger(n1));
    }
    var n1Word := ReadGroups(Value(n1));
    return Ok(n1Word + n2Word);
  }

  lemma GroupsAdvance(v: nat, a: nat, k: nat, done: string, rest: nat, b: nat)
    requires GroupsFrom(v, 0) == GroupsFrom(a, k) + done
    requires rest == a / 10000 && b == a % 10000
    ensures GroupsFrom(v, 0) == GroupsFrom(rest, k + 1) + (GroupWord(b, k) + done)
    ensures b == 0 ==> GroupsFrom(v, 0) == GroupsFrom(rest, k + 1) + done
  {
    GroupsFromStep(a, k);
    ConcatAssoc(GroupsFrom(rest, k + 1), GroupWord(b, k), done);
  }

  /** The divmod-by-10^4 loop of `convert_chi`: reads `v` group by group from the low end,
      prepending each nonzero group with its tier word. */
  method ReadGroups(v: nat) returns (n1Word: string)
    ensures n1Word == GroupsFrom(v, 0)
  {
    var cnt := 0;
    var a := v;
    n1Word := "";
    while a != 0
      invariant GroupsFrom(v, 0) == GroupsFrom(a, cnt) + n1Word
      invariant cnt == 0 ==> n1Word == ""
    {
      var b := a % 10000;
      GroupsAdvance(v, a, cnt, n1Word, a / 10000, b);
      a := a / 10000;
      // a zero group emits nothing and only moves on to the next tier
      if b != 0 {
        n1Word := ReadGroup(b, cnt, n1Word);
      }
      cnt := cnt + 1;
    }
  }

  /** One nonzero group of `convert_chi`'s loop: its reading, then its tier word. */
  method ReadGroup(b: nat, cnt: nat, n1Word: string) returns (result: string)
    requires 0 < b < 10000
    requires cnt == 0 ==> n1Word == ""
    ensures result == GroupWord(b, cnt) + n1Word
  {
    var w := ConvertUnit(b);
    UnitReadingEmpty(b);
    result := AttachTier(w, cnt, n1Word);
  }

  /** The tier branches of `convert_chi` for one nonzero group read as `w`: the units group
      is appended, a group at tiers 1 to 5 is prepended with its tier word (a group reading
      exactly 일 is dropped at the 만 tier), and a group above tier 5 is ignored. */
  method AttachTier(unit: string, cnt: nat, n1Word: string) returns (result: string)
    requires unit != ""
    requires cnt == 0 ==> n1Word == ""
    ensures result == TierWords(unit, cnt) + n1Word
  {
    var w := unit;
    result := n1Word;
    if cnt == 0 {
      result := result + w;
    } else if cnt == 1 {
      if w[|w| - 1] == '일' && |w| == 1 {
        w := "";
      }
      result := w + "만" + result;
    } else if cnt == 2 {
      result := w + "억" + result;
    } else if cnt == 3 {
      result := w + "조" + result;
    } else if cnt == 4 {
      result := w + "경" + result;
    } else if cnt == 5 {
      result := w + "해" + result;
    }
  }

  // ---------------------------------------------------------------------------
  // Properties of the whole reading
  // ---------------------------------------------------------------------------

  lemma {:induction false} RemoveCommasKeeps(s: string, c: char)
    requires c != ','
    ensures c in RemoveCommas(s) <==> c in s
  {
    if s != [] {
      RemoveCommasKeeps(s[1..], c);
      assert s == [s[0]] + s[1..];
    }
  }

  lemma {:induction false} RemoveCommasNoComma(s: string)
    requires ',' !in s
    ensures RemoveCommas(s) == s
  {
    if s != [] {
      RemoveCommasNoComma(s[1..]);
      assert s == [s[0]] + s[1..];
    }
  }

  lemma IndexOfFirst(s: string, c: char, k: nat)
    requires k < |s| && s[k] == c && c !in s[..k]
    ensures IndexOf(s, c) == k
  {
    var j := IndexOf(s, c);
    assert forall m :: 0 <= m < k ==> s[..k][m] == s[m];
    assert forall m :: 0 <= m < j ==> s[..j][m] == s[m];
  }

  /** Commas in a numeral without a point are ignored: "1,000" reads as "1000". */
  lemma CommasIgnored(s: string)
    requires '.' !in s
    ensures SinoReading(s) == SinoReading(RemoveCommas(s))
  {
    RemoveCommasKeeps(s, '.');
    RemoveCommasNoComma(RemoveCommas(s));
  }

  /** An integer of zeros only reads one 영 per zero. */
  lemma AllZerosReadYeong(s: string)
    requires '.' !in s && ',' !in s && AllZeros(s)
    ensures SinoReading(s).Ok? && |SinoReading(s).value| == |s|
    ensures forall i :: 0 <= i < |s| ==> SinoReading(s).value[i] == '영'
  {
    RemoveCommasNoComma(s);
    RepeatYeong(|s|);
  }

  lemma {:induction false} RepeatYeong(k: nat)
    ensures |Repeat("영", k)| == k
    ensures forall i :: 0 <= i < k ==> Repeat("영", k)[i] == '영'
  {
    if k > 0 {
      RepeatYeong(k - 1);
      assert Repeat("영", k) == "영" + Repeat("영", k - 1);
    }
  }

  /** An integer with a leading zero and some other digit is read digit by digit: one chi_dict
      syllable per digit, 공 for zero, and no place or tier word. */
  lemma LeadingZeroDigitByDigit(s: string)
    requires '.' !in s && ',' !in s && AllDigits(s) && s != [] && s[0] == '0' && !AllZeros(s)
    ensures SinoReading(s).Ok? && |SinoReading(s).value| == |s|
    ensures forall i :: 0 <= i < |s| ==> SinoReading(s).value[i] == ChiChars[DigitValue(s[i])]
  {
    RemoveCommasNoComma(s);
  }

  /** The integer part is read without regard to the fraction, and the fraction's words follow
      it; an unreadable fraction makes the whole reading fail. */
  lemma FractionIndependent(i: string, f: string)
    requires '.' !in i && '.' !in f
    ensures SinoReading(i + "." + f) ==
      match FractionReading(f)
      case Err(e) => Err(e)
      case Ok(w) => ThenFraction(SinoReading(i), w)
  {
    var s := i + "." + f;
    assert s[..|i|] == i;
    IndexOfFirst(s, '.', |i|);
    assert s[|i| + 1..] == f;
    RemoveCommasKeeps(i, '.');
  }

  // ---------------------------------------------------------------------------
  // Worked readings
  // ---------------------------------------------------------------------------

  /** A digit string with no leading zero reads as the grouping of its value. */
  lemma IntegerReadsAs(s: string, v: nat, w: string)
    requires '.' !in s && ',' !in s && AllDigits(s) && s != [] && s[0] != '0' && Value(s) == v
    requires GroupsFrom(v, 0) == w
    ensures SinoReading(s) == Ok(w)
  {
    RemoveCommasNoComma(s);
  }

  /** A numeral with a point reads as its integer part's words, then its fraction's. */
  lemma FractionReadsAs(i: string, f: string, wi: string, wf: string)
    requires '.' !in i && '.' !in f
    requires SinoReading(i) == Ok(wi) && FractionReading(f) == Ok(wf)
    ensures SinoReading(i + "." + f) == Ok(wi + wf)
  {
    FractionIndependent(i, f);
  }

  /** A numeral with commas and no point reads as the same numeral without them. */
  lemma CommasReadAs(s: string, plain: string, w: string)
    requires '.' !in s && RemoveCommas(s) == plain && SinoReading(plain) == Ok(w)
    ensures SinoReading(s) == Ok(w)
  {
    CommasIgnored(s);
  }

  lemma ReadsZero()
    ensures SinoReading("0") == Ok("영")
  {
    RemoveCommasNoComma("0");
    assert Repeat("영", 1) == "영";
  }

  lemma ReadsTripleZero()
    ensures SinoReading("000") == Ok("영영영")
  {
    RemoveCommasNoComma("000");
    assert Repeat("영", 3) == "영영영";
  }

  /** A leading zero switches to the digit code, with 공 for zero. */
  lemma ReadsDoubleZeroSeven()
    ensures SinoReading("007") == Ok("공공칠")
  {
    RemoveCommasNoComma("007");
    assert !AllZeros("007");
    assert DigitCode("007") == "공공칠";
  }

  lemma GroupsTwenty()
    ensures GroupsFrom(20, 0) == "이십"
  {
    GroupsFromStep(20, 0);
    FourPlaces(20, 2, 0, 0);
  }

  lemma ReadsTwenty()
    ensures SinoReading("20") == Ok("이십")
  {
    assert "20"[..1] == "2";
    GroupsTwenty();
    IntegerReadsAs("20", 20, "이십");
  }

  lemma ValueHundred()
    ensures Value("100") == 100
  {
    assert "10"[..1] == "1";
    assert "100"[..2] == "10";
  }

  lemma GroupsHundred()
    ensures GroupsFrom(100, 0) == "백"
  {
    GroupsFromStep(100, 0);
    FourPlaces(100, 10, 1, 0);
  }

  lemma ReadsHundred()
    ensures SinoReading("100") == Ok("백")
  {
    ValueHundred();
    GroupsHundred();
    IntegerReadsAs("100", 100, "백");
  }

  lemma ValueThousand()
    ensures Value("1000") == 1000
  {
    assert "10"[..1] == "1";
    assert "100"[..2] == "10";
    assert "1000"[..3] == "100";
  }

  lemma GroupsThousand()
    ensures GroupsFrom(1000, 0) == "천"
  {
    GroupsFromStep(1000, 0);
    FourPlaces(1000, 100, 10, 1);
  }

  /** Commas are dropped before reading. */
  lemma ReadsThousandWithComma()
    ensures SinoReading("1,000") == Ok("천")
  {
    ValueThousand();
    GroupsThousand();
    IntegerReadsAs("1000", 1000, "천");
    assert RemoveCommas("1,000") == "1000";
    CommasReadAs("1,000", "1000", "천");
  }

  /** The group 1 at the 만 tier is read as 만 alone. */
  lemma ReadsTenThousand()
    ensures SinoReading("10000") == Ok("만")
  {
    assert "10"[..1] == "1";
    assert "100"[..2] == "10";
    assert "1000"[..3] == "100";
    assert "10000"[..4] == "1000";
    assert GroupsFrom(10000, 0) == "만" by {
      GroupsByTier(10000);
      GroupWordShape(1, 1);
    }
    IntegerReadsAs("10000", 10000, "만");
  }

  lemma ValueElevenThousand()
    ensures Value("11000") == 11000
  {
    assert "11"[..1] == "1";
    assert "110"[..2] == "11";
    assert "1100"[..3] == "110";
    assert "11000"[..4] == "1100";
  }

  lemma GroupsElevenThousand()
    ensures GroupsFrom(11000, 0) == "만천"
  {
    calc {
      GroupsFrom(11000, 0);
      { GroupsFromStep(11000, 0); }
      GroupsFrom(1, 1) + GroupWord(1000, 0);
      { GroupsFromStep(1, 1); GroupWordShape(1, 1); }
      "만" + GroupWord(1000, 0);
      { FourPlaces(1000, 100, 10, 1); }
      "만천";
    }
  }

  /** 11000 reads 만천: the 만-tier group 1 is elided and 1000 is read 천. */
  lemma ReadsElevenThousand()
    ensures SinoReading("11000") == Ok("만천")
  {
    ValueElevenThousand();
    GroupsElevenThousand();
    IntegerReadsAs("11000", 11000, "만천");
  }

  lemma ValueHundredMillion()
    ensures Value("100000000") == 1_0000_0000
  {
    assert "10"[..1] == "1";
    assert "100"[..2] == "10";
    assert "1000"[..3] == "100";
    assert "10000"[..4] == "1000";
    assert "100000"[..5] == "10000";
    assert "1000000"[..6] == "100000";
    assert "10000000"[..7] == "1000000";
    assert "100000000"[..8] == "10000000";
  }

  lemma GroupsHundredMillion()
    ensures GroupsFrom(1_0000_0000, 0) == "일억"
  {
    calc {
      GroupsFrom(1_0000_0000, 0);
      { GroupsFromStep(1_0000_0000, 0); }
      GroupsFrom(10000, 1) + GroupWord(0, 0);
      { GroupsFromStep(10000, 1); }
      GroupsFrom(1, 2) + GroupWord(0, 1) + GroupWord(0, 0);
      { GroupsFromStep(1, 2); }
      GroupsFrom(0, 3) + GroupWord(1, 2);
      { FourPlaces(1, 0, 0, 0); }
      "일억";
    }
  }

  /** Above the 만 tier the group 1 keeps its 일. */
  lemma ReadsHundredMillion()
    ensures SinoReading("100000000") == Ok("일억")
  {
    ValueHundredMillion();
    GroupsHundredMillion();
    IntegerReadsAs("100000000", 1_0000_0000, "일억");
  }

  lemma FractionZeroFive()
    ensures FractionReading("05") == Ok("쩜영오")
  {
    assert AllDigits("05");
    var r := FractionWords("05");
    assert DigitValue('0') == 0 && DigitValue('5') == 5;
    assert r.value[0] == '영' && r.value[1] == '오';
    assert r.value == "영오";
    assert FractionReading("05") == Ok("쩜" + r.value);
    assert "쩜" + "영오" == "쩜영오";
  }

  /** The fraction is read digit by digit after 쩜, with 영 for zero. */
  lemma ReadsThreePointZeroFive()
    ensures SinoReading("3.05") == Ok("삼쩜영오")
  {
    FractionZeroFive();
    assert GroupsFrom(3, 0) == "삼" by {
      GroupsFromStep(3, 0);
      FourPlaces(3, 0, 0, 0);
    }
    IntegerReadsAs("3", 3, "삼");
    FractionReadsAs("3", "05", "삼", "쩜영오");
    assert "3" + "." + "05" == "3.05";
    assert "삼" + "쩜영오" == "삼쩜영오";
  }

  /** A second point makes `num.split('.')` unpackable. */
  lemma ReadsTwoPointsAsError()
    ensures SinoReading("1.2.3") == Err(MultiplePoints)
  {
    assert IndexOf("1.2.3", '.') == 1;
    assert "1.2.3"[2..] == "2.3";
    assert '.' in "2.3";
  }
}
