/** Digit characters, the value of a digit string, and the fixed word tables
    that every reader of the number-to-Korean converter draws on. */
module Tables {

  /** Why a reading cannot be produced: the cases in which the source raises. */
  datatype ReadError =
    | MultiplePoints               // `num.split('.')` gives more than two parts
    | BadFractionDigit(c: char)    // a fraction character with no entry in chi_dict
    | NotAnInteger(part: string)   // `int()` rejects the integer part

  datatype Result<T> = Ok(value: T) | Err(error: ReadError)

  datatype Option<T> = None | Some(value: T)

  predicate IsDigit(c: char) { '0' <= c <= '9' }

  predicate AllDigits(s: string) { forall i :: 0 <= i < |s| ==> IsDigit(s[i]) }

  predicate NoDigits(s: string) { forall i :: 0 <= i < |s| ==> !IsDigit(s[i]) }

  /** Every character of `s` occurs in `alphabet`. */
  predicate Within(s: string, alphabet: string) { forall i :: 0 <= i < |s| ==> s[i] in alphabet }

  function DigitValue(c: char): (d: nat)
    requires IsDigit(c)
    ensures d < 10
  {
    (c as int) - ('0' as int)
  }

  /** The decimal digit character for `d`, the inverse of DigitValue. */
  function DigitChar(d: nat): (c: char)
    requires d < 10
    ensures IsDigit(c) && DigitValue(c) == d
  {
    (('0' as int) + d) as char
  }

  /** `int(s)` for a string of decimal digits, most significant digit first. */
  function Value(s: string): nat
    requires AllDigits(s)
  {
    if s == [] then 0 else 10 * Value(s[..|s| - 1]) + DigitValue(s[|s| - 1])
  }

  /** chi_dict: one Sino-Korean syllable per digit, 공 for zero. */
  const ChiChars: string := "공일이삼사오육칠팔구"

  function ChiDigit(d: nat): string
    requires d < 10
  {
    [ChiChars[d]]
  }

  /** The digit word used for fractions and version numbers: 영 for zero, chi_dict otherwise. */
  function SinoDigitWord(d: nat): string
    requires d < 10
  {
    if d == 0 then "영" else ChiDigit(d)
  }

  /** Place words 십/백/천 for the tens, hundreds and thousands place of a group. */
  function PlaceName(p: nat): string
    requires 1 <= p <= 3
  {
    if p == 1 then "십" else if p == 2 then "백" else "천"
  }

  /** Tier words for the 10^4k groups, k = 1 .. 5. */
  function TierName(k: nat): string
    requires 1 <= k <= 5
  {
    if k == 1 then "만" else if k == 2 then "억" else if k == 3 then "조" else if k == 4 then "경" else "해"
  }

  /** Every character a Sino-Korean reading of a numeral can contain. */
  const SinoChars: string := "영공일이삼사오육칠팔구십백천만억조경해쩜"

  /** kor_dict without the entry for 1: native-Korean attributive digit words. */
  function KorOnes(d: nat): string
    requires d < 10 && d != 1
  {
    ["영", "", "두", "세", "네", "다섯", "여섯", "일곱", "여덟", "아홉"][d]
  }

  /** kor_dict's entry for 1: 한 (attributive) or 첫 (ordinal). */
  function KorOne(first: bool): string
  {
    if first then "첫" else "한"
  }

  /** kor_unit_dict: native-Korean tens words; it has no entry above 4. */
  function KorTens(d: nat): string
    requires d < 5
  {
    ["", "열", "스물", "서른", "마흔"][d]
  }

  /** Every character a native-Korean reading of a count below 50 can contain. */
  const NativeChars: string := "영한첫두세네다섯여일곱덟아홉열스물서른마흔"

  /** eng_dict, single digits: English digit names in Hangul. */
  function EngDigit(d: nat): string
    requires d < 10
  {
    ["제로", "원", "투", "쓰리", "포", "파이브", "식스", "세븐", "에잇", "나인"][d]
  }

  /** Concatenation regroups freely; the solver does not always find this step itself. */
  lemma ConcatAssoc(x: string, y: string, z: string)
    ensures (x + y) + z == x + (y + z)
  {
  }

  /** The digits of a string read as a number are the digits of its prefix, then its last digit. */
  lemma {:induction false} ValueAppend(s: string, c: char)
    requires AllDigits(s) && IsDigit(c)
    ensures AllDigits(s + [c])
    ensures Value(s + [c]) == 10 * Value(s) + DigitValue(c)
  {
    assert (s + [c])[..|s|] == s;
  }
}
