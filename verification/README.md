# Korean numeral reading, verified in Dafny

This project models the numeral-reading core of the `NumToWord` converter
(`ruleNumToKor.py`). The converter rewrites the digits in a Korean sentence into
spoken Korean. The model covers these parts of it:

- `convert_unit` reads one group of up to four digits with the place words 십/백/천.
- `convert_chi` reads a whole numeral in the Sino-Korean system. It strips commas and
  reads a fraction after 쩜. An all-zero integer part reads 영 per zero, and one with a
  leading zero reads digit by digit. Other values are split into base-10⁴ groups with the
  tier words 만/억/조/경/해.
- `convert_kor` reads small counts in the native system: 열/스물/서른/마흔, the attributive
  ones words, the irregular 스무, and 한 or 첫. It hands everything else to `convert_chi`.
- The digit-by-digit identifier readers of `exc_handling` cover phone, flight, model and
  reference codes, version numbers, English-style counts and "1+1".
- The default path of `convert` chooses between the two readings by the classifier word
  after the number.

Files and modules:

| file | module | what it holds |
|---|---|---|
| `tables.dfy` | `Tables` | digits, `int()` of a digit string, the fixed tables `chi_dict`, `kor_dict`, `kor_unit_dict`, `eng_dict` |
| `identifiers.dfy` | `IdentifierReaders` | the per-character readers of `exc_handling` |
| `sino.dfy` | `SinoKorean` | `convert_unit`, `convert_chi` and its loops, each proved against a recursive function |
| `numerals.dfy` | `Numerals` | the language of `pat_num`, and the proof that every such numeral has a Sino-Korean reading without digits |
| `native.dfy` | `NativeKorean` | `convert_kor`, proved against a recursive function, and its properties |
| `classifier.dfy` | `ReadingChoice` | the classifier branch of `convert` |

How the model works:

- Each imperative loop of the source is a Dafny `method` with a `while` or `for` loop.
  Its postcondition ties the result to a recursive specification function, and the
  properties are proved about that function:
  - `ConvertUnit` against `UnitReading`;
  - `ReadGroups` against `GroupsFrom`;
  - `ReadFraction` against `FractionReading`;
  - `ConvertChi` against `SinoReading`;
  - `ConvertKor` against `NativeReading`.
- `convert_chi` raises in three cases, and the model returns an error value for each
  (`Result`):
  - more than one point (`num.split('.')` cannot be unpacked);
  - a fraction character that is not in `chi_dict`;
  - an integer part that `int()` rejects.
- Integers are unbounded. The limit CPython puts on the length of a digit string that
  `int()` accepts is not modelled (see "## Left out").

One reading that may surprise: "11000" reads 만천, not 일만일천
(`SinoKorean.ReadsElevenThousand`). The group 1 at the 만 tier is dropped at lines
147-148 of ruleNumToKor.py. `convert_unit(1000)` yields 천, because a leading 1 before a
place word is never read (lines 106-107).

## Model

| member | source | states |
|---|---|---|
| `Tables.DigitChar` | ruleNumToKor.py:135 | each value below 10 is written by exactly one digit character, and `int()` reads that character back as the value |
| `IdentifierReaders.DigitCode` | ruleNumToKor.py:185 | the code reader keeps the length; each digit becomes its `chi_dict` syllable (0 is 공), and every other character stays |
| `IdentifierReaders.DigitCodeIdempotent` | ruleNumToKor.py:185 | the result has no digits, so reading it again changes nothing |
| `IdentifierReaders.DigitCodeKeepsNonDigits` | ruleNumToKor.py:185 | a text without digits is left unchanged |
| `IdentifierReaders.VersionDigits` | ruleNumToKor.py:227 | the version digit pass keeps the length; a digit becomes its word with 영 for 0, and other characters stay |
| `IdentifierReaders.PointsToJjeom` | ruleNumToKor.py:228 | every point becomes 쩜, and nothing else changes |
| `IdentifierReaders.VersionReadingPerCharacter` | ruleNumToKor.py:227-228 | the two version passes act as one character map: a digit becomes its word (영 for 0), '.' becomes 쩜, and anything else stays |
| `IdentifierReaders.EngReading` | ruleNumToKor.py:231 | a text without digits is unchanged; the result contains '+' exactly when the input does |
| `IdentifierReaders.EngReadingSingle` | ruleNumToKor.py:231 | one character reads as its `eng_dict` name when it is a digit and stays as it is otherwise |
| `IdentifierReaders.EngReadingAppend` | ruleNumToKor.py:231 | the English reading of a text is the readings of its parts joined, so with `EngReadingSingle` every character is replaced in place on its own |
| `IdentifierReaders.EngReadingNoDigits` | ruleNumToKor.py:231 | the English reader leaves no digit behind |
| `IdentifierReaders.SpellPlus` | ruleNumToKor.py:235 | no '+' survives; a text without '+' is unchanged |
| `IdentifierReaders.SpellPlusAppend` | ruleNumToKor.py:235 | replacing '+' distributes over concatenation |
| `IdentifierReaders.OnePlusOnePerCharacter` | ruleNumToKor.py:234-235 | the 1+1 reader replaces each character on its own: a digit by its English name, '+' by " 플러스 " |
| `IdentifierReaders.OnePlusOneExample` | ruleNumToKor.py:234-235 | "1+1" reads "원 플러스 원" |
| `SinoKorean.ConvertUnit` | ruleNumToKor.py:83-111 | the divmod-by-10 loop returns `UnitReading(num)`: each digit's word, most significant first |
| `SinoKorean.UnitReadingDigits` | ruleNumToKor.py:83-111 | a group reads as its thousands, hundreds, tens and ones parts joined in that order; digits above the thousands place give nothing |
| `SinoKorean.UnitReadingEmpty` | ruleNumToKor.py:88-92 | a group reads as nothing if and only if its value is a multiple of 10⁴ (so `convert_unit(0)` is empty) |
| `SinoKorean.UnitReadingIsIl` | ruleNumToKor.py:93-110 | below 10⁴, the group 1 is the only one that reads exactly 일 |
| `SinoKorean.PlacePartEndsInPlaceWord` | ruleNumToKor.py:95-109 | a tens, hundreds or thousands digit gives nothing if and only if it is 0; otherwise its word ends in 십, 백 or 천 |
| `SinoKorean.UnitReadingEndsInPlaceWord` | ruleNumToKor.py:95-109 | a nonempty group reading whose ones digit is 0 ends in a place word |
| `SinoKorean.GroupWordShape` | ruleNumToKor.py:144-157 | a nonzero group at tiers 1-5 reads as its group words then its tier word; the group words are dropped only for the value 1 at the 만 tier |
| `SinoKorean.GroupsByTier` | ruleNumToKor.py:134-158 | the integer reading joins the words of the 10²⁰, 10¹⁶, 10¹², 10⁸, 10⁴ and units groups in that order; groups above 10²³ give nothing |
| `SinoKorean.FractionWords` | ruleNumToKor.py:121-125 | the fraction loop succeeds if and only if every character is a digit; it gives one word per digit (영 for 0); otherwise it fails on a non-digit |
| `SinoKorean.FractionErrorPersists` | ruleNumToKor.py:121-125 | once a fraction prefix fails, the whole fraction fails with the same error |
| `SinoKorean.ReadFraction` | ruleNumToKor.py:118-125 | the fraction loop returns 쩜 and the digit words, or the first character with no `chi_dict` entry |
| `SinoKorean.ConvertChi` | ruleNumToKor.py:113-160 | `convert_chi` returns `SinoReading(num)`, including its three error cases |
| `SinoKorean.ReadGroups` | ruleNumToKor.py:134-158 | the divmod-by-10⁴ loop returns `GroupsFrom(v, 0)` |
| `SinoKorean.ReadGroup` | ruleNumToKor.py:143-157 | one nonzero group: its `convert_unit` reading placed under its tier |
| `SinoKorean.AttachTier` | ruleNumToKor.py:144-157 | the tier branches: append at tier 0, prepend with 만/억/조/경/해 at tiers 1-5 (dropping a lone 일 at 만), ignore higher tiers |
| `SinoKorean.RemoveCommas` | ruleNumToKor.py:127 | no comma is left, and the text is no longer than before |
| `SinoKorean.RemoveCommasKeeps` | ruleNumToKor.py:127 | every character other than ',' is in the result if and only if it was in the input |
| `SinoKorean.RemoveCommasNoComma` | ruleNumToKor.py:127 | a text without commas is unchanged |
| `SinoKorean.IndexOfFirst` | ruleNumToKor.py:118-119 | the split point is the first '.' |
| `SinoKorean.CommasIgnored` | ruleNumToKor.py:127 | without a point, a numeral reads the same as its comma-free text |
| `SinoKorean.FractionIndependent` | ruleNumToKor.py:118-127 | with one point, the integer part is read on its own and the fraction's words follow; a bad fraction makes the whole reading fail |
| `SinoKorean.AllZerosReadYeong` | ruleNumToKor.py:128-130 | an all-zero integer part reads one 영 per zero |
| `SinoKorean.LeadingZeroDigitByDigit` | ruleNumToKor.py:131-133 | a leading zero with some nonzero digit gives one `chi_dict` syllable per digit (0 is 공) and no place words |
| `SinoKorean.ReadsZero` | ruleNumToKor.py:128-130 | "0" reads 영 |
| `SinoKorean.ReadsTripleZero` | ruleNumToKor.py:128-130 | "000" reads 영영영 |
| `SinoKorean.ReadsDoubleZeroSeven` | ruleNumToKor.py:131-133 | "007" reads 공공칠 |
| `SinoKorean.ReadsTwenty` | ruleNumToKor.py:83-111 | "20" reads 이십 |
| `SinoKorean.ReadsHundred` | ruleNumToKor.py:100-102 | "100" reads 백 |
| `SinoKorean.ReadsThousandWithComma` | ruleNumToKor.py:127 | "1,000" reads 천 |
| `SinoKorean.ReadsTenThousand` | ruleNumToKor.py:146-149 | "10000" reads 만 |
| `SinoKorean.ReadsElevenThousand` | ruleNumToKor.py:146-149 | "11000" reads 만천 |
| `SinoKorean.ReadsHundredMillion` | ruleNumToKor.py:150-151 | "100000000" reads 일억 (일 is kept above the 만 tier) |
| `SinoKorean.ReadsThreePointZeroFive` | ruleNumToKor.py:118-125 | "3.05" reads 삼쩜영오 |
| `SinoKorean.ReadsTwoPointsAsError` | ruleNumToKor.py:119 | "1.2.3" fails with the multiple-points error |
| `Numerals.GroupedIntegerDigits` | ruleNumToKor.py:11 | removing the commas from a `\d+(,\d{3})*` match leaves a nonempty digit string with no point |
| `Numerals.PlainNumeralDigits` | ruleNumToKor.py:11 | a `pat_num` match with no point or comma is a nonempty digit string |
| `Numerals.NumeralReadsOk` | ruleNumToKor.py:113-160 | `convert_chi` never fails on a `pat_num` match |
| `Numerals.NumeralReadingWithin` | ruleNumToKor.py:113-160 | a numeral's reading uses only the digit, place and tier syllables, 영 and 쩜, so it has no digits |
| `Numerals.SinoWords` | ruleNumToKor.py:113-160 | the reading of a numeral is what `convert_chi` returns for it, and it has no digits |
| `NativeKorean.ConvertKor` | ruleNumToKor.py:59-81 | `convert_kor` returns `NativeReading(num, first)`: delegation, 스무, or the character loop |
| `NativeKorean.SmallValueDomain` | ruleNumToKor.py:61 | a digit string below 50 has zeros above the tens place and a tens digit of at most 4, so the table lookups of the loop are defined |
| `NativeKorean.DelegatesToSino` | ruleNumToKor.py:61-63 | a numeral with a point or a comma, or of value 50 or more, gets exactly the `convert_chi` reading |
| `NativeKorean.SeumuOnlyForTwenty` | ruleNumToKor.py:64-65 | the reading is 스무 if and only if the input is "20" |
| `NativeKorean.NativeLoopWithin` | ruleNumToKor.py:69-80 | the character loop writes only native-Korean number syllables |
| `NativeKorean.NativeCount` | ruleNumToKor.py:66-80 | each count 1-49 other than 20 reads as its tens word then its ones word; a ones digit 0 gives nothing, and 1 gives 한 (첫 if ordinal) |
| `NativeKorean.FirstChangesOnlyFinalOne` | ruleNumToKor.py:73-74 | the ordinal flag changes the reading if and only if the loop reads a final digit 1; it then changes only the last syllable, from 한 to 첫 |
| `NativeKorean.NativeLoopFirst` | ruleNumToKor.py:69-80 | the flag makes no difference unless the last digit is 1; if it is, the readings differ only in the last syllable, 한 or 첫 |
| `NativeKorean.ReadsTenNative` | ruleNumToKor.py:76-77 | "10" reads 열 |
| `NativeKorean.ReadsTwentyOne` | ruleNumToKor.py:73-77 | "21" reads 스물한 |
| `NativeKorean.ReadsFortyFive` | ruleNumToKor.py:76-79 | "45" reads 마흔다섯 |
| `NativeKorean.ReadsFirst` | ruleNumToKor.py:73-74 | an ordinal "1" reads 첫 and an ordinal "11" reads 열첫 |
| `NativeKorean.ReadsDoubleZeroSevenNative` | ruleNumToKor.py:70-79 | "007" reads 영일곱: the first 0 is 영, and later zeros are skipped |
| `ReadingChoice.DefaultReading` | ruleNumToKor.py:278-300 | the default path always gives either the Sino-Korean or the native reading of the numeral |
| `ReadingChoice.DefaultReadingChoice` | ruleNumToKor.py:278-300 | the Sino-Korean reading is chosen exactly when there is no classifier, 시 goes with a value above 12, 시간 goes with "24", 제 precedes 장 under another classifier, or `convert_kor` delegates; otherwise the native reading is chosen |
| `ReadingChoice.DelegatedIgnoresClassifier` | ruleNumToKor.py:295-296 | a numeral that `convert_kor` delegates reads Sino-Korean whatever the classifier is |
| `ReadingChoice.ClockHours` | ruleNumToKor.py:279-288 | with 시, a value above 12 reads Sino-Korean and any other value natively, with or without commas |
| `ReadingChoice.PlainAboveTwelve` | ruleNumToKor.py:283-284 | for a numeral without point or comma, `float(n) > 12` is the integer comparison |
| `ReadingChoice.ClockHoursNative` | ruleNumToKor.py:279-296 | with 시, a plain hour above 12 reads Sino-Korean; one from 0 to 12 goes to the native character loop |
| `ReadingChoice.Hours` | ruleNumToKor.py:289-291 | with 시간, "24" gets its Sino-Korean reading and any other numeral the native one |
| `ReadingChoice.TwentyFourReadsSino` | ruleNumToKor.py:290-291 | the literal 이십사 is the `convert_chi` reading of "24" |
| `ReadingChoice.ClockThirteen` | ruleNumToKor.py:283-285 | 13 시 reads 십삼 |
| `ReadingChoice.ClockTwelve` | ruleNumToKor.py:295-296 | 12 시 reads 열두 |
| `ReadingChoice.ClockFive` | ruleNumToKor.py:295-296 | 5 시 reads 다섯 |
| `ReadingChoice.HoursTwentyFour` | ruleNumToKor.py:289-291 | 24 시간 reads 이십사 |
| `ReadingChoice.HoursThree` | ruleNumToKor.py:289-296 | 3 시간 reads 세 |
| `ReadingChoice.ChapterExamples` | ruleNumToKor.py:292-300 | 제 3 장 reads 삼, 3 장 reads 세, and 3 with no classifier reads 삼 |

## Left out

- The window extraction and the rewrite loop of `convert` (`pat_base` and the `while`
  over the mutated text). They depend on Python regex semantics, and their termination
  does not follow from the code. The default path is modelled for one numeral per window.
- The exception-rule regexes and the `kor_clf` regex. They use lookaround and IGNORECASE.
  The classifier word is an input of `ReadingChoice.DefaultReading`, and the identifier
  readers are modelled without the rule that selects them.
- The date, month, 만, anniversary, currency and phone-model/network handlers of
  `exc_handling`. They call `re.sub` with patterns built from the number itself, without
  escaping, so a faithful model would be a regex-engine model.
- The sign, sentinel and whitespace post-pass of `convert`. It is purely regex-driven.
- `try`/`except` with `print` and `exit()`, the `__main__` demo and the unused `json`
  import. These are I/O and process control.
- The tables `unit_dict` (never used by the source), `sign_dict` and `ccy_dict` (used
  only by the left-out handlers), and the `eng_dict` entries for 10 and 11 (used only
  by the phone-model handler).
- SinoKorean.ConvertChi: CPython 3.11 and later (and the security releases before it)
  make `int()` raise `ValueError` on a digit string of more than 4300 digits. So
  `convert_chi` raises at line 135 for an integer part of more than 4300 digits that
  neither starts with 0 nor is all zeros. `convert_kor` raises at line 61 for such a
  numeral without point or comma. The model reads all of these, because its integers
  are unbounded.
- Numerals.NumeralReadsOk: for the same reason, it does not hold for a numeral whose
  integer part has more than 4300 digits and no leading 0. The source raises there, and
  the model gives a reading.
- Python `int()` leniency. Surrounding whitespace, a sign, underscores and non-ASCII
  Unicode digits are not modelled; `\d` is taken as ASCII 0-9.
- ReadingChoice.DefaultReading: it reads `float(n) > 12` as an exact decimal
  comparison. The two can differ only for a numeral with a point that lies just above 12.
  For such a numeral `convert_kor` delegates to `convert_chi`, so the reading is the same.
- ReadingChoice.DefaultReading: the source re-runs the search after replacing the
  number. This is modelled as leaving the Sino-Korean reading as it is, which is exact
  because `Numerals.SinoWords` proves that reading has no digits.
- NativeKorean.ConvertKor: the call `pat_num.sub(convert_chi, num)` is modelled as
  `convert_chi(num)`. Every caller passes a whole `pat_num` match, so the two are the
  same. The model therefore requires its input to be such a match.
