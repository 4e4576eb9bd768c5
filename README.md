# Soundex encoder of fuzzystrmatch, in Dafny

This project models the Soundex phonetic encoder of `src/soundex.rs`. The
encoder turns a word into a 4-symbol code: its first letter upper-cased,
then three digit symbols. It follows its own variant of the American
Soundex rules, and the model follows that code:

- `char_to_digit` maps a letter, ignoring case, to a class digit `'1'`..`'6'`.
  It maps `a e i o u y h w` to nothing and panics on any other character.
- `is_vowel` is true for the lower-case letters `a e i o u` only.
- `soundex` keeps the first character upper-cased. It seeds `prevd` with that
  character's class, or `'0'`. Then it reads the remaining characters one at
  a time while the code is shorter than 4:
  - an uncoded letter takes the digit `prevd`;
  - the digit is appended when it differs from `prevd` or when the previous
    character `prevc` is a vowel.

  A code still short at the end is padded with `'0'`.

The module `Soundex` (`soundex.dfy`) holds the data and the specification
functions. A code is a `string`. `Encoding(text)` is the code of `text`, or
`None` on the inputs where the source panics. `Scan` is the loop as a
function of its state: the unread characters, `prevc`, `prevd` and the code
so far.

The method `Soundex` is the source's loop. It is written with an index in
place of the character iterator, and proved to return exactly `Encoding(text)`.
Its precondition `Encoding(text).Some?` is the exact set of inputs on which
the source returns.

The module `SoundexLaws` (`soundex_laws.dfy`) proves the properties of the
digit table, the separator test, the adjacency rule and the padding. The
module `SoundexVectors` (`soundex_vectors.dfy`) proves the codes that the
source's tests assert, and three codes that show how the separator test
behaves on vowels.

## Model

| member | source | states |
|---|---|---|
| Soundex.Soundex | src/soundex.rs:3-29 | on every input where the source does not panic, the loop returns exactly `Encoding(text)`: four symbols, the first input character upper-cased, then digit symbols |
| Soundex.Encoding | src/soundex.rs:3-29 | an empty input, or a first character that is not an ASCII letter, has no code (the source panics); every code is an upper-case letter followed by three symbols in `'0'..'6'`, and its first symbol is the upper-cased first character |
| Soundex.Scanned | src/soundex.rs:6-23 | the code the loop holds when it stops has 1 to 4 symbols and no more than the input's length; it starts with the upper-cased first character, followed by symbols in `'0'..'6'` |
| Soundex.Scan | src/soundex.rs:11-23 | the loop only appends to the code; it stops at 4 symbols; it appends at most one symbol per character read; every appended symbol is a class digit or the seed `prevd` |
| Soundex.Seed | src/soundex.rs:10 | the first letter seeds `prevd` with a symbol in `'0'..'6'`, and with `'0'` exactly when the letter has no class |
| Soundex.Padded | src/soundex.rs:24-27 | padding keeps the code as a prefix and fills it up to exactly 4 symbols with `'0'` |
| Soundex.CharToDigit | src/soundex.rs:31-46 | a letter's class, when it has one, is a digit `'1'..'6'` |
| Soundex.IsVowel | src/soundex.rs:48-50 | true exactly for the lower-case letters a e i o u: every separator is a lower-case letter without a class; upper-case vowels and `y` are not separators |
| Soundex.ToAsciiUpper | src/soundex.rs:8 | `a`-`z` move to `A`-`Z`; every other character is unchanged |
| Soundex.ToAsciiLower | src/soundex.rs:32 | `A`-`Z` move to `a`-`z`; every other character is unchanged |
| SoundexLaws.CharToDigitClasses | src/soundex.rs:31-46 | in both directions: no class for `a e i o u y h w`; `'1'` for `b f p v`; `'2'` for `c g j k q s x z`; `'3'` for `d t`; `'4'` for `l`; `'5'` for `m n`; `'6'` for `r` |
| SoundexLaws.CharToDigitIgnoresCase | src/soundex.rs:32 | a letter and its upper-case and lower-case forms have the same class |
| SoundexLaws.VowelsAreLowerCaseUncoded | src/soundex.rs:48-50 | a vowel is a lower-case letter without a class; no upper-case letter is a vowel; `y` has no class but is not a vowel |
| SoundexLaws.CodedLetterIsNoVowel | src/soundex.rs:31-50 | a letter with a class never separates |
| SoundexLaws.ScanDefinedOnLetters | src/soundex.rs:11-23 | a scan over ASCII letters only never reaches the panic |
| SoundexLaws.EncodingDefinedOnLetters | src/soundex.rs:3-29 | a non-empty word made only of ASCII letters has a code |
| SoundexLaws.ScanIgnoresUnreadSuffix | src/soundex.rs:11-16 | once the scan yields a full code, appending anything to the unread input changes nothing |
| SoundexLaws.EncodingIgnoresUnreadSuffix | src/soundex.rs:11-16 | a word whose code is full before padding keeps its code whatever follows it, even characters that are not letters |
| SoundexLaws.ShortScanReadAllLetters | src/soundex.rs:11-17 | a scan that stops with a short code has read all of its input, and every character of it is an ASCII letter |
| SoundexLaws.ScanPanicsOnReadNonLetter | src/soundex.rs:11-17 | a scan that stops short reads whatever follows its input, and a character that is not a letter there makes it panic |
| SoundexLaws.EncodingPanicsOnReadNonLetter | src/soundex.rs:11-17 | a word whose code is still short has no code once a character that is not a letter is appended |
| SoundexLaws.ScanSeesPrevcOnlyAsVowel | src/soundex.rs:18 | two previous characters that agree on `is_vowel` give the same scan |
| SoundexLaws.SameClassNeighboursCollapse | src/soundex.rs:17-22 | two neighbouring letters of one class emit what the first one alone emits |
| SoundexLaws.FirstLetterAbsorbsSameClass | src/soundex.rs:10 | a second letter of the first letter's class can be deleted without changing the code |
| SoundexLaws.UncodedAfterNonVowelIsSkipped | src/soundex.rs:17-22 | an uncoded letter after a non-vowel appends nothing and only becomes `prevc` |
| SoundexLaws.TransparentLetterIsSkipped | src/soundex.rs:17-22 | an uncoded non-vowel after a non-vowel leaves the scan as if it were absent |
| SoundexLaws.LetterAfterVowelIsEmitted | src/soundex.rs:17-21 | a letter after a vowel is always appended; an uncoded one appends `prevd` again |
| SoundexLaws.VowelSeparatesSameClass | src/soundex.rs:17-21 | a vowel between two letters of one class makes the second letter emit the digit again |
| SoundexLaws.PaddingBeyondInput | src/soundex.rs:24-27 | every position of the code at or past the word's length is `'0'` |
| SoundexLaws.SingleLetterCode | src/soundex.rs:24-27 | a single letter codes as itself upper-cased, then `000` |
| SoundexVectors.ScanFromIsScan | src/soundex.rs:11-23 | reading the input by position, as the loop does, gives the same result as `Scan` on the remaining suffix |
| SoundexVectors.EncodingFromScan | src/soundex.rs:3-29 | a word's code is the padded result of scanning it from position 1 |
| SoundexVectors.Ammonium | src/soundex.rs:58 | `"ammonium"` codes as `A555` |
| SoundexVectors.Robert | src/soundex.rs:60 | `"Robert"` codes as `R163` |
| SoundexVectors.Rubin | src/soundex.rs:61 | `"Rubin"` codes as `R150` |
| SoundexVectors.Ashcraft | src/soundex.rs:62 | `"Ashcraft"` codes as `A261` |
| SoundexVectors.Tymczak | src/soundex.rs:64-65 | `"Tymczak"` codes as `T522` |
| SoundexVectors.Pfister | src/soundex.rs:67-68 | `"Pfister"` codes as `P236` |
| SoundexVectors.Honeyman | src/soundex.rs:70 | `"Honeyman"` codes as `H555` |
| SoundexVectors.Ashcroft | src/soundex.rs:75 | `"Ashcroft"` codes as `A261` |
| SoundexVectors.Rupert | src/soundex.rs:76 | `"Rupert"` codes as `R163` |
| SoundexVectors.SameCodes | src/soundex.rs:74-77 | `"Ashcraft"` and `"Ashcroft"` share a code, and so do `"Robert"` and `"Rupert"` |
| SoundexVectors.Ji | src/soundex.rs:81 | `"Ji"` codes as `J000` |
| SoundexVectors.Zhu | src/soundex.rs:82 | `"Zhu"` codes as `Z000` |
| SoundexVectors.Olya | src/soundex.rs:83 | `"Olya"` codes as `O400` |
| SoundexVectors.LowerCaseVowelFirst | src/soundex.rs:17-20 | `"aeb"` codes as `A010`: a lower-case first vowel separates, so the next vowel emits the seed `'0'` |
| SoundexVectors.UpperCaseVowelFirst | src/soundex.rs:49 | `"Aeb"` codes as `A100`: an upper-case first vowel does not separate |
| SoundexVectors.SeparatorIsCaseSensitive | src/soundex.rs:48-50 | `"aeb"` and `"Aeb"` get different codes |
| SoundexVectors.VowelAfterVowelRepeatsDigit | src/soundex.rs:17-18 | `"Lee"` codes as `L400`: a vowel after a vowel repeats the previous digit |

## Left out

- The panic itself and its message (`unexpected char`, the `unwrap` on an empty input) are not modelled. They are the `None` case of `Encoding`, and the method `Soundex` requires it to be `Some`.
- The byte length of Rust strings is not modelled: the loop compares `code.len()`, a byte count, with 4, and the model counts characters. Every symbol pushed onto the code is ASCII, so the two agree.
- `String::with_capacity` and the other allocation details are not modelled. Pushing to the buffer is modelled as concatenation onto a `string`.
- The test harness (`#[cfg(test)]`, `assert_eq!`) is not modelled. Its vectors are lemmas about `Encoding`.
- Soundex.CharToDigit: the source's `match` is written as a chain of conditions on the lower-cased letter. `SoundexLaws.CharToDigitClasses` states the match's groups in both directions.
