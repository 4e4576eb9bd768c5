/** Properties of the Soundex encoding of src/soundex.rs: the digit table and
    the separator test, when the encoder is defined, what the adjacency rule
    does, and the padding. */
module SoundexLaws {
  import opened Soundex

  // ---------------------------------------------------------------------------
  // char_to_digit and is_vowel

  /** `char_to_digit` group by group, as its match lists them: no digit for
      a e i o u y h w, then 1 to 6 for the six consonant classes. */
  lemma CharToDigitClasses(c: char)
    requires IsAsciiLetter(c)
    ensures var l := ToAsciiLower(c);
      && (CharToDigit(c) == None <==> l in "aeiouyhw")
      && (CharToDigit(c) == Some('1') <==> l in "bfpv")
      && (CharToDigit(c) == Some('2') <==> l in "cgjkqsxz")
      && (CharToDigit(c) == Some('3') <==> l in "dt")
      && (CharToDigit(c) == Some('4') <==> l == 'l')
      && (CharToDigit(c) == Some('5') <==> l in "mn")
      && (CharToDigit(c) == Some('6') <==> l == 'r')
  {
  }

  /** `char_to_digit` folds case before it looks a letter up. */
  lemma CharToDigitIgnoresCase(c: char)
    requires IsAsciiLetter(c)
    ensures IsAsciiLetter(ToAsciiUpper(c)) && IsAsciiLetter(ToAsciiLower(c))
    ensures CharToDigit(ToAsciiUpper(c)) == CharToDigit(c)
    ensures CharToDigit(ToAsciiLower(c)) == CharToDigit(c)
  {
  }

  /** The separators are lower-case letters without a digit class; upper-case
      letters and 'y' are never separators, although 'y' has no class either. */
  lemma VowelsAreLowerCaseUncoded(c: char)
    ensures IsVowel(c) ==> IsAsciiLower(c) && CharToDigit(c).None?
    ensures IsAsciiUpper(c) ==> !IsVowel(c)
    ensures !IsVowel('y') && CharToDigit('y').None? && CharToDigit('Y').None?
  {
  }

  /** A letter with a digit class never separates. */
  lemma CodedLetterIsNoVowel(c: char)
    requires IsAsciiLetter(c) && CharToDigit(c).Some?
    ensures !IsVowel(c)
  {
    VowelsAreLowerCaseUncoded(c);
  }

  // ---------------------------------------------------------------------------
  // When the encoder is defined

  /** A scan over letters only never reaches the panic of `char_to_digit`. */
  lemma {:induction false} ScanDefinedOnLetters(rest: string, prevc: char, prevd: char, code: string)
    requires forall k :: 0 <= k < |rest| ==> IsAsciiLetter(rest[k])
    ensures Scan(rest, prevc, prevd, code).Some?
    decreases |rest|
  {
    if |code| < CodeLen && rest != [] {
      var d := CharToDigit(rest[0]).GetOr(prevd);
      if d != prevd || IsVowel(prevc) {
        ScanDefinedOnLetters(rest[1..], rest[0], d, code + [d]);
      } else {
        ScanDefinedOnLetters(rest[1..], rest[0], prevd, code);
      }
    }
  }

  /** A non-empty word of ASCII letters always has a code. */
  lemma EncodingDefinedOnLetters(text: string)
    requires |text| > 0 && forall k :: 0 <= k < |text| ==> IsAsciiLetter(text[k])
    ensures Encoding(text).Some?
  {
    ScanDefinedOnLetters(text[1..], text[0], Seed(text[0]), [ToAsciiUpper(text[0])]);
  }

  /** Once the code is full the loop reads nothing more: whatever follows is
      never looked at, not even when it is no letter. */
  lemma {:induction false} ScanIgnoresUnreadSuffix(rest: string, suffix: string, prevc: char, prevd: char, code: string)
    requires Scan(rest, prevc, prevd, code).Some?
    requires |Scan(rest, prevc, prevd, code).value| >= CodeLen
    ensures Scan(rest + suffix, prevc, prevd, code) == Scan(rest, prevc, prevd, code)
    decreases |rest|
  {
    if |code| < CodeLen {
      assert (rest + suffix)[0] == rest[0];
      assert (rest + suffix)[1..] == rest[1..] + suffix;
      var d := CharToDigit(rest[0]).GetOr(prevd);
      if d != prevd || IsVowel(prevc) {
        ScanIgnoresUnreadSuffix(rest[1..], suffix, rest[0], d, code + [d]);
      } else {
        ScanIgnoresUnreadSuffix(rest[1..], suffix, rest[0], prevd, code);
      }
    }
  }

  /** A word whose code is full before padding keeps its code whatever is
      appended to it. */
  lemma EncodingIgnoresUnreadSuffix(text: string, suffix: string)
    requires |text| > 0 && IsAsciiLetter(text[0])
    requires Scanned(text).Some? && |Scanned(text).value| == CodeLen
    ensures Encoding(text + suffix) == Encoding(text)
  {
    assert (text + suffix)[0] == text[0];
    assert (text + suffix)[1..] == text[1..] + suffix;
    ScanIgnoresUnreadSuffix(text[1..], suffix, text[0], Seed(text[0]), [ToAsciiUpper(text[0])]);
  }

  /** A scan that stops with a short code has read all of its input, and every
      character it read was a letter. */
  lemma {:induction false} ShortScanReadAllLetters(rest: string, prevc: char, prevd: char, code: string)
    requires Scan(rest, prevc, prevd, code).Some?
    requires |Scan(rest, prevc, prevd, code).value| < CodeLen
    ensures forall k :: 0 <= k < |rest| ==> IsAsciiLetter(rest[k])
    decreases |rest|
  {
    if rest != [] {
      var d := CharToDigit(rest[0]).GetOr(prevd);
      if d != prevd || IsVowel(prevc) {
        ShortScanReadAllLetters(rest[1..], rest[0], d, code + [d]);
      } else {
        ShortScanReadAllLetters(rest[1..], rest[0], prevd, code);
      }
      forall k | 0 <= k < |rest|
        ensures IsAsciiLetter(rest[k])
      {
        if k > 0 {
          assert rest[k] == rest[1..][k - 1];
        }
      }
    }
  }

  /** A scan that stops with a short code has read all of its input (every
      character of it a letter), so it goes on to read whatever follows, and
      panics when that is no letter. */
  lemma {:induction false} ScanPanicsOnReadNonLetter(rest: string, suffix: string, prevc: char, prevd: char, code: string)
    requires Scan(rest, prevc, prevd, code).Some?
    requires |Scan(rest, prevc, prevd, code).value| < CodeLen
    requires suffix != [] && !IsAsciiLetter(suffix[0])
    ensures Scan(rest + suffix, prevc, prevd, code).None?
    decreases |rest|
  {
    if rest == [] {
      assert rest + suffix == suffix;
    } else {
      assert (rest + suffix)[0] == rest[0];
      assert (rest + suffix)[1..] == rest[1..] + suffix;
      var d := CharToDigit(rest[0]).GetOr(prevd);
      if d != prevd || IsVowel(prevc) {
        ScanPanicsOnReadNonLetter(rest[1..], suffix, rest[0], d, code + [d]);
      } else {
        ScanPanicsOnReadNonLetter(rest[1..], suffix, rest[0], prevd, code);
      }
    }
  }

  /** A word whose code is still short before padding makes the encoder read
      the next character, and a non-letter there is fatal. */
  lemma EncodingPanicsOnReadNonLetter(text: string, suffix: string)
    requires |text| > 0 && IsAsciiLetter(text[0])
    requires Scanned(text).Some? && |Scanned(text).value| < CodeLen
    requires suffix != [] && !IsAsciiLetter(suffix[0])
    ensures Encoding(text + suffix).None?
  {
    assert (text + suffix)[0] == text[0];
    assert (text + suffix)[1..] == text[1..] + suffix;
    ScanPanicsOnReadNonLetter(text[1..], suffix, text[0], Seed(text[0]), [ToAsciiUpper(text[0])]);
  }

  // ---------------------------------------------------------------------------
  // The adjacency rule

  /** The previous character matters to the scan only through `is_vowel`. */
  lemma ScanSeesPrevcOnlyAsVowel(rest: string, p: char, q: char, prevd: char, code: string)
    requires IsVowel(p) == IsVowel(q)
    ensures Scan(rest, p, prevd, code) == Scan(rest, q, prevd, code)
  {
  }

  /** Two neighbouring letters of one class emit one digit. */
  lemma SameClassNeighboursCollapse(c1: char, c2: char, rest: string, prevc: char, prevd: char, code: string)
    requires IsAsciiLetter(c1) && IsAsciiLetter(c2)
    requires CharToDigit(c1).Some? && CharToDigit(c2) == CharToDigit(c1)
    ensures Scan([c1, c2] + rest, prevc, prevd, code) == Scan([c1] + rest, prevc, prevd, code)
  {
    var d := CharToDigit(c1).value;
    CodedLetterIsNoVowel(c1);
    CodedLetterIsNoVowel(c2);
    assert ([c1, c2] + rest)[1..] == [c2] + rest;
    assert ([c1] + rest)[1..] == rest;
    assert ([c2] + rest)[1..] == rest;
    ScanSeesPrevcOnlyAsVowel(rest, c2, c1, d, code);
    ScanSeesPrevcOnlyAsVowel(rest, c2, c1, d, code + [d]);
  }

  /** The first letter seeds the previous digit, so a second letter of the same
      class emits nothing ("Pfister" codes as "P236"). */
  lemma FirstLetterAbsorbsSameClass(text: string)
    requires |text| >= 2 && IsAsciiLetter(text[0]) && IsAsciiLetter(text[1])
    requires CharToDigit(text[0]).Some? && CharToDigit(text[1]) == CharToDigit(text[0])
    ensures Encoding(text) == Encoding([text[0]] + text[2..])
  {
    var shorter := [text[0]] + text[2..];
    assert shorter[0] == text[0] && shorter[1..] == text[2..];
    assert text[1..][1..] == text[2..];
    CodedLetterIsNoVowel(text[0]);
    CodedLetterIsNoVowel(text[1]);
    ScanSeesPrevcOnlyAsVowel(text[2..], text[1], text[0], Seed(text[0]), [ToAsciiUpper(text[0])]);
  }

  /** An uncoded letter after a non-vowel emits nothing; it only becomes the
      previous character. */
  lemma UncodedAfterNonVowelIsSkipped(x: char, rest: string, prevc: char, prevd: char, code: string)
    requires IsAsciiLetter(x) && CharToDigit(x).None?
    requires !IsVowel(prevc)
    ensures Scan([x] + rest, prevc, prevd, code) == Scan(rest, x, prevd, code)
  {
    assert ([x] + rest)[0] == x && ([x] + rest)[1..] == rest;
  }

  /** An uncoded letter that is no separator ('h', 'w', 'y', an upper-case vowel)
      emits nothing when it follows a non-vowel and leaves the scan as if it
      were not there. */
  lemma TransparentLetterIsSkipped(x: char, rest: string, prevc: char, prevd: char, code: string)
    requires IsAsciiLetter(x) && CharToDigit(x).None? && !IsVowel(x)
    requires !IsVowel(prevc)
    ensures Scan([x] + rest, prevc, prevd, code) == Scan(rest, prevc, prevd, code)
  {
    UncodedAfterNonVowelIsSkipped(x, rest, prevc, prevd, code);
    ScanSeesPrevcOnlyAsVowel(rest, x, prevc, prevd, code);
  }

  /** A letter after a separator is always emitted, even when its digit repeats
      the previous one; an uncoded letter there repeats the previous digit. */
  lemma LetterAfterVowelIsEmitted(x: char, rest: string, prevc: char, prevd: char, code: string)
    requires IsAsciiLetter(x) && IsVowel(prevc) && |code| < CodeLen
    ensures var d := CharToDigit(x).GetOr(prevd);
      Scan([x] + rest, prevc, prevd, code) == Scan(rest, x, d, code + [d])
  {
    assert ([x] + rest)[0] == x && ([x] + rest)[1..] == rest;
  }

  /** A vowel between two letters of one class makes the second emit the digit
      again ("Tymczak" codes as "T522"). */
  lemma VowelSeparatesSameClass(v: char, c: char, rest: string, prevc: char, d: char, code: string)
    requires IsVowel(v) && IsAsciiLetter(c) && CharToDigit(c) == Some(d)
    requires !IsVowel(prevc) && |code| < CodeLen
    ensures Scan([v, c] + rest, prevc, d, code) == Scan(rest, c, d, code + [d])
  {
    var tail := [c] + rest;
    assert [v, c] + rest == [v] + tail;
    calc {
      Scan([v, c] + rest, prevc, d, code);
    ==
      Scan([v] + tail, prevc, d, code);
    == { VowelsAreLowerCaseUncoded(v); UncodedAfterNonVowelIsSkipped(v, tail, prevc, d, code); }
      Scan(tail, v, d, code);
    == { LetterAfterVowelIsEmitted(c, rest, v, d, code); }
      Scan(rest, c, d, code + [d]);
    }
  }

  // ---------------------------------------------------------------------------
  // Padding

  /** The loop appends at most one digit per character read, so every position
      past the end of a short word is a padding '0' ("Ji" codes as "J000"). */
  lemma PaddingBeyondInput(text: string)
    requires Encoding(text).Some?
    ensures forall k :: |text| <= k < CodeLen ==> Encoding(text).value[k] == '0'
  {
  }

  /** A single letter codes as itself upper-cased and three '0's. */
  lemma SingleLetterCode(c: char)
    requires IsAsciiLetter(c)
    ensures Encoding([c]) == Some([ToAsciiUpper(c), '0', '0', '0'])
  {
    assert [c][1..] == [];
    assert Scanned([c]) == Some([ToAsciiUpper(c)]);
    assert ([ToAsciiUpper(c)] + "0000")[..CodeLen] == [ToAsciiUpper(c), '0', '0', '0'];
  }
}
