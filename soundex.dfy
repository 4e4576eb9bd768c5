/** The Soundex encoder of src/soundex.rs: a word becomes a 4-symbol code, its
    first letter upper-cased followed by three digit symbols.

    The source panics in two places: on an empty input (`chars.next().unwrap()`)
    and when `char_to_digit` is asked about a character that is not an ASCII
    letter. The specification function `Encoding` is therefore partial: it is
    `None` exactly on the inputs where the source panics, and the method
    `Soundex` requires it to be defined. */
module Soundex {

  /** CODE_LEN: the number of symbols in every code. */
  const CodeLen: nat := 4

  datatype Option<T> = None | Some(value: T) {
    function GetOr(default: T): (r: T)
      ensures Some? ==> r == value
      ensures None? ==> r == default
    {
      match this
      case Some(v) => v
      case None => default
    }
  }

  // ---------------------------------------------------------------------------
  // Characters

  predicate IsAsciiLower(c: char) { 'a' <= c <= 'z' }

  predicate IsAsciiUpper(c: char) { 'A' <= c <= 'Z' }

  predicate IsAsciiLetter(c: char) { IsAsciiLower(c) || IsAsciiUpper(c) }

  /** Rust's `char::to_ascii_uppercase`: letters a-z move to A-Z, everything else is kept. */
  function ToAsciiUpper(c: char): (r: char)
    ensures IsAsciiLower(c) ==> IsAsciiUpper(r) && r as int == c as int - 32
    ensures !IsAsciiLower(c) ==> r == c
  {
    if IsAsciiLower(c) then (c as int - 32) as char else c
  }

  /** Rust's `char::to_ascii_lowercase`: letters A-Z move to a-z, everything else is kept. */
  function ToAsciiLower(c: char): (r: char)
    ensures IsAsciiUpper(c) ==> IsAsciiLower(r) && r as int == c as int + 32
    ensures !IsAsciiUpper(c) ==> r == c
  {
    if IsAsciiUpper(c) then (c as int + 32) as char else c
  }

  /** A digit symbol that `char_to_digit` can produce. */
  predicate IsClassDigit(d: char) { '1' <= d <= '6' }

  /** A symbol that may follow the first letter of a code. */
  predicate IsCodeDigit(d: char) { '0' <= d <= '6' }

  /** The shape of every code: an upper-case letter and three digit symbols. */
  predicate IsCode(s: string) {
    |s| == CodeLen && IsAsciiUpper(s[0]) && forall k :: 1 <= k < |s| ==> IsCodeDigit(s[k])
  }

  // ---------------------------------------------------------------------------
  // char_to_digit and is_vowel

  /** `char_to_digit`: the digit class of a letter, ignoring case; `None` for the
      letters that are dropped. Any other character makes the source panic,
      hence the precondition. */
  function CharToDigit(c: char): (r: Option<char>)
    requires IsAsciiLetter(c)
    ensures r.Some? ==> IsClassDigit(r.value)
  {
    var l := ToAsciiLower(c);
    if l == 'b' || l == 'f' || l == 'p' || l == 'v' then Some('1')
    else if l == 'c' || l == 'g' || l == 'j' || l == 'k' || l == 'q' || l == 's' || l == 'x' || l == 'z' then Some('2')
    else if l == 'd' || l == 't' then Some('3')
    else if l == 'l' then Some('4')
    else if l == 'm' || l == 'n' then Some('5')
    else if l == 'r' then Some('6')
    else None
  }

  /** `is_vowel`: the separator test, true for the lower-case letters a e i o u
      only. A separator is always a lower-case letter without a digit class;
      upper-case vowels and 'y' are not separators. */
  predicate IsVowel(c: char)
    ensures IsVowel(c) ==> IsAsciiLower(c) && CharToDigit(c).None?
    ensures IsAsciiUpper(c) ==> !IsVowel(c)
    ensures c == 'y' ==> !IsVowel(c)
  {
    c == 'a' || c == 'e' || c == 'i' || c == 'o' || c == 'u'
  }

  // ---------------------------------------------------------------------------
  // The encoding, as a specification

  /** The digit the first letter seeds `prevd` with: its class, or '0'. */
  function Seed(first: char): (d: char)
    requires IsAsciiLetter(first)
    ensures IsCodeDigit(d)
    ensures d == '0' <==> CharToDigit(first).None?
  {
    CharToDigit(first).GetOr('0')
  }

  /** The code the scanning loop holds when it stops, started on the unread
      characters `rest` with the loop variables `prevc` and `prevd` and the code
      built so far; `None` when the loop reads a character that is not an ASCII
      letter (the source panics there). Each step reads one character `c`; its
      digit is its class, or `prevd` when it has none; the digit is appended
      when it differs from `prevd` or when `prevc` is a vowel, and then becomes
      `prevd`; `c` always becomes `prevc`. The loop stops when the code is full
      or the input is exhausted. */
  function Scan(rest: string, prevc: char, prevd: char, code: string): (r: Option<string>)
    ensures r.Some? ==> |code| <= |r.value| && r.value[..|code|] == code
    ensures r.Some? && |code| <= CodeLen ==> |r.value| <= CodeLen
    ensures r.Some? ==> |r.value| <= |code| + |rest|
    ensures r.Some? ==> forall k :: |code| <= k < |r.value| ==> IsClassDigit(r.value[k]) || r.value[k] == prevd
    decreases |rest|
  {
    if |code| >= CodeLen || rest == [] then Some(code)
    else if !IsAsciiLetter(rest[0]) then None
    else
      var c := rest[0];
      var d := CharToDigit(c).GetOr(prevd);
      if d != prevd || IsVowel(prevc) then Scan(rest[1..], c, d, code + [d])
      else Scan(rest[1..], c, prevd, code)
  }

  /** The code `text` has when the loop stops, before padding. */
  function Scanned(text: string): (r: Option<string>)
    requires |text| > 0 && IsAsciiLetter(text[0])
    ensures r.Some? ==> 1 <= |r.value| <= CodeLen && |r.value| <= |text|
    ensures r.Some? ==> r.value[0] == ToAsciiUpper(text[0])
    ensures r.Some? ==> forall k :: 1 <= k < |r.value| ==> IsCodeDigit(r.value[k])
  {
    Scan(text[1..], text[0], Seed(text[0]), [ToAsciiUpper(text[0])])
  }

  /** The source's padding of a short code: append "0000", then truncate to
      `CodeLen` symbols. */
  function Padded(code: string): (s: string)
    requires |code| <= CodeLen
    ensures |s| == CodeLen && s[..|code|] == code
    ensures forall k :: |code| <= k < CodeLen ==> s[k] == '0'
  {
    if |code| < CodeLen then (code + "0000")[..CodeLen] else code
  }

  /** `soundex(text)`, or `None` on the inputs where the source panics. */
  function Encoding(text: string): (r: Option<string>)
    ensures |text| == 0 ==> r.None?
    ensures |text| > 0 && !IsAsciiLetter(text[0]) ==> r.None?
    ensures r.Some? ==> IsCode(r.value) && r.value[0] == ToAsciiUpper(text[0])
  {
    if |text| == 0 || !IsAsciiLetter(text[0]) then None
    else
      match Scanned(text)
      case None => None
      case Some(code) => Some(Padded(code))
  }

  // ---------------------------------------------------------------------------
  // The encoder

  /** `soundex`: the source's loop over a growing code, with the character
      iterator as an index `i` into `text`. It is called only where the source
      does not panic, and returns exactly the specified code. */
  method Soundex(text: string) returns (code: string)
    requires Encoding(text).Some?
    ensures Encoding(text) == Some(code)
    ensures IsCode(code) && code[0] == ToAsciiUpper(text[0])
  {
    var prevc := text[0];
    var i := 1;
    code := [ToAsciiUpper(prevc)];
    var prevd := CharToDigit(prevc).GetOr('0');
    ghost var scanned := Scanned(text);
    while |code| < CodeLen
      invariant 1 <= i <= |text|
      invariant 1 <= |code| <= CodeLen
      invariant Scan(text[i..], prevc, prevd, code) == scanned
      decreases |text| - i
    {
      if i == |text| {
        break;
      }
      var c := text[i];
      assert text[i..][0] == c && text[i..][1..] == text[i + 1..];
      var d := CharToDigit(c).GetOr(prevd);
      if d != prevd || IsVowel(prevc) {
        code := code + [d];
        prevd := d;
      }
      i := i + 1;
      prevc := c;
    }
    assert scanned == Some(code);
    if |code| < CodeLen {
      code := code + "0000";
      code := code[..CodeLen];
    }
  }
}
