/** The codes asserted by the test module of src/soundex.rs, worked out on
    `Encoding`, and three codes that show how the separator test behaves
    on vowels.

    Each word is first scanned by position (`ScanFrom`). The lemmas doing so
    take the word as a parameter `w` fixed by their precondition, and assert
    the scan states from the last one back to the first, one character per
    state; `EncodingFromScan` then turns the scan into the word's code. */
module SoundexVectors {
  import opened Soundex

  /** `Scan` of `text[i..]`, reading the characters by position as the source's
      iterator does. A concrete word is evaluated this way without slicing it. */
  function ScanFrom(text: string, i: nat, prevc: char, prevd: char, code: string): (r: Option<string>)
    requires i <= |text|
    ensures r.Some? ==> |code| <= |r.value| && r.value[..|code|] == code
    decreases |text| - i
  {
    if |code| >= CodeLen || i == |text| then Some(code)
    else if !IsAsciiLetter(text[i]) then None
    else
      var c := text[i];
      var d := CharToDigit(c).GetOr(prevd);
      if d != prevd || IsVowel(prevc) then ScanFrom(text, i + 1, c, d, code + [d])
      else ScanFrom(text, i + 1, c, prevd, code)
  }

  /** Reading by position and reading the remaining suffix agree. */
  lemma {:induction false} ScanFromIsScan(text: string, i: nat, prevc: char, prevd: char, code: string)
    requires i <= |text|
    ensures ScanFrom(text, i, prevc, prevd, code) == Scan(text[i..], prevc, prevd, code)
    decreases |text| - i
  {
    if |code| < CodeLen && i < |text| {
      assert text[i..][0] == text[i] && text[i..][1..] == text[i + 1..];
      if IsAsciiLetter(text[i]) {
        var d := CharToDigit(text[i]).GetOr(prevd);
        if d != prevd || IsVowel(prevc) {
          ScanFromIsScan(text, i + 1, text[i], d, code + [d]);
        } else {
          ScanFromIsScan(text, i + 1, text[i], prevd, code);
        }
      }
    }
  }

  /** A word's code from the scan of the characters after its first letter. */
  lemma EncodingFromScan(w: string, code: string)
    requires |w| > 0 && IsAsciiLetter(w[0])
    requires ScanFrom(w, 1, w[0], Seed(w[0]), [ToAsciiUpper(w[0])]) == Some(code) && |code| <= CodeLen
    ensures Encoding(w) == Some(Padded(code))
  {
    ScanFromIsScan(w, 1, w[0], Seed(w[0]), [ToAsciiUpper(w[0])]);
  }

  // ---------------------------------------------------------------------------
  // it_works

  lemma AmmoniumScanFrom5(w: string)
    requires w == "ammonium"
    ensures ScanFrom(w, 5, 'n', '5', "A55") == Some("A555")
  {
    assert "A55" + ['5'] == "A555";
    assert ScanFrom(w, 6, 'i', '5', "A55") == Some("A555");
  }

  lemma AmmoniumScan(w: string)
    requires w == "ammonium"
    ensures ScanFrom(w, 1, 'a', '0', "A") == Some("A555")
  {
    AmmoniumScanFrom5(w);
    assert "A" + ['5'] == "A5";
    assert "A5" + ['5'] == "A55";
    assert ScanFrom(w, 4, 'o', '5', "A5") == Some("A555");
    assert ScanFrom(w, 3, 'm', '5', "A5") == Some("A555");
    assert ScanFrom(w, 2, 'm', '5', "A5") == Some("A555");
  }

  /** 'n' after 'o' and 'u' after 'i' each repeat the digit 5. */
  lemma Ammonium()
    ensures Encoding("ammonium") == Some("A555")
  {
    assert Seed('a') == '0' && [ToAsciiUpper('a')] == "A";
    AmmoniumScan("ammonium");
    EncodingFromScan("ammonium", "A555");
  }

  lemma RobertScanFrom5(w: string)
    requires w == "Robert"
    ensures ScanFrom(w, 5, 'r', '6', "R16") == Some("R163")
  {
    assert "R16" + ['3'] == "R163";
  }

  lemma RobertScan(w: string)
    requires w == "Robert"
    ensures ScanFrom(w, 1, 'R', '6', "R") == Some("R163")
  {
    RobertScanFrom5(w);
    assert "R" + ['1'] == "R1";
    assert "R1" + ['6'] == "R16";
    assert ScanFrom(w, 4, 'e', '1', "R1") == Some("R163");
    assert ScanFrom(w, 3, 'b', '1', "R1") == Some("R163");
    assert ScanFrom(w, 2, 'o', '6', "R") == Some("R163");
  }

  lemma Robert()
    ensures Encoding("Robert") == Some("R163")
  {
    assert Seed('R') == '6' && [ToAsciiUpper('R')] == "R";
    RobertScan("Robert");
    EncodingFromScan("Robert", "R163");
  }

  lemma RubinScan(w: string)
    requires w == "Rubin"
    ensures ScanFrom(w, 1, 'R', '6', "R") == Some("R15")
  {
    assert "R" + ['1'] == "R1";
    assert "R1" + ['5'] == "R15";
    assert ScanFrom(w, 4, 'i', '1', "R1") == Some("R15");
    assert ScanFrom(w, 3, 'b', '1', "R1") == Some("R15");
    assert ScanFrom(w, 2, 'u', '6', "R") == Some("R15");
  }

  /** The input runs out after two digits. */
  lemma Rubin()
    ensures Encoding("Rubin") == Some("R150")
  {
    assert Seed('R') == '6' && [ToAsciiUpper('R')] == "R";
    RubinScan("Rubin");
    EncodingFromScan("Rubin", "R15");
    assert Padded("R15") == "R150";
  }

  lemma AshcraftScanFrom5(w: string)
    requires w == "Ashcraft"
    ensures ScanFrom(w, 5, 'r', '6', "A26") == Some("A261")
  {
    assert "A26" + ['1'] == "A261";
    assert ScanFrom(w, 6, 'a', '6', "A26") == Some("A261");
  }

  lemma AshcraftScan(w: string)
    requires w == "Ashcraft"
    ensures ScanFrom(w, 1, 'A', '0', "A") == Some("A261")
  {
    AshcraftScanFrom5(w);
    assert "A" + ['2'] == "A2";
    assert "A2" + ['6'] == "A26";
    assert ScanFrom(w, 4, 'c', '2', "A2") == Some("A261");
    assert ScanFrom(w, 3, 'h', '2', "A2") == Some("A261");
    assert ScanFrom(w, 2, 's', '2', "A2") == Some("A261");
  }

  /** 'h' between 's' and 'c' does not separate them: they give one 2. */
  lemma Ashcraft()
    ensures Encoding("Ashcraft") == Some("A261")
  {
    assert Seed('A') == '0' && [ToAsciiUpper('A')] == "A";
    AshcraftScan("Ashcraft");
    EncodingFromScan("Ashcraft", "A261");
  }

  lemma TymczakScanFrom5(w: string)
    requires w == "Tymczak"
    ensures ScanFrom(w, 5, 'z', '2', "T52") == Some("T522")
  {
    assert "T52" + ['2'] == "T522";
    assert ScanFrom(w, 6, 'a', '2', "T52") == Some("T522");
  }

  lemma TymczakScan(w: string)
    requires w == "Tymczak"
    ensures ScanFrom(w, 1, 'T', '3', "T") == Some("T522")
  {
    TymczakScanFrom5(w);
    assert "T" + ['5'] == "T5";
    assert "T5" + ['2'] == "T52";
    assert ScanFrom(w, 4, 'c', '2', "T52") == Some("T522");
    assert ScanFrom(w, 3, 'm', '5', "T5") == Some("T522");
    assert ScanFrom(w, 2, 'y', '3', "T") == Some("T522");
  }

  /** 'z' and 'k' both emit 2 because the vowel 'a' lies between them. */
  lemma Tymczak()
    ensures Encoding("Tymczak") == Some("T522")
  {
    assert Seed('T') == '3' && [ToAsciiUpper('T')] == "T";
    TymczakScan("Tymczak");
    EncodingFromScan("Tymczak", "T522");
  }

  lemma PfisterScanFrom5(w: string)
    requires w == "Pfister"
    ensures ScanFrom(w, 5, 't', '3', "P23") == Some("P236")
  {
    assert "P23" + ['6'] == "P236";
    assert ScanFrom(w, 6, 'e', '3', "P23") == Some("P236");
  }

  lemma PfisterScan(w: string)
    requires w == "Pfister"
    ensures ScanFrom(w, 1, 'P', '1', "P") == Some("P236")
  {
    PfisterScanFrom5(w);
    assert "P" + ['2'] == "P2";
    assert "P2" + ['3'] == "P23";
    assert ScanFrom(w, 4, 's', '2', "P2") == Some("P236");
    assert ScanFrom(w, 3, 'i', '1', "P") == Some("P236");
    assert ScanFrom(w, 2, 'f', '1', "P") == Some("P236");
  }

  /** 'P' and 'f' have the same class, so 'f' gives no digit. */
  lemma Pfister()
    ensures Encoding("Pfister") == Some("P236")
  {
    assert Seed('P') == '1' && [ToAsciiUpper('P')] == "P";
    PfisterScan("Pfister");
    EncodingFromScan("Pfister", "P236");
  }

  lemma HoneymanScanFrom5(w: string)
    requires w == "Honeyman"
    ensures ScanFrom(w, 5, 'y', '5', "H55") == Some("H555")
  {
    assert "H55" + ['5'] == "H555";
    assert ScanFrom(w, 7, 'a', '5', "H55") == Some("H555");
    assert ScanFrom(w, 6, 'm', '5', "H55") == Some("H555");
  }

  lemma HoneymanScan(w: string)
    requires w == "Honeyman"
    ensures ScanFrom(w, 1, 'H', '0', "H") == Some("H555")
  {
    HoneymanScanFrom5(w);
    assert "H" + ['5'] == "H5";
    assert "H5" + ['5'] == "H55";
    assert ScanFrom(w, 4, 'e', '5', "H5") == Some("H555");
    assert ScanFrom(w, 3, 'n', '5', "H5") == Some("H555");
    assert ScanFrom(w, 2, 'o', '0', "H") == Some("H555");
  }

  /** 'y' after 'e' repeats the digit 5; 'n' after 'a' repeats it again. */
  lemma Honeyman()
    ensures Encoding("Honeyman") == Some("H555")
  {
    assert Seed('H') == '0' && [ToAsciiUpper('H')] == "H";
    HoneymanScan("Honeyman");
    EncodingFromScan("Honeyman", "H555");
  }

  // ---------------------------------------------------------------------------
  // same_code

  lemma AshcroftScanFrom5(w: string)
    requires w == "Ashcroft"
    ensures ScanFrom(w, 5, 'r', '6', "A26") == Some("A261")
  {
    assert "A26" + ['1'] == "A261";
    assert ScanFrom(w, 6, 'o', '6', "A26") == Some("A261");
  }

  lemma AshcroftScan(w: string)
    requires w == "Ashcroft"
    ensures ScanFrom(w, 1, 'A', '0', "A") == Some("A261")
  {
    AshcroftScanFrom5(w);
    assert "A" + ['2'] == "A2";
    assert "A2" + ['6'] == "A26";
    assert ScanFrom(w, 4, 'c', '2', "A2") == Some("A261");
    assert ScanFrom(w, 3, 'h', '2', "A2") == Some("A261");
    assert ScanFrom(w, 2, 's', '2', "A2") == Some("A261");
  }

  lemma Ashcroft()
    ensures Encoding("Ashcroft") == Some("A261")
  {
    assert Seed('A') == '0' && [ToAsciiUpper('A')] == "A";
    AshcroftScan("Ashcroft");
    EncodingFromScan("Ashcroft", "A261");
  }

  lemma RupertScanFrom5(w: string)
    requires w == "Rupert"
    ensures ScanFrom(w, 5, 'r', '6', "R16") == Some("R163")
  {
    assert "R16" + ['3'] == "R163";
  }

  lemma RupertScan(w: string)
    requires w == "Rupert"
    ensures ScanFrom(w, 1, 'R', '6', "R") == Some("R163")
  {
    RupertScanFrom5(w);
    assert "R" + ['1'] == "R1";
    assert "R1" + ['6'] == "R16";
    assert ScanFrom(w, 4, 'e', '1', "R1") == Some("R163");
    assert ScanFrom(w, 3, 'p', '1', "R1") == Some("R163");
    assert ScanFrom(w, 2, 'u', '6', "R") == Some("R163");
  }

  lemma Rupert()
    ensures Encoding("Rupert") == Some("R163")
  {
    assert Seed('R') == '6' && [ToAsciiUpper('R')] == "R";
    RupertScan("Rupert");
    EncodingFromScan("Rupert", "R163");
  }

  /** Words that sound alike share a code. */
  lemma SameCodes()
    ensures Encoding("Ashcraft") == Encoding("Ashcroft")
    ensures Encoding("Robert") == Encoding("Rupert")
  {
    Ashcraft();
    Ashcroft();
    Robert();
    Rupert();
  }

  // ---------------------------------------------------------------------------
  // short_code

  lemma JiScan(w: string)
    requires w == "Ji"
    ensures ScanFrom(w, 1, 'J', '2', "J") == Some("J")
  {
  }

  lemma Ji()
    ensures Encoding("Ji") == Some("J000")
  {
    assert Seed('J') == '2' && [ToAsciiUpper('J')] == "J";
    JiScan("Ji");
    EncodingFromScan("Ji", "J");
    assert Padded("J") == "J000";
  }

  lemma ZhuScan(w: string)
    requires w == "Zhu"
    ensures ScanFrom(w, 1, 'Z', '2', "Z") == Some("Z")
  {
    assert ScanFrom(w, 2, 'h', '2', "Z") == Some("Z");
  }

  lemma Zhu()
    ensures Encoding("Zhu") == Some("Z000")
  {
    assert Seed('Z') == '2' && [ToAsciiUpper('Z')] == "Z";
    ZhuScan("Zhu");
    EncodingFromScan("Zhu", "Z");
    assert Padded("Z") == "Z000";
  }

  lemma OlyaScan(w: string)
    requires w == "Olya"
    ensures ScanFrom(w, 1, 'O', '0', "O") == Some("O4")
  {
    assert "O" + ['4'] == "O4";
    assert ScanFrom(w, 3, 'y', '4', "O4") == Some("O4");
    assert ScanFrom(w, 2, 'l', '4', "O4") == Some("O4");
  }

  /** The first letter is kept although it is a vowel. */
  lemma Olya()
    ensures Encoding("Olya") == Some("O400")
  {
    assert Seed('O') == '0' && [ToAsciiUpper('O')] == "O";
    OlyaScan("Olya");
    EncodingFromScan("Olya", "O4");
    assert Padded("O4") == "O400";
  }

  // ---------------------------------------------------------------------------
  // The separator test on vowels

  lemma LowerCaseVowelFirstScan(w: string)
    requires w == "aeb"
    ensures ScanFrom(w, 1, 'a', '0', "A") == Some("A01")
  {
    assert "A" + ['0'] == "A0";
    assert "A0" + ['1'] == "A01";
    assert ScanFrom(w, 2, 'e', '0', "A0") == Some("A01");
  }

  /** A lower-case vowel as first letter separates, so the next vowel emits the
      seed digit '0' inside the code. */
  lemma LowerCaseVowelFirst()
    ensures Encoding("aeb") == Some("A010")
  {
    assert Seed('a') == '0' && [ToAsciiUpper('a')] == "A";
    LowerCaseVowelFirstScan("aeb");
    EncodingFromScan("aeb", "A01");
    assert Padded("A01") == "A010";
  }

  lemma UpperCaseVowelFirstScan(w: string)
    requires w == "Aeb"
    ensures ScanFrom(w, 1, 'A', '0', "A") == Some("A1")
  {
    assert "A" + ['1'] == "A1";
    assert ScanFrom(w, 2, 'e', '0', "A") == Some("A1");
  }

  /** An upper-case vowel as first letter does not separate. */
  lemma UpperCaseVowelFirst()
    ensures Encoding("Aeb") == Some("A100")
  {
    assert Seed('A') == '0' && [ToAsciiUpper('A')] == "A";
    UpperCaseVowelFirstScan("Aeb");
    EncodingFromScan("Aeb", "A1");
    assert Padded("A1") == "A100";
  }

  /** So two spellings of one word get different codes. */
  lemma SeparatorIsCaseSensitive()
    ensures Encoding("aeb") != Encoding("Aeb")
  {
    LowerCaseVowelFirst();
    UpperCaseVowelFirst();
  }

  lemma VowelAfterVowelRepeatsDigitScan(w: string)
    requires w == "Lee"
    ensures ScanFrom(w, 1, 'L', '4', "L") == Some("L4")
  {
    assert "L" + ['4'] == "L4";
    assert ScanFrom(w, 2, 'e', '4', "L") == Some("L4");
  }

  /** A vowel after a vowel repeats the previous digit. */
  lemma VowelAfterVowelRepeatsDigit()
    ensures Encoding("Lee") == Some("L400")
  {
    assert Seed('L') == '4' && [ToAsciiUpper('L')] == "L";
    VowelAfterVowelRepeatsDigitScan("Lee");
    EncodingFromScan("Lee", "L4");
    assert Padded("L4") == "L400";
  }
}
