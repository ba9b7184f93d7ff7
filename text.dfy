/**
 * capitalizeFirst, the helper the clock uses to capitalise the formatted
 * date. The host's upper-casing of one character is a parameter: it may
 * return more than one character.
 */
module Text {

  /** Empty text stays empty; otherwise only the first character is upper-cased. */
  function CapitalizeFirst(text: string, upper: char -> string): (r: string)
    ensures text == [] ==> r == []
    ensures text != [] ==>
              && |r| == |upper(text[0])| + |text| - 1
              && r[..|upper(text[0])|] == upper(text[0])
              && r[|upper(text[0])|..] == text[1..]
  {
    if text == [] then [] else upper(text[0]) + text[1..]
  }

  /** Upper-casing restricted to ASCII: 'a'..'z' map to 'A'..'Z', all else is kept. */
  function AsciiUpper(c: char): (r: string)
    ensures |r| == 1
    ensures 'a' <= c <= 'z' ==> 'A' <= r[0] <= 'Z' && r[0] as int == c as int - 32
    ensures !('a' <= c <= 'z') ==> r == [c]
  {
    if 'a' <= c <= 'z' then [(c as int - 32) as char] else [c]
  }

  /**
   * With ASCII upper-casing the text keeps its length, every character but
   * the first is kept, and capitalising twice is capitalising once.
   */
  lemma AsciiCapitalizeFirst(text: string)
    ensures |CapitalizeFirst(text, AsciiUpper)| == |text|
    ensures forall i :: 1 <= i < |text| ==> CapitalizeFirst(text, AsciiUpper)[i] == text[i]
    ensures CapitalizeFirst(CapitalizeFirst(text, AsciiUpper), AsciiUpper)
            == CapitalizeFirst(text, AsciiUpper)
  {
    if text != [] {
      var r := CapitalizeFirst(text, AsciiUpper);
      assert r == AsciiUpper(text[0]) + text[1..];
      assert r[0] == AsciiUpper(text[0])[0];
      assert AsciiUpper(r[0]) == [r[0]];
      assert CapitalizeFirst(r, AsciiUpper) == [r[0]] + r[1..];
    }
  }
}
