/** Colour choice for a new local participant (src/utils/randomColor.ts). */
module Palette {

  /** The fixed palette, in source order. */
  const Colors: seq<string> := [
    "#958DF1", "#F98181", "#FBBC88", "#FAF594", "#70CFF8",
    "#94FADB", "#B9F18D", "#FF7DE9", "#FF97B5", "#FF9E66"
  ]

  /** `Math.floor(random * colors.length)` for a draw `random` of `Math.random()`. */
  function ColorIndex(random: real): (i: nat)
    requires 0.0 <= random < 1.0
    ensures i < |Colors|
  {
    (random * |Colors| as real).Floor
  }

  /** `getRandomColor()`, with the draw of `Math.random()` as a parameter. */
  function GetRandomColor(random: real): (c: string)
    requires 0.0 <= random < 1.0
    ensures c in Colors
  {
    Colors[ColorIndex(random)]
  }

  /** Every palette entry is chosen by some draw. */
  lemma EveryColorReachable(i: nat)
    requires i < |Colors|
    ensures exists random: real :: 0.0 <= random < 1.0 && GetRandomColor(random) == Colors[i]
  {
    var random := i as real / |Colors| as real;
    assert random * |Colors| as real == i as real;
    assert 0.0 <= random < 1.0;
    assert ColorIndex(random) == i;
    assert GetRandomColor(random) == Colors[i];
  }

  lemma ColorsDistinct()
    ensures forall i, j :: 0 <= i < j < |Colors| ==> Colors[i] != Colors[j]
  {
  }

  predicate IsHexDigit(ch: char)
  {
    '0' <= ch <= '9' || 'A' <= ch <= 'F' || 'a' <= ch <= 'f'
  }

  /** `#` followed by six hexadecimal digits. */
  predicate IsHexColor(s: string)
  {
    |s| == 7 && s[0] == '#' && forall k :: 1 <= k < 7 ==> IsHexDigit(s[k])
  }

  lemma ColorsAreHex()
    ensures forall c :: c in Colors ==> IsHexColor(c)
  {
  }
}
