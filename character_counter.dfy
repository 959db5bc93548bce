/**
 * js/seo-character-counter.js: the live length counters under the SEO title
 * and description fields of the post meta box.
 */
module CharacterCounter {
  import opened PhpValues

  const TitleMaxLength: nat := 60
  const DescriptionMaxLength: nat := 160

  /** `${length} / ${maxLength} characters`. */
  function CounterText(length: nat, maxLength: nat): string {
    NatToString(length) + " / " + NatToString(maxLength) + " characters"
  }

  /** Two lengths give the same text only if they are equal: the text shows the length. */
  lemma CounterTextShowsLength(a: nat, b: nat, maxLength: nat)
    requires CounterText(a, maxLength) == CounterText(b, maxLength)
    ensures a == b
  {
    var tail := " / " + NatToString(maxLength) + " characters";
    assert CounterText(a, maxLength) == NatToString(a) + tail;
    assert CounterText(b, maxLength) == NatToString(b) + tail;
    var n := |CounterText(a, maxLength)| - |tail|;
    assert NatToString(a) == CounterText(a, maxLength)[..n];
    assert NatToString(b) == CounterText(b, maxLength)[..n];
    NatToStringInjective(a, b);
  }

  /** The three colour bands of the counter. */
  datatype Band = OverLimit | NearLimit | WithinLimit

  function Colour(b: Band): string {
    match b
    case OverLimit => "red"
    case NearLimit => "orange"
    case WithinLimit => "#666"
  }

  /** Over the limit, within ten of it, or further below. */
  function BandOf(length: nat, maxLength: nat): Band {
    if length > maxLength then OverLimit
    else if length > maxLength - 10 then NearLimit
    else WithinLimit
  }

  /** Each band holds exactly its range of lengths, so the three partition all lengths. */
  lemma BandRanges(length: nat, maxLength: nat)
    ensures BandOf(length, maxLength) == OverLimit <==> length > maxLength
    ensures BandOf(length, maxLength) == NearLimit <==> maxLength - 10 < length <= maxLength
    ensures BandOf(length, maxLength) == WithinLimit <==> length <= maxLength - 10
  {
  }

  /** A counter `<p>` element's state. */
  class Counter {
    const id: string
    var textContent: string
    var color: string
    const fontSize: string
    const marginTop: string

    /** `createCounterElement(id, maxLength)`: grey, reading zero characters. */
    constructor(id: string, maxLength: nat)
      ensures this.id == id && fontSize == "12px" && marginTop == "5px"
      ensures textContent == CounterText(0, maxLength) && color == Colour(WithinLimit)
    {
      this.id := id;
      fontSize := "12px";
      color := "#666";
      marginTop := "5px";
      textContent := NatToString(0) + " / " + NatToString(maxLength) + " characters";
    }

    /** `updateCounter`: `value` is the input's value; its length is the count shown. */
    method UpdateCounter(value: string, maxLength: nat)
      modifies this
      ensures textContent == CounterText(|value|, maxLength)
      ensures color == Colour(BandOf(|value|, maxLength))
      ensures color == "red" <==> |value| > maxLength
    {
      var length := |value|;
      textContent := NatToString(length) + " / " + NatToString(maxLength) + " characters";
      if length > maxLength {
        color := "red";
      } else if length > maxLength - 10 {
        color := "orange";
      } else {
        color := "#666";
      }
    }
  }
}
