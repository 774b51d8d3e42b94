/** The deviation sectors a chemical reading is bucketed into, and their numeric codes. */
module Deviations {
  import opened Wrappers

  datatype Deviation = Unknown | TooLow | MediumLow | Medium | MediumHigh | TooHigh

  /** The number the enum member stands for; the getters hand this number out. */
  function Code(d: Deviation): (c: int)
    ensures c == -1 <==> d == Unknown
    ensures d != Unknown ==> 0 <= c <= 20 && c % 5 == 0
  {
    match d
    case Unknown => -1
    case TooLow => 0
    case MediumLow => 5
    case Medium => 10
    case MediumHigh => 15
    case TooHigh => 20
  }

  /** The sector a number stands for, if any: the reverse enum lookup. */
  function FromCode(c: int): (r: Option<Deviation>)
    ensures r.Some? ==> Code(r.value) == c
    ensures r.None? <==> c !in {-1, 0, 5, 10, 15, 20}
  {
    if c == -1 then Some(Unknown)
    else if c == 0 then Some(TooLow)
    else if c == 5 then Some(MediumLow)
    else if c == 10 then Some(Medium)
    else if c == 15 then Some(MediumHigh)
    else if c == 20 then Some(TooHigh)
    else None
  }

  /** Every sector is recovered from its code. */
  lemma CodeRoundTrip(d: Deviation)
    ensures FromCode(Code(d)) == Some(d)
  {
  }

  /** The six codes are pairwise distinct. */
  lemma CodeInjective(d: Deviation, e: Deviation)
    ensures Code(d) == Code(e) ==> d == e
  {
    CodeRoundTrip(d);
    CodeRoundTrip(e);
  }

  /** UNKNOWN is -1, below every known sector. */
  lemma UnknownBelowKnown(d: Deviation)
    requires d != Unknown
    ensures Code(Unknown) == -1 && Code(Unknown) < Code(d)
  {
  }

  /** The known sectors start at 0 and each one is 5 above the one before. */
  lemma KnownSectorsStepByFive()
    ensures Code(TooLow) == 0
    ensures Code(MediumLow) == Code(TooLow) + 5
    ensures Code(Medium) == Code(MediumLow) + 5
    ensures Code(MediumHigh) == Code(Medium) + 5
    ensures Code(TooHigh) == Code(MediumHigh) + 5
  {
  }
}
