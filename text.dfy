/** Facts about the text of response bodies. */
module Text {

  /** `needle` occurs as a contiguous piece of `hay`. */
  predicate Occurs(needle: string, hay: string)
    decreases |hay|
  {
    needle <= hay || (hay != [] && Occurs(needle, hay[1..]))
  }

  /** Whatever is spliced into a message template can be found in the result. */
  lemma {:induction false} OccursBetween(prefix: string, needle: string, suffix: string)
    ensures Occurs(needle, prefix + needle + suffix)
  {
    if prefix == [] {
      assert prefix + needle + suffix == needle + suffix;
    } else {
      assert (prefix + needle + suffix)[1..] == prefix[1..] + needle + suffix;
      OccursBetween(prefix[1..], needle, suffix);
    }
  }
}
