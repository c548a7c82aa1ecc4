/**
  The length guard of the `post_to_twitter` tool (src/tools.ts): a tweet longer than 280 characters is
  rejected before any client is built. The length is `text.length`, a count of UTF-16 code units: a
  character outside the Basic Multilingual Plane (one astral code point, such as
  most pictographic emoji) is two units there. Dafny's `char` has no
  surrogate values, so the model writes each such unit as the stand-in `UnitStandIn`.
 */
module TweetGuard {
  import opened Wrappers

  /** The longest text the tool accepts. */
  const MaxTweetLength := 280

  /** The character standing for one surrogate code unit of a JavaScript string. */
  const UnitStandIn: char := '\U{FFFD}'

  /** The encoding of a character outside the Basic Multilingual Plane: two code units. */
  function Astral(n: nat): string {
    seq(2 * n, _ => UnitStandIn)
  }

  /** Why a tweet is refused: `'Tweet exceeds 280 characters'`. */
  datatype TweetError = TooLong

  /** `if (text.length > 280) throw …`. */
  function CheckLength(text: string): (r: Outcome<TweetError>)
    ensures r == Pass <==> |text| <= MaxTweetLength
    ensures r == Fail(TooLong) <==> |text| > MaxTweetLength
  {
    if |text| > MaxTweetLength then Fail(TooLong) else Pass
  }

  /** Cutting a text never makes it fail, and lengthening a failing text never makes it pass. */
  lemma GuardIsPrefixClosed(text: string, more: string)
    ensures CheckLength(text + more).Pass? ==> CheckLength(text).Pass?
    ensures CheckLength(text).Fail? ==> CheckLength(text + more).Fail?
  {
  }

  /** Exactly 280 characters pass; 281 do not. */
  lemma GuardBoundary()
    ensures CheckLength(seq(280, _ => 'a')) == Pass
    ensures CheckLength(seq(281, _ => 'a')) == Fail(TooLong)
    ensures CheckLength([]) == Pass
  {
  }

  /**
    140 characters outside the Basic Multilingual Plane fill a tweet exactly; 141 of them are 282 code
    units and are refused.
   */
  lemma AstralCharactersCountTwice()
    ensures CheckLength(Astral(140)) == Pass
    ensures CheckLength(Astral(141)) == Fail(TooLong)
  {
  }
}
