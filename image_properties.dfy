/**
 * The bookkeeping kept for the vehicle image: which viewport and size the
 * current image was fetched with, and how many fetches have failed. After
 * more than RETRY_COUNTER failures the handler stops retrying.
 */
module Images {
  import opened Wrappers
  import opened JavaText
  import opened Constants

  const RETRY_COUNTER: Int32 := 5

  /** failLimitReached on a counter value. */
  predicate LimitReached(failCounter: Int32)
  {
    failCounter > RETRY_COUNTER
  }

  /** The fail counter of a fresh object after k calls of failed(), with Java's int wrap-around. */
  function FailCount(k: nat): Int32
  {
    if k == 0 then 0 else Inc32(FailCount(k - 1))
  }

  /** Up to Integer.MAX_VALUE failures, the counter counts them exactly. */
  lemma {:induction false} FailCountExact(k: nat)
    requires k <= INT_MAX
    ensures FailCount(k) == k
  {
    if k > 0 {
      FailCountExact(k - 1);
    }
  }

  /** A fresh object gives up after the sixth failure: the limit holds after k failures exactly when k > 5. */
  lemma LimitAfterFailures(k: nat)
    requires k <= INT_MAX
    ensures LimitReached(FailCount(k)) <==> k > RETRY_COUNTER
  {
    FailCountExact(k);
  }

  /** Once reached, the limit stays reached under further failures, until the counter would wrap. */
  lemma LimitMonotone(failCounter: Int32)
    requires failCounter < INT_MAX
    ensures LimitReached(failCounter) ==> LimitReached(Inc32(failCounter))
  {
  }

  class ImageProperties {
    var failCounter: Int32
    var viewport: string
    var size: Int32

    constructor(viewport: string, size: Int32)
      ensures this.viewport == viewport && this.size == size && failCounter == 0
    {
      this.viewport := viewport;
      this.size := size;
      failCounter := 0;
    }

    /** The default properties: no viewport, size -1, no failures. */
    constructor Default()
      ensures viewport == EMPTY && size == -1 && failCounter == 0
    {
      viewport := EMPTY;
      size := -1;
      failCounter := 0;
    }

    /** Whether an image fetched with this viewport and size is the current one. */
    predicate IsSame(viewport: string, size: Int32): (r: bool)
      reads this
      ensures r <==> this.viewport == viewport && this.size == size
      ensures r ==> ToString() == viewport + IntToDecimal(size)
    {
      this.viewport == viewport && this.size == size
    }

    method Failed()
      modifies this`failCounter
      ensures failCounter == Inc32(old(failCounter))
    {
      failCounter := Inc32(failCounter);
    }

    function FailLimitReached(): (r: bool)
      reads this
      ensures r <==> LimitReached(failCounter)
    {
      failCounter > RETRY_COUNTER
    }

    /** The viewport followed by Integer.toString(size); the suffix parses back to the size. */
    function ToString(): (s: string)
      reads this
      ensures |s| > |viewport| && s[..|viewport|] == viewport
      ensures ParseInt(s[|viewport|..]) == Some(size)
    {
      IntToDecimalRoundTrip(size);
      assert (viewport + IntToDecimal(size))[|viewport|..] == IntToDecimal(size);
      viewport + IntToDecimal(size)
    }
  }

  /**
   * isSame agrees with comparing the rendered strings of two properties with
   * the same viewport: with the viewport fixed, toString separates the sizes.
   */
  lemma IsSameMatchesToString(a: ImageProperties, b: ImageProperties)
    requires a.viewport == b.viewport
    ensures a.IsSame(b.viewport, b.size) <==> a.ToString() == b.ToString()
  {
    if a.ToString() == b.ToString() {
      assert a.ToString()[|a.viewport|..] == b.ToString()[|b.viewport|..];
    }
  }
}
