/** Classification of a failed generation call as a rate-limit failure. */
module RateLimit {
  import opened Wrappers
  import opened Text

  /** A thrown value; `message` is absent when what was thrown has no `message` property. */
  datatype Error = Error(message: Option<string>)

  /** The banner text set when a rate limit is detected. */
  const SurgeMessage: string := "Global Traffic surge. System cooling (15s)..."

  /** Seconds of cooldown after a rate limit. */
  const RateLimitCooldown: nat := 15

  /**
   * `error.message?.includes("429") || error.message?.toLowerCase().includes("quota")`:
   * an absent message makes both tests falsy.
   */
  predicate IsRateLimit(message: Option<string>) {
    message.Some? && (Contains(message.value, "429") || Contains(ToLower(message.value), "quota"))
  }

  /** Classification ignores the case of the message, "429" included. */
  lemma RateLimitCaseInsensitive(m: string)
    ensures IsRateLimit(Some(ToLower(m))) <==> IsRateLimit(Some(m))
  {
    ContainsLowerCaseless(m, "429");
    ToLowerIdempotent(m);
  }

  /** A message with "429" anywhere in it is a rate limit. */
  lemma StatusCodeIsRateLimit(a: string, b: string)
    ensures IsRateLimit(Some(a + "429" + b))
  {
    ContainsMiddle(a, "429", b);
  }

  /** A message with "quota" anywhere in it, in any letter case, is a rate limit. */
  lemma QuotaIsRateLimit(a: string, q: string, b: string)
    requires ToLower(q) == "quota"
    ensures IsRateLimit(Some(a + q + b))
  {
    var m := a + q + b;
    ToLowerSlice(m, |a|, |a| + 5);
    assert m[|a|..|a| + 5] == q;
    assert OccursAt(ToLower(m), "quota", |a|);
    OccursImpliesContains(ToLower(m), "quota", |a|);
  }

  /** Two typical rate-limit messages take the rate-limit path. */
  lemma StatusCodeExample()
    ensures IsRateLimit(Some("Error: 429 Too Many Requests"))
  {
    assert "Error: 429 Too Many Requests" == "Error: " + "429" + " Too Many Requests";
    StatusCodeIsRateLimit("Error: ", " Too Many Requests");
  }

  lemma QuotaExample()
    ensures IsRateLimit(Some("Quota Exceeded"))
  {
    var q := "Quota";
    assert ToLower(q) == "quota" by {
      assert |ToLower(q)| == 5;
      assert LowerChar('Q') == 'q';
    }
    assert "Quota Exceeded" == "" + q + " Exceeded";
    QuotaIsRateLimit("", q, " Exceeded");
  }
}
