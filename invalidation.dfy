/**
 * The link between the overview's summary cache and checkout's post-commit
 * invalidation (golang/user_overview.go:105-116 and golang/checkout.go:434-438):
 * a successful checkout of a user leaves none of that user's summaries cached.
 */
module Invalidation {
  import opened Wrappers
  import opened RedisKeys
  import opened CheckoutSpec
  import opened Overview
  import CheckoutProperties

  /**
   * A successful, non-replayed checkout deletes every cached summary of its
   * user, whatever category, page and limit it was cached under, when the
   * user id holds no class bracket or escape; when it holds no pattern syntax
   * at all, every cached key without the user's summary prefix stays.
   */
  lemma CheckoutInvalidatesSummaries(s: Store, req: Records.CheckoutRequest, now: int, orderId: string)
    requires req.paymentRef !in s.cache.idempotency
    requires Process(s, req, now, orderId).result.Success?
    ensures var keys := Process(s, req, now, orderId).store.cache.summaryKeys;
      && ('[' !in req.userId && '\\' !in req.userId ==>
            forall cat, page, limit :: SummaryKey(req.userId, cat, page, limit) !in keys)
      && (GlobLiteral(req.userId) ==>
            forall k :: k in s.cache.summaryKeys && !(SummaryPrefix(req.userId) <= k) ==> k in keys)
  {
    CheckoutProperties.ProcessRunsTransaction(s, req, now, orderId);
    if '[' !in req.userId && '\\' !in req.userId {
      forall cat, page, limit
        ensures SummaryKey(req.userId, cat, page, limit) !in Process(s, req, now, orderId).store.cache.summaryKeys
      {
        SummaryKeyMatchesPattern(req.userId, cat, page, limit);
      }
    }
  }

  /**
   * For user ids without ':' whose every character stands for itself in a
   * pattern, the pattern of one user matches only that user's summary keys,
   * so a checkout leaves the other users' summaries in place.
   */
  lemma SummaryPatternOwnsKey(owner: string, userId: string, categoryId: string, page: int, limit: int)
    requires ':' !in owner && ':' !in userId && GlobLiteral(userId)
    requires Glob(SummaryPattern(userId), SummaryKey(owner, categoryId, page, limit))
    ensures owner == userId
  {
    var c := "cache:user:";
    var rest := "summary:" + CategoryPart(categoryId) + ":" + Itoa(page) + ":" + Itoa(limit);
    var key := SummaryKey(owner, categoryId, page, limit);
    SplitLiteral(c, userId, owner, CategoryPart(categoryId), Itoa(page), Itoa(limit));
    SummaryPatternOnlyPrefix(userId, key);
    FirstColonDecides(c, owner, rest, userId, "summary:");
  }

  /** The user's prefix and the key, regrouped around the colon that ends the user id. */
  lemma SplitLiteral(c: string, userId: string, owner: string, cat: string, a: string, b: string)
    ensures c + userId + ":summary:" == c + userId + [':'] + "summary:"
    ensures c + owner + ":summary:" + cat + ":" + a + ":" + b
         == c + owner + [':'] + ("summary:" + cat + ":" + a + ":" + b)
  {
    assert ":summary:" == [':'] + "summary:";
  }

  /**
   * When `c + y + ":" + ry` is a prefix of `c + x + ":" + rx` and neither `x`
   * nor `y` holds ':', the two agree on the part before the colon.
   */
  lemma FirstColonDecides(c: string, x: string, rx: string, y: string, ry: string)
    requires ':' !in x && ':' !in y
    requires |c + y + [':'] + ry| <= |c + x + [':'] + rx|
    requires (c + x + [':'] + rx)[..|c + y + [':'] + ry|] == c + y + [':'] + ry
    ensures x == y
  {
    var s := c + x + [':'] + rx;
    var q := c + y + [':'] + ry;
    assert forall i :: 0 <= i < |x| ==> s[|c| + i] == x[i];
    assert forall i :: 0 <= i < |y| ==> q[|c| + i] == y[i];
    assert s[|c| + |x|] == ':' && q[|c| + |y|] == ':';
    assert forall i :: 0 <= i < |q| ==> s[i] == q[i];
    assert |x| == |y|;
    assert forall i :: 0 <= i < |x| ==> x[i] == y[i];
  }

  /** The class `[ab]` takes one "a" and hands the rest of pattern and key on. */
  lemma ClassStep(q: string, k: string)
    ensures Glob("[ab]" + q, "a" + k) == Glob(q, k)
  {
    var pattern, body := "[ab]" + q, "ab]" + q;
    assert pattern[0] == '[' && pattern[1..] == body && pattern[4..] == q;
    assert body[0] == 'a' && body[1] == 'b' && body[1..] == "b]" + q;
    assert ("b]" + q)[0] == 'b' && ("b]" + q)[1] == ']' && ("b]" + q)[1..] == "]" + q;
    assert ("]" + q)[0] == ']';
    assert ClassScan("]" + q, 'a') == (false, 1);
    assert ClassScan("b]" + q, 'a') == (false, 2);
    assert ClassScan(body, 'a') == (true, 3);
    assert ClassMatch(body, 'a') == (true, 3);
    assert ("a" + k)[0] == 'a' && ("a" + k)[1..] == k;
  }

  /** The summary key of a user, split after the fixed head. */
  lemma KeyShape(owner: string, categoryId: string, page: int, limit: int)
    ensures SummaryKey(owner, categoryId, page, limit)
         == "cache:user:" + (owner + (":summary:" + (CategoryPart(categoryId) + ":" + Itoa(page) + ":" + Itoa(limit))))
    ensures SummaryPattern(owner) == "cache:user:" + (owner + (":summary:" + "*"))
  {
    SummaryPatternSplits(owner);
    Regroup7("cache:user:", owner, ":summary:", CategoryPart(categoryId), ":", Itoa(page), Itoa(limit));
  }

  lemma Regroup7(c: string, o: string, s: string, t: string, colon: string, a: string, b: string)
    ensures c + o + s + t + colon + a + colon + b == c + (o + (s + (t + colon + a + colon + b)))
    ensures c + o + s + "*" == c + (o + (s + "*"))
  {
  }

  /** The fixed parts of the summary key hold no pattern syntax. */
  lemma HeadsAreLiteral()
    ensures GlobLiteral("cache:user:") && GlobLiteral(":summary:")
  {
  }

  lemma ClassUserMatches(c: string, x: string, tail: string)
    requires GlobLiteral(c) && GlobLiteral(x)
    ensures Glob(c + ("[ab]" + (x + "*")), c + ("a" + (x + tail)))
  {
    GlobLiteralStep(c, "[ab]" + (x + "*"), "a" + (x + tail));
    ClassStep(x + "*", x + tail);
    GlobMatchesPrefix(x, tail);
  }

  lemma EscapeUserMisses(c: string, x: string, tail: string)
    requires GlobLiteral(c)
    ensures !Glob(c + ("\\b" + (x + "*")), c + ("\\b" + (x + tail)))
  {
    GlobLiteralStep(c, "\\b" + (x + "*"), "\\b" + (x + tail));
    var pattern, key := "\\b" + (x + "*"), "\\b" + (x + tail);
    assert pattern[0] == '\\' && pattern[1] == 'b' && key[0] == '\\';
  }

  /**
   * What the conditions above exclude: the pattern of user "[ab]" reads the
   * brackets as a class and matches every summary key of user "a".
   */
  lemma BracketIdMatchesOtherUser(categoryId: string, page: int, limit: int)
    ensures Glob(SummaryPattern("[ab]"), SummaryKey("a", categoryId, page, limit))
  {
    KeyShape("a", categoryId, page, limit);
    KeyShape("[ab]", categoryId, page, limit);
    HeadsAreLiteral();
    ClassUserMatches("cache:user:", ":summary:", CategoryPart(categoryId) + ":" + Itoa(page) + ":" + Itoa(limit));
  }

  /**
   * And the pattern of user "\\b" reads `\\b` as an escaped "b", so it misses
   * every summary key of that user.
   */
  lemma EscapeIdMissesOwnKey(categoryId: string, page: int, limit: int)
    ensures !Glob(SummaryPattern("\\b"), SummaryKey("\\b", categoryId, page, limit))
  {
    KeyShape("\\b", categoryId, page, limit);
    HeadsAreLiteral();
    EscapeUserMisses("cache:user:", ":summary:", CategoryPart(categoryId) + ":" + Itoa(page) + ":" + Itoa(limit));
  }
}
