/**
 * The computations of `GetUserOverview` (golang/user_overview.go) that do not
 * touch the database: paging normalisation, the summary cache key, the page
 * offset of the product query, the order-total sum, the user segment and the
 * top-three product list.
 */
module Overview {
  import opened RedisKeys

  /** A row of the recommended-products query. */
  datatype Product = Product(id: string, sku: string, price: real, available: int)

  /** A row of the recent-orders query. */
  datatype Order = Order(id: string, status: string, total: real, itemsCount: int)

  const DEFAULT_PAGE := 1
  const DEFAULT_LIMIT := 10
  const TOP_PRODUCTS := 3

  /** Go's `int` on the 64-bit targets the service runs on. */
  newtype int64 = x: int | -0x8000_0000_0000_0000 <= x < 0x8000_0000_0000_0000

  const MAX_INT64: int := 0x7fff_ffff_ffff_ffff
  const TWO_TO_64: int := 0x1_0000_0000_0000_0000

  /** Two's-complement wrap-around: the int64 congruent to `x` modulo 2^64. */
  function Wrap64(x: int): (w: int64)
    ensures (w as int - x) % TWO_TO_64 == 0
    ensures -MAX_INT64 - 1 <= x <= MAX_INT64 ==> w as int == x
  {
    var r := (x + MAX_INT64 + 1) % TWO_TO_64;
    assert x + MAX_INT64 + 1 == (x + MAX_INT64 + 1) / TWO_TO_64 * TWO_TO_64 + r;
    (r - MAX_INT64 - 1) as int64
  }

  /** Values congruent modulo 2^64 wrap to the same int64. */
  lemma WrapCongruent(a: int, b: int, k: int)
    requires a == b + k * TWO_TO_64
    ensures Wrap64(a) == Wrap64(b)
  {
    var h := MAX_INT64 + 1;
    assert a + h == (b + h) + k * TWO_TO_64;
    assert (a + h) % TWO_TO_64 == (b + h) % TWO_TO_64;
  }

  /**
   * Lines 78-83, on the int64 values `strconv.Atoi` returns: a page below one
   * becomes the first page and a limit below one becomes ten; a value already
   * at least one is kept.
   */
  method NormalisePaging(requestedPage: int64, requestedLimit: int64) returns (page: int64, limit: int64)
    ensures page >= 1 && limit >= 1
    ensures requestedPage >= 1 ==> page == requestedPage
    ensures requestedPage < 1 ==> page == DEFAULT_PAGE as int64
    ensures requestedLimit >= 1 ==> limit == requestedLimit
    ensures requestedLimit < 1 ==> limit == DEFAULT_LIMIT as int64
  {
    page, limit := requestedPage, requestedLimit;
    if page < 1 {
      page := DEFAULT_PAGE as int64;
    }
    if limit < 1 {
      limit := DEFAULT_LIMIT as int64;
    }
  }

  /**
   * Line 302: the rows skipped before the requested page, `(page - 1) * limit`
   * in int64 arithmetic. It is congruent to the exact product modulo 2^64,
   * and equal to it, hence non-negative, when the product fits.
   */
  function Offset(page: int64, limit: int64): (offset: int64)
    ensures (offset as int - (page as int - 1) * (limit as int)) % TWO_TO_64 == 0
    ensures page >= 1 && limit >= 0 && (page as int - 1) * (limit as int) <= MAX_INT64 ==>
      offset as int == (page as int - 1) * (limit as int) && offset >= 0
  {
    Nonnegative(page as int - 1, limit as int);
    Wrap64((page as int - 1) * (limit as int))
  }

  lemma Nonnegative(a: int, b: int)
    ensures a >= 0 && b >= 0 ==> a * b >= 0
  {
  }

  /**
   * The largest page the parameter can carry wraps: with limit 10 the
   * offset is -20, which the database refuses.
   */
  lemma OffsetWrapsAtMaxInt64()
    ensures Offset(MAX_INT64 as int64, 10) == -20
  {
    WrapCongruent((MAX_INT64 - 1) * 10, -20, 5);
  }

  /** Page `p + 1` starts exactly `limit` rows after page `p`, in int64 arithmetic. */
  lemma OffsetsAreContiguous(page: int64, limit: int64)
    requires page as int < MAX_INT64
    ensures Offset(page + 1, limit) == Wrap64(Offset(page, limit) as int + limit as int)
  {
    var exact := (page as int - 1) * (limit as int);
    var o := Offset(page, limit) as int;
    var k := (o - exact) / TWO_TO_64;
    assert o == exact + k * TWO_TO_64;
    assert page as int * (limit as int) == exact + limit as int;
    WrapCongruent(o + limit as int, page as int * (limit as int), k);
  }

  /**
   * Distinct normalised pages ask for disjoint windows of rows, every row of
   * an earlier page before the first row of a later one, as long as the
   * later page's offset fits in an int64.
   */
  lemma PagesAreDisjoint(p1: int64, p2: int64, limit: int64)
    requires 1 <= p1 < p2 && limit >= 1
    requires (p2 as int - 1) * (limit as int) <= MAX_INT64
    ensures Offset(p1, limit) as int + limit as int <= Offset(p2, limit) as int
  {
    var a, b, l := p1 as int, p2 as int, limit as int;
    Nonnegative(b - 1 - a, l);
    assert (b - 1) * l == (a - 1) * l + l + (b - 1 - a) * l;
  }

  /** The category part of the summary key: the id, or "all" when there is none. */
  function CategoryPart(categoryId: string): string
  {
    if categoryId == "" then "all" else categoryId
  }

  /**
   * Lines 105-116, both branches: the key is built from the user, the category
   * part, and the decimal page and limit, separated by colons.
   */
  function SummaryKey(userId: string, categoryId: string, page: int, limit: int): (key: string)
    ensures key == "cache:user:" + userId + ":summary:" + CategoryPart(categoryId) + ":" + Itoa(page) + ":" + Itoa(limit)
  {
    if categoryId == "" then
      AllBranch("cache:user:" + userId, Itoa(page), Itoa(limit));
      "cache:user:" + userId + ":summary:all:" + Itoa(page) + ":" + Itoa(limit)
    else
      "cache:user:" + userId + ":summary:" + categoryId + ":" + Itoa(page) + ":" + Itoa(limit)
  }

  lemma AllBranch(head: string, page: string, limit: string)
    ensures head + ":summary:all:" + page + ":" + limit == head + ":summary:" + "all" + ":" + page + ":" + limit
  {
    assert ":summary:all:" == ":summary:" + "all" + ":";
  }

  /**
   * Every summary key of a user starts with the user's summary prefix, so the
   * pattern checkout deletes matches it, unless the user id holds a class
   * bracket or an escape, which the pattern would read as pattern syntax.
   */
  lemma SummaryKeyMatchesPattern(userId: string, categoryId: string, page: int, limit: int)
    requires '[' !in userId && '\\' !in userId
    ensures Glob(SummaryPattern(userId), SummaryKey(userId, categoryId, page, limit))
  {
    var prefix := SummaryPrefix(userId);
    var rest := CategoryPart(categoryId) + ":" + Itoa(page) + ":" + Itoa(limit);
    Regroup(prefix, CategoryPart(categoryId), Itoa(page), Itoa(limit));
    assert prefix <= prefix + rest;
    SummaryPatternCoversPrefix(userId, prefix + rest);
  }

  lemma Regroup(prefix: string, c: string, a: string, b: string)
    ensures prefix + c + ":" + a + ":" + b == prefix + (c + ":" + a + ":" + b)
  {
  }

  /** For one user and category, different pages or limits have different keys. */
  lemma SummaryKeyPagingInjective(userId: string, categoryId: string, p1: int, l1: int, p2: int, l2: int)
    requires SummaryKey(userId, categoryId, p1, l1) == SummaryKey(userId, categoryId, p2, l2)
    ensures p1 == p2 && l1 == l2
  {
    var head := "cache:user:" + userId + ":summary:" + CategoryPart(categoryId);
    assert SummaryKey(userId, categoryId, p1, l1) == (head + [':'] + Itoa(p1)) + [':'] + Itoa(l1);
    assert SummaryKey(userId, categoryId, p2, l2) == (head + [':'] + Itoa(p2)) + [':'] + Itoa(l2);
    SplitAtLast(head + [':'] + Itoa(p1), Itoa(l1), head + [':'] + Itoa(p2), Itoa(l2), ':');
    SplitAtLast(head, Itoa(p1), head, Itoa(p2), ':');
    ItoaInjective(p1, p2);
    ItoaInjective(l1, l2);
  }

  /** A category whose id is literally "all" shares its cache entries with the unfiltered overview. */
  lemma AllCategorySharesKey(userId: string, page: int, limit: int)
    ensures SummaryKey(userId, "", page, limit) == SummaryKey(userId, "all", page, limit)
  {
  }

  /** Σ total over the orders, accumulated front to back. */
  function TotalSpend(orders: seq<Order>): real
    decreases |orders|
  {
    if orders == [] then 0.0
    else TotalSpend(orders[..|orders| - 1]) + orders[|orders| - 1].total
  }

  /** The `orderTotalSum` loop of lines 145-149. */
  method SumOrderTotals(orders: seq<Order>) returns (sum: real)
    ensures sum == TotalSpend(orders)
  {
    sum := 0.0;
    var i := 0;
    while i < |orders|
      invariant 0 <= i <= |orders|
      invariant sum == TotalSpend(orders[..i])
    {
      assert orders[..i + 1][..i] == orders[..i];
      sum := sum + orders[i].total;
      i := i + 1;
    }
    assert orders[..i] == orders;
  }

  /** Orders with non-negative totals add up to a non-negative spend. */
  lemma {:induction false} TotalSpendNonNegative(orders: seq<Order>)
    requires forall i :: 0 <= i < |orders| ==> orders[i].total >= 0.0
    ensures TotalSpend(orders) >= 0.0
    decreases |orders|
  {
    if orders != [] {
      TotalSpendNonNegative(orders[..|orders| - 1]);
    }
  }

  const VIP := "vip"
  const PREMIUM := "premium"
  const STANDARD := "standard"
  const BASIC := "basic"

  /**
   * `computeSegment` (346-369) without its unused hash loop: the first rule
   * that applies, in the order vip, premium, standard, basic.
   */
  function ComputeSegment(plan: string, region: string, totalSpend: real): (segment: string)
    ensures segment == VIP <==> plan == "enterprise" || totalSpend > 10000.0
    ensures segment == PREMIUM <==> !(plan == "enterprise" || totalSpend > 10000.0) && (plan == "premium" || totalSpend > 5000.0)
    ensures segment == STANDARD <==>
      && !(plan == "enterprise" || totalSpend > 10000.0) && !(plan == "premium" || totalSpend > 5000.0)
      && (plan == "basic" || totalSpend > 1000.0)
    ensures segment == BASIC <==>
      !(plan == "enterprise" || totalSpend > 10000.0) && !(plan == "premium" || totalSpend > 5000.0)
      && !(plan == "basic" || totalSpend > 1000.0)
  {
    if plan == "enterprise" || totalSpend > 10000.0 then VIP
    else if plan == "premium" || totalSpend > 5000.0 then PREMIUM
    else if plan == "basic" || totalSpend > 1000.0 then STANDARD
    else BASIC
  }

  /** basic < standard < premium < vip. */
  function Rank(segment: string): (rank: int)
    ensures 0 <= rank <= 3
  {
    if segment == VIP then 3
    else if segment == PREMIUM then 2
    else if segment == STANDARD then 1
    else 0
  }

  /** For a fixed plan, spending more never lowers the segment. */
  lemma SegmentMonotoneInSpend(plan: string, region: string, lower: real, higher: real)
    requires lower <= higher
    ensures Rank(ComputeSegment(plan, region, lower)) <= Rank(ComputeSegment(plan, region, higher))
  {
  }

  /** The region takes no part in the segment. */
  lemma SegmentIgnoresRegion(plan: string, region1: string, region2: string, totalSpend: real)
    ensures ComputeSegment(plan, region1, totalSpend) == ComputeSegment(plan, region2, totalSpend)
  {
  }

  function Min(a: int, b: int): int
  {
    if a <= b then a else b
  }

  /** The loop of lines 161-166: the ids of the first three products, in order. */
  method TopProducts(products: seq<Product>) returns (top: seq<string>)
    ensures |top| == Min(TOP_PRODUCTS, |products|)
    ensures forall i :: 0 <= i < |top| ==> top[i] == products[i].id
  {
    top := [];
    var i := 0;
    while i < |products|
      invariant 0 <= i <= |products| && i <= TOP_PRODUCTS
      invariant |top| == i
      invariant forall j :: 0 <= j < i ==> top[j] == products[j].id
    {
      if i >= TOP_PRODUCTS {
        break;
      }
      top := top + [products[i].id];
      i := i + 1;
    }
  }
}
