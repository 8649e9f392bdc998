/**
 * The cache keys the engine builds (golang/checkout.go:117, 129, 142, 435;
 * golang/user_overview.go:105-116), the decimal formatting they use, and the
 * glob matching of the cache's KEYS command. The injectivity lemmas are what
 * allow the rest of the model to key its cache maps by tuples instead of strings.
 */
module RedisKeys {

  predicate IsDigit(c: char)
  {
    '0' <= c <= '9'
  }

  function DigitChar(d: int): char
    requires 0 <= d < 10
  {
    ('0' as int + d) as char
  }

  /** The decimal digits of a natural number, most significant first, no leading zeros. */
  function NatToDecimal(n: nat): (s: string)
    ensures |s| >= 1
    ensures forall i :: 0 <= i < |s| ==> IsDigit(s[i])
    decreases n
  {
    if n < 10 then [DigitChar(n)] else NatToDecimal(n / 10) + [DigitChar(n % 10)]
  }

  /** The number a string of decimal digits denotes. */
  function DecimalValue(s: string): nat
    requires forall i :: 0 <= i < |s| ==> IsDigit(s[i])
    decreases |s|
  {
    if s == [] then 0
    else
      assert IsDigit(s[|s| - 1]);
      DecimalValue(s[..|s| - 1]) * 10 + (s[|s| - 1] as int - '0' as int)
  }

  lemma {:induction false} DecimalRoundTrip(n: nat)
    ensures DecimalValue(NatToDecimal(n)) == n
  {
    if n >= 10 {
      var s := NatToDecimal(n);
      assert s[..|s| - 1] == NatToDecimal(n / 10);
      DecimalRoundTrip(n / 10);
    }
  }

  /** `strconv.Itoa` and the `%d` verb: an optional minus sign, then the digits. */
  function Itoa(n: int): (s: string)
    ensures |s| >= 1 && ':' !in s
    ensures n >= 0 ==> (forall i :: 0 <= i < |s| ==> IsDigit(s[i])) && DecimalValue(s) == n
    ensures n < 0 ==> s[0] == '-' && (forall i :: 1 <= i < |s| ==> IsDigit(s[i])) && DecimalValue(s[1..]) == -n
  {
    if n < 0 then
      var digits := NatToDecimal(-n);
      DecimalRoundTrip(-n);
      assert ("-" + digits)[1..] == digits;
      "-" + digits
    else
      DecimalRoundTrip(n);
      NatToDecimal(n)
  }

  /** Distinct numbers print differently. */
  lemma ItoaInjective(a: int, b: int)
    requires Itoa(a) == Itoa(b)
    ensures a == b
  {
  }

  /** In `a + [sep] + b` with no `sep` in `a`, position `|a|` holds the first `sep`. */
  lemma FirstSeparator(a: string, b: string, sep: char)
    requires sep !in a
    ensures (a + [sep] + b)[|a|] == sep
    ensures forall i :: 0 <= i < |a| ==> (a + [sep] + b)[i] != sep
  {
  }

  /** In `a + [sep] + b` with no `sep` in `b`, position `|a|` holds the last `sep`. */
  lemma LastSeparator(a: string, b: string, sep: char)
    requires sep !in b
    ensures (a + [sep] + b)[|a|] == sep
    ensures forall i :: |a| < i < |a| + 1 + |b| ==> (a + [sep] + b)[i] != sep
  {
    var s := a + [sep] + b;
    forall i | |a| < i < |a| + 1 + |b| ensures s[i] != sep {
      assert s[i] == b[i - |a| - 1];
    }
  }

  /** Two strings glued by a separator absent from both left parts split back uniquely. */
  lemma SplitAtFirst(a: string, b: string, a': string, b': string, sep: char)
    requires sep !in a && sep !in a'
    requires a + [sep] + b == a' + [sep] + b'
    ensures a == a' && b == b'
  {
    var s := a + [sep] + b;
    FirstSeparator(a, b, sep);
    FirstSeparator(a', b', sep);
    assert |a| == |a'|;
    assert a == s[..|a|] && a' == s[..|a'|];
    assert b == s[|a| + 1..] && b' == s[|a'| + 1..];
  }

  /** Two strings glued by a separator absent from both right parts split back uniquely. */
  lemma SplitAtLast(a: string, b: string, a': string, b': string, sep: char)
    requires sep !in b && sep !in b'
    requires a + [sep] + b == a' + [sep] + b'
    ensures a == a' && b == b'
  {
    var s := a + [sep] + b;
    LastSeparator(a, b, sep);
    LastSeparator(a', b', sep);
    assert |a| == |a'|;
    assert a == s[..|a|] && a' == s[..|a'|];
    assert b == s[|a| + 1..] && b' == s[|a'| + 1..];
  }

  /** Line 117. */
  function IdempotencyKey(paymentRef: string): string
  {
    "idem:checkout:" + paymentRef
  }

  /** Line 129: `rl:user:%s:checkout:%d`. */
  function RateLimitKey(userId: string, minute: int): string
  {
    "rl:user:" + userId + ":checkout:" + Itoa(minute)
  }

  /** Line 142. */
  function LockKey(userId: string): string
  {
    "lock:checkout:" + userId
  }

  /** Line 435: the pattern of the user's overview summary entries. */
  function SummaryPattern(userId: string): string
  {
    "cache:user:" + userId + ":summary:*"
  }

  lemma PrefixCancels(prefix: string, a: string, b: string)
    requires prefix + a == prefix + b
    ensures a == b
  {
    assert a == (prefix + a)[|prefix|..];
    assert b == (prefix + b)[|prefix|..];
  }

  /** Each payment reference and each user has its own idempotency and lock key. */
  lemma IdempotencyAndLockKeysInjective(x: string, y: string)
    ensures IdempotencyKey(x) == IdempotencyKey(y) ==> x == y
    ensures LockKey(x) == LockKey(y) ==> x == y
  {
    if IdempotencyKey(x) == IdempotencyKey(y) { PrefixCancels("idem:checkout:", x, y); }
    if LockKey(x) == LockKey(y) { PrefixCancels("lock:checkout:", x, y); }
  }

  /**
   * Each (user, minute) has its own rate-limit counter, whatever the user id
   * contains: the minute is the part after the last colon.
   */
  lemma RateLimitKeyInjective(u1: string, m1: int, u2: string, m2: int)
    requires RateLimitKey(u1, m1) == RateLimitKey(u2, m2)
    ensures u1 == u2 && m1 == m2
  {
    var head1, head2 := "rl:user:" + u1 + ":checkout", "rl:user:" + u2 + ":checkout";
    assert RateLimitKey(u1, m1) == head1 + [':'] + Itoa(m1);
    assert RateLimitKey(u2, m2) == head2 + [':'] + Itoa(m2);
    SplitAtLast(head1, Itoa(m1), head2, Itoa(m2), ':');
    ItoaInjective(m1, m2);
    assert u1 == head1[8..|head1| - 9];
    assert u2 == head2[8..|head2| - 9];
  }

  /** Every character of `s` stands for itself in a KEYS pattern. */
  predicate GlobLiteral(s: string)
  {
    '*' !in s && '?' !in s && '[' !in s && '\\' !in s
  }

  /** `c` lies between the two ends of a class range, taken in either order. */
  predicate InRange(c: char, a: char, b: char)
  {
    if a <= b then a <= c <= b else b <= c <= a
  }

  /**
   * The body of a `[...]` class, after its opening bracket and optional `^`,
   * read against one key character: `\c` names `c`, `a-z` names the range
   * between its ends, `]` closes the class, any other character names
   * itself, and a class left open runs to the end of the pattern. The result
   * says whether `c` is named and how many pattern characters the body takes,
   * its closing bracket included.
   */
  function ClassScan(body: string, c: char): (r: (bool, nat))
    ensures r.1 <= |body|
    ensures body != [] && body[0] == ']' ==> r == (false, 1)
    decreases |body|
  {
    if body == [] then (false, 0)
    else if body[0] == '\\' && |body| >= 2 then
      var rest := ClassScan(body[2..], c);
      (rest.0 || body[1] == c, rest.1 + 2)
    else if body[0] == ']' then (false, 1)
    else if |body| >= 3 && body[1] == '-' then
      var rest := ClassScan(body[3..], c);
      (rest.0 || InRange(c, body[0], body[2]), rest.1 + 3)
    else
      var rest := ClassScan(body[1..], c);
      (rest.0 || body[0] == c, rest.1 + 1)
  }

  /** A class whose body starts with `^` accepts exactly the characters it does not name. */
  function ClassMatch(body: string, c: char): (r: (bool, nat))
    ensures r.1 <= |body|
    ensures body != [] && body[0] == '^' ==> r.0 == !ClassScan(body[1..], c).0
    ensures (body == [] || body[0] != '^') ==> r == ClassScan(body, c)
  {
    if body != [] && body[0] == '^' then
      var inner := ClassScan(body[1..], c);
      (!inner.0, inner.1 + 1)
    else ClassScan(body, c)
  }

  /**
   * Redis's pattern matcher for KEYS (`stringmatchlen`, case-sensitive): `*`
   * matches any run of characters, `?` any one character, `[...]` one
   * character of a class, `\c` the character `c`; every other character,
   * and a trailing lone `\`, matches itself.
   */
  function Glob(pattern: string, key: string): bool
    decreases |pattern| + |key|
  {
    if pattern == [] then key == []
    else if pattern[0] == '*' then Glob(pattern[1..], key) || (key != [] && Glob(pattern, key[1..]))
    else if key == [] then false
    else if pattern[0] == '?' then Glob(pattern[1..], key[1..])
    else if pattern[0] == '[' then
      var scan := ClassMatch(pattern[1..], key[0]);
      scan.0 && Glob(pattern[1 + scan.1..], key[1..])
    else if pattern[0] == '\\' && |pattern| >= 2 then pattern[1] == key[0] && Glob(pattern[2..], key[1..])
    else pattern[0] == key[0] && Glob(pattern[1..], key[1..])
  }

  lemma {:induction false} GlobStarMatchesAll(key: string)
    ensures Glob("*", key)
    decreases |key|
  {
    if key != [] {
      GlobStarMatchesAll(key[1..]);
    }
  }

  /** A pattern `p*` matches every key that starts with `p`, when `p` holds no class and no escape. */
  lemma {:induction false} GlobMatchesPrefix(p: string, rest: string)
    requires '[' !in p && '\\' !in p
    ensures Glob(p + "*", p + rest)
    decreases |p|
  {
    if p == [] {
      assert p + "*" == "*" && p + rest == rest;
      GlobStarMatchesAll(rest);
    } else {
      var pat, key := p + "*", p + rest;
      assert pat[1..] == p[1..] + "*" && key[1..] == p[1..] + rest;
      GlobMatchesPrefix(p[1..], rest);
      if p[0] == '*' {
        assert Glob(pat, key[1..]);
      }
    }
  }

  /** When every character of `p` stands for itself, `p*` matches only keys that start with `p`. */
  lemma {:induction false} GlobLiteralPrefix(p: string, key: string)
    requires GlobLiteral(p)
    requires Glob(p + "*", key)
    ensures |p| <= |key| && key[..|p|] == p
    decreases |p|
  {
    if p != [] {
      var pat := p + "*";
      assert pat[0] == p[0] && pat[1..] == p[1..] + "*";
      GlobLiteralPrefix(p[1..], key[1..]);
    }
  }

  /** The part of the summary pattern before its final `*`. */
  function SummaryPrefix(userId: string): string
  {
    "cache:user:" + userId + ":summary:"
  }

  /** A common prefix whose characters stand for themselves can be dropped from pattern and key. */
  lemma {:induction false} GlobLiteralStep(p: string, q: string, k: string)
    requires GlobLiteral(p)
    ensures Glob(p + q, p + k) == Glob(q, k)
    decreases |p|
  {
    if p != [] {
      assert p[0] in p;
      assert (p + q)[0] == p[0] && (p + k)[0] == p[0];
      assert (p + q)[1..] == p[1..] + q && (p + k)[1..] == p[1..] + k;
      GlobLiteralStep(p[1..], q, k);
    } else {
      assert p + q == q && p + k == k;
    }
  }

  lemma GlobLiteralConcat(a: string, b: string)
    requires GlobLiteral(a) && GlobLiteral(b)
    ensures GlobLiteral(a + b)
  {
  }

  lemma SummaryPatternSplits(userId: string)
    ensures SummaryPattern(userId) == SummaryPrefix(userId) + "*"
  {
    assert ":summary:*" == ":summary:" + "*";
  }

  /** For a user id without classes or escapes, the summary pattern matches every key with the user's summary prefix. */
  lemma SummaryPatternCoversPrefix(userId: string, k: string)
    requires '[' !in userId && '\\' !in userId
    requires SummaryPrefix(userId) <= k
    ensures Glob(SummaryPattern(userId), k)
  {
    var p := SummaryPrefix(userId);
    SummaryPatternSplits(userId);
    assert k == p + k[|p|..];
    GlobMatchesPrefix(p, k[|p|..]);
  }

  /** For a user id whose every character stands for itself, the summary pattern matches only keys with the user's summary prefix. */
  lemma SummaryPatternOnlyPrefix(userId: string, k: string)
    requires GlobLiteral(userId)
    requires Glob(SummaryPattern(userId), k)
    ensures SummaryPrefix(userId) <= k
  {
    SummaryPatternSplits(userId);
    var head, tail := "cache:user:", ":summary:";
    assert GlobLiteral(head) && GlobLiteral(tail);
    GlobLiteralConcat(head, userId);
    GlobLiteralConcat(head + userId, tail);
    GlobLiteralPrefix(SummaryPrefix(userId), k);
  }

  /** Both directions of the two lemmas above, for every key at once. */
  lemma SummaryPatternIsPrefix(userId: string)
    ensures '[' !in userId && '\\' !in userId ==>
      forall k :: SummaryPrefix(userId) <= k ==> Glob(SummaryPattern(userId), k)
    ensures GlobLiteral(userId) ==>
      forall k :: Glob(SummaryPattern(userId), k) ==> SummaryPrefix(userId) <= k
  {
    if '[' !in userId && '\\' !in userId {
      forall k | SummaryPrefix(userId) <= k
        ensures Glob(SummaryPattern(userId), k)
      {
        SummaryPatternCoversPrefix(userId, k);
      }
    }
    if GlobLiteral(userId) {
      forall k | Glob(SummaryPattern(userId), k)
        ensures SummaryPrefix(userId) <= k
      {
        SummaryPatternOnlyPrefix(userId, k);
      }
    }
  }
}
