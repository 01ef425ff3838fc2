/** The two signal providers of backend/index.js, `pollTrends` and
    `getPolicyImpact`, and the keyed store with expiry that they consult first
    (Redis in the source). Policy sentiment is kept in integer tenths. */
module Signals {
  import opened Common

  /** Seconds a successful lookup stays in the store. */
  const CacheTtl: nat := 3600

  /** A stored value and the instant (in seconds) from which it is expired. */
  datatype Entry = Entry(value: real, expiresAt: int)

  /** What a cache-aside fetch returns and the store it leaves behind. */
  datatype Fetched = Fetched(value: real, store: map<string, Entry>)

  /** A news article; `description` is None when the article has none. */
  datatype Article = Article(description: Option<string>)

  predicate IsPolicyKey(key: string) { |key| >= 7 && key[..7] == "policy:" }

  /** Store key of a trend signal. */
  function TrendKey(location: string, keyword: string): (key: string)
    ensures !IsPolicyKey(key)
  {
    var key := "trends:" + location + ":" + keyword;
    assert key[1] == 'r';
    key
  }

  /** Store key of a policy-impact signal. */
  function PolicyKey(location: string, category: string): (key: string)
    ensures IsPolicyKey(key)
  {
    var key := "policy:" + location + ":" + category;
    assert key[..7] == "policy:";
    key
  }

  /** A read of the store: an entry is absent once its expiry instant is reached. */
  function Read(store: map<string, Entry>, key: string, now: int): (r: Option<real>)
    ensures r.Some? <==> key in store && now < store[key].expiresAt
    ensures r.Some? ==> r.value == store[key].value
  {
    if key in store && now < store[key].expiresAt then Some(store[key].value) else None
  }

  /** The cache-aside pattern both providers follow: a live entry is returned
      as is; otherwise a successful lookup (`looked`) is stored for CacheTtl
      seconds and returned, and a failed one yields `fallback` without any write. */
  function CacheAside(store: map<string, Entry>, key: string, now: int, looked: Option<real>,
                      fallback: real): (f: Fetched)
    ensures Read(store, key, now).Some? ==> f == Fetched(store[key].value, store)
    ensures Read(store, key, now).None? && looked.Some? ==>
      f.value == looked.value && f.store == store[key := Entry(looked.value, now + CacheTtl)]
    ensures Read(store, key, now).None? && looked.None? ==> f == Fetched(fallback, store)
    ensures Read(f.store, key, now) == (if Read(store, key, now).None? && looked.None? then None else Some(f.value))
    ensures forall k :: k != key ==> (k in f.store <==> k in store) && (k in store ==> f.store[k] == store[k])
  {
    match Read(store, key, now)
    case Some(v) => Fetched(v, store)
    case None =>
      match looked
      case Some(v) => Fetched(v, store[key := Entry(v, now + CacheTtl)])
      case None => Fetched(fallback, store)
  }

  /** A value stored by a successful lookup is served until exactly CacheTtl
      seconds later, and then treated as absent. */
  lemma StoredValueLivesForTtl(store: map<string, Entry>, key: string, now: int, v: real,
                                 fallback: real, later: int)
    requires Read(store, key, now).None?
    ensures var f := CacheAside(store, key, now, Some(v), fallback);
      Read(f.store, key, later) == (if later < now + CacheTtl then Some(v) else None)
  {
  }

  /** A hit makes no use of the external lookup: any two lookup outcomes give
      the same value and the same store. */
  lemma HitIgnoresLookup(store: map<string, Entry>, key: string, now: int, a: Option<real>, b: Option<real>,
                         fallbackA: real, fallbackB: real)
    requires Read(store, key, now).Some?
    ensures CacheAside(store, key, now, a, fallbackA) == CacheAside(store, key, now, b, fallbackB)
  {
  }

  // ---- trend signal ---------------------------------------------------------

  /** First value of the first point of the interest-over-time timeline; an
      empty timeline is a failure like a thrown error. */
  function TrendValue(reply: Reply<seq<real>>): (v: Option<real>)
    ensures v.Some? <==> reply.Ok? && |reply.value| > 0
    ensures v.Some? ==> v.value == reply.value[0]
  {
    if reply.Ok? && |reply.value| > 0 then Some(reply.value[0]) else None
  }

  /** `Math.random() * 100`, with the random draw `rand` passed in. */
  function TrendFallback(rand: real): (v: real)
    requires 0.0 <= rand < 1.0
    ensures 0.0 <= v < 100.0
  {
    rand * 100.0
  }

  // ---- policy-impact signal -------------------------------------------------

  /** Whether an article's description mentions "restrict"; an article without
      a description does not. */
  function Restricts(a: Article): (b: bool)
    ensures b <==> a.description.Some? && exists i :: OccursAt(a.description.value, "restrict", i)
  {
    if a.description.Some? then
      ContainsIffOccursAt(a.description.value, "restrict");
      Contains(a.description.value, "restrict")
    else false
  }

  /** The articles that are scored: at most the first five. */
  function Sample(articles: seq<Article>): (s: seq<Article>)
    ensures |s| == Min(5, |articles|) && s == articles[..|s|]
  {
    articles[..Min(5, |articles|)]
  }

  /** The `reduce` over the sample, in tenths: −1 per restricting article, +1
      for every other. */
  function Reduce(acc: int, articles: seq<Article>): (r: int)
    ensures acc - |articles| <= r <= acc + |articles|
    decreases |articles|
  {
    if articles == [] then acc
    else Reduce(acc + (if Restricts(articles[0]) then -1 else 1), articles[1..])
  }

  function RestrictCount(articles: seq<Article>): (n: nat)
    ensures n <= |articles|
  {
    if articles == [] then 0 else (if Restricts(articles[0]) then 1 else 0) + RestrictCount(articles[1..])
  }

  /** The fold adds one per non-restricting article and removes one per
      restricting article. */
  lemma {:induction false} ReduceCounts(acc: int, articles: seq<Article>)
    ensures Reduce(acc, articles) == acc + (|articles| - RestrictCount(articles)) - RestrictCount(articles)
    decreases |articles|
  {
    if articles != [] {
      ReduceCounts(acc + (if Restricts(articles[0]) then -1 else 1), articles[1..]);
    }
  }

  /** `Math.min(Math.max(x, lo), hi)`: the point of [lo, hi] nearest to `x`. */
  function Clamp(x: int, lo: int, hi: int): (r: int)
    requires lo <= hi
    ensures r == Min(Max(x, lo), hi)
    ensures lo <= r <= hi && (lo <= x <= hi ==> r == x)
  {
    if x < lo then lo else if x > hi then hi else x
  }

  /** Policy sentiment of a successful news search, in tenths: 8 plus the
      non-restricting minus the restricting articles of the sample, clamped to
      [0, 10]. With at most five articles the raw score is at least 3, so only
      the upper clamp can ever apply. */
  function SentimentTenths(articles: seq<Article>): (t: int)
    ensures 0 <= t <= 10
    ensures var s := Sample(articles);
      t == Min(10, 8 + (|s| - RestrictCount(s)) - RestrictCount(s))
  {
    var s := Sample(articles);
    ReduceCounts(8, s);
    Clamp(Reduce(8, s), 0, 10)
  }

  /** Fixed policy impact, in tenths, when the news search fails: 9 exactly for
      hardware in a location mentioning India, 8 otherwise. */
  function PolicyFallbackTenths(location: string, category: string): (t: int)
    ensures t == 9 <==> Contains(location, "India") && category == "hardware"
    ensures t == 8 <==> !(Contains(location, "India") && category == "hardware")
  {
    if Contains(location, "India") && category == "hardware" then 9 else 8
  }

  /** The policy impact of a news-search answer: the sentiment in tenths as a
      fraction, or nothing when the search failed. */
  function PolicyValue(reply: Reply<seq<Article>>): (v: Option<real>)
    ensures v.Some? <==> reply.Ok?
    ensures v.Some? ==> v.value * 10.0 == SentimentTenths(reply.value) as real
    ensures v.Some? ==> 0.0 <= v.value <= 1.0
  {
    match reply
    case Ok(articles) => Some(SentimentTenths(articles) as real / 10.0)
    case Fail(_) => None
  }

  /** The fixed policy impact used when the news search fails. */
  function PolicyFallback(location: string, category: string): (v: real)
    ensures Contains(location, "India") && category == "hardware" ==> v == 0.9
    ensures !(Contains(location, "India") && category == "hardware") ==> v == 0.8
  {
    PolicyFallbackTenths(location, category) as real / 10.0
  }

  /** Every policy entry of the store holds a score in [0, 1]. */
  ghost predicate PolicyValuesInRange(store: map<string, Entry>)
  {
    forall k :: k in store && IsPolicyKey(k) ==> 0.0 <= store[k].value <= 1.0
  }

  /** The process-wide signal store. */
  class SignalCache {
    var entries: map<string, Entry>

    ghost predicate Valid()
      reads this
    {
      PolicyValuesInRange(entries)
    }

    constructor ()
      ensures Valid() && entries == map[]
    {
      entries := map[];
    }

    /** GET with lazy expiry. */
    method Get(key: string, now: int) returns (r: Option<real>)
      ensures r.Some? <==> key in entries && now < entries[key].expiresAt
      ensures r.Some? ==> r.value == entries[key].value
    {
      if key in entries && now < entries[key].expiresAt {
        r := Some(entries[key].value);
      } else {
        r := None;
      }
    }

    /** SETEX: store `value` under `key` for `ttl` seconds from `now`. */
    method SetEx(key: string, ttl: nat, value: real, now: int)
      modifies this
      ensures entries == old(entries)[key := Entry(value, now + ttl)]
    {
      entries := entries[key := Entry(value, now + ttl)];
    }

    /** `pollTrends(location, keyword)`: `reply` is what the trends service
        answered (the timeline's first values) and `rand` the draw used on failure. */
    method PollTrends(location: string, keyword: string, now: int, reply: Reply<seq<real>>, rand: real)
      returns (v: real)
      requires Valid()
      requires 0.0 <= rand < 1.0
      modifies this
      ensures Valid()
      ensures Fetched(v, entries)
           == CacheAside(old(entries), TrendKey(location, keyword), now, TrendValue(reply), TrendFallback(rand))
    {
      var key := TrendKey(location, keyword);
      var cached := Get(key, now);
      if cached.Some? {
        return cached.value;
      }
      match reply {
        case Ok(points) =>
          if |points| > 0 {
            v := points[0];
            SetEx(key, CacheTtl, v, now);
          } else {
            v := TrendFallback(rand);
          }
        case Fail(_) =>
          v := TrendFallback(rand);
      }
    }

    /** `getPolicyImpact(location, category)`: `reply` is the news search's
        article list, or its failure. The result is always in [0, 1]. */
    method GetPolicyImpact(location: string, category: string, now: int, reply: Reply<seq<Article>>)
      returns (v: real)
      requires Valid()
      modifies this
      ensures Valid()
      ensures 0.0 <= v <= 1.0
      ensures Fetched(v, entries)
           == CacheAside(old(entries), PolicyKey(location, category), now, PolicyValue(reply),
                         PolicyFallback(location, category))
    {
      var key := PolicyKey(location, category);
      var cached := Get(key, now);
      if cached.Some? {
        return cached.value;
      }
      match reply {
        case Ok(articles) =>
          v := SentimentTenths(articles) as real / 10.0;
          SetEx(key, CacheTtl, v, now);
        case Fail(_) =>
          v := PolicyFallback(location, category);
      }
    }
  }
}
