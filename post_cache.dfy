/**
 * The Redis keyspace of post-service/src/controllers/post-controller.js:
 * one entry per post under `post:<id>`, one per listing page under
 * `posts:<page>:<limit>`, each stored with `setex` and a TTL in seconds.
 * Expiry over wall-clock time is not modelled: a TTL is a stored number.
 */
module PostCache {
  import opened Strings
  import opened Json

  datatype Entry = Entry(value: Text, ttl: nat)

  const PostTtl: nat := 3600
  const ListingTtl: nat := 300
  const ListingPrefix: string := "posts:"

  /** The keys `keys("posts:*")` returns. */
  predicate IsListingKey(k: string) {
    StartsWith(k, ListingPrefix)
  }

  function PostKey(id: string): (k: string)
    ensures !IsListingKey(k)
  {
    var k := "post:" + id;
    assert |k| >= 6 ==> k[..6][4] == ':';
    k
  }

  function ListingKey(page: int, limit: int): (k: string)
    ensures IsListingKey(k)
  {
    ListingPrefix + IntToString(page) + ":" + IntToString(limit)
  }

  lemma PostKeyInjective(a: string, b: string)
    requires PostKey(a) == PostKey(b)
    ensures a == b
  {
    assert a == PostKey(a)[5..];
  }

  /** Index of the first ':' in `s`, or `|s|` when there is none. */
  function FirstColon(s: string): (n: nat)
    ensures n <= |s|
  {
    if s == [] || s[0] == ':' then 0 else 1 + FirstColon(s[1..])
  }

  lemma {:induction false} FirstColonAfter(a: string, rest: string)
    requires forall i :: 0 <= i < |a| ==> a[i] != ':'
    requires rest != [] && rest[0] == ':'
    ensures FirstColon(a + rest) == |a|
  {
    if a != [] {
      assert (a + rest)[1..] == a[1..] + rest;
      FirstColonAfter(a[1..], rest);
    }
  }

  /** Distinct (page, limit) queries are cached under distinct keys. */
  lemma ListingKeyInjective(page: int, limit: int, page': int, limit': int)
    requires ListingKey(page, limit) == ListingKey(page', limit')
    ensures page == page' && limit == limit'
  {
    var a, b := IntToString(page), IntToString(limit);
    var c, d := IntToString(page'), IntToString(limit');
    var k := ListingKey(page, limit);
    assert k[6..] == a + (":" + b) && k[6..] == c + (":" + d) by {
      assert k == ListingPrefix + (a + (":" + b));
      assert k == ListingPrefix + (c + (":" + d));
    }
    FirstColonAfter(a, ":" + b);
    FirstColonAfter(c, ":" + d);
    assert a == k[6..][..|a|] && c == k[6..][..|c|];
    assert b == k[6..][|a| + 1..] && d == k[6..][|c| + 1..];
    IntToStringInjective(page, page');
    IntToStringInjective(limit, limit');
  }

  /** The cache after `invalidatePostCache(req, id)`. */
  function Invalidated(cache: map<string, Entry>, id: string): (r: map<string, Entry>)
    ensures r.Keys <= cache.Keys
    ensures forall k :: k in r ==> r[k] == cache[k]
    ensures forall k :: k in cache && k != PostKey(id) && !IsListingKey(k) ==> k in r
    ensures PostKey(id) !in r && forall k :: k in r ==> !IsListingKey(k)
  {
    map k | k in cache && k != PostKey(id) && !IsListingKey(k) :: cache[k]
  }

  /** After invalidation the post and every listing page miss; nothing else is touched. */
  lemma InvalidatedMisses(cache: map<string, Entry>, id: string, page: int, limit: int)
    ensures PostKey(id) !in Invalidated(cache, id)
    ensures ListingKey(page, limit) !in Invalidated(cache, id)
  {
  }

  lemma InvalidatedKeepsOtherPosts(cache: map<string, Entry>, id: string, other: string)
    requires other != id
    ensures PostKey(other) in Invalidated(cache, id) <==> PostKey(other) in cache
  {
    if PostKey(other) == PostKey(id) {
      PostKeyInjective(other, id);
    }
  }

  lemma InvalidatedIdempotent(cache: map<string, Entry>, id: string)
    ensures Invalidated(Invalidated(cache, id), id) == Invalidated(cache, id)
  {
  }
}

/**
 * The arithmetic of `getAllPost`: query defaults, the skip offset and the
 * page count, and the listing it caches.
 */
module PostPaging {
  import opened Wrappers
  import opened Strings
  import opened Json
  import opened PostStore

  const DefaultPage: int := 1
  const DefaultLimit: int := 10

  /** `parseInt(q) || fallback`: NaN and 0 both fall back. */
  function QueryInt(q: Option<string>, fallback: int): (r: int)
    ensures fallback != 0 ==> r != 0
    ensures q.None? ==> r == fallback
  {
    if q.None? then fallback
    else match ParseInt(q.value)
      case None => fallback
      case Some(v) => if v == 0 then fallback else v
  }

  lemma QueryIntReadsNumber(n: int, fallback: int)
    requires n != 0
    ensures QueryInt(Some(IntToString(n)), fallback) == n
  {
    ParseIntToString(n);
  }

  lemma QueryIntFallsBack(s: string, fallback: int)
    requires ParseInt(s) == None || ParseInt(s) == Some(0)
    ensures QueryInt(Some(s), fallback) == fallback
  {
  }

  function StartIndex(page: int, limit: int): int {
    (page - 1) * limit
  }

  /** `Math.ceil(total / limit)` for a non-zero integer limit. */
  function CeilDiv(total: nat, limit: int): (r: int)
    requires limit != 0
    ensures limit > 0 ==> (r - 1) * limit < total <= r * limit
    ensures limit < 0 ==> r * limit <= total < (r - 1) * limit
  {
    if limit > 0 then
      var q := (total + limit - 1) / limit;
      assert q * limit <= total + limit - 1 < q * limit + limit;
      q
    else
      var q := total / -limit;
      assert q * -limit <= total < q * -limit - limit;
      -q
  }

  /** The object `getAllPost` responds with and caches, if the store query succeeds. */
  function Listing(posts: seq<Post>, page: int, limit: int): (r: Option<Value>)
    requires limit != 0
    ensures r.Some? <==> StartIndex(page, limit) >= 0
  {
    match Window(posts, StartIndex(page, limit), limit)
    case None => None
    case Some(window) =>
      Some(Obj(map["posts" := WindowJson(window), "currentPage" := Num(page),
                   "totalPages" := Num(CeilDiv(|posts|, limit)), "totalPosts" := Num(|posts|)]))
  }

  /**
   * With a positive limit every post is listed: post `j` is at position
   * `j % limit` of page `j / limit + 1`, one of the `totalPages` pages.
   */
  lemma PostListedOnItsPage(posts: seq<Post>, limit: int, j: nat)
    requires limit > 0 && j < |posts|
    ensures 1 <= j / limit + 1 <= CeilDiv(|posts|, limit)
    ensures Window(posts, StartIndex(j / limit + 1, limit), limit).Some?
    ensures j % limit < |Window(posts, StartIndex(j / limit + 1, limit), limit).value|
    ensures Window(posts, StartIndex(j / limit + 1, limit), limit).value[j % limit] == posts[j]
  {
    var skip := StartIndex(j / limit + 1, limit);
    assert skip == (j / limit) * limit;
    assert skip + j % limit == j;
    var total := CeilDiv(|posts|, limit);
    if total <= j / limit {
      MulMonotone(total, j / limit, limit);
      assert false;
    }
  }

  /** ... and on no other page: a (page, position) pair names one post only. */
  lemma PostOnOnePage(limit: int, j: nat, page: int, k: int)
    requires limit > 0 && 0 <= k < limit && StartIndex(page, limit) + k == j
    ensures page == j / limit + 1 && k == j % limit
  {
    var q, r := j / limit, j % limit;
    assert q * limit + r == j;
    var d := (page - 1) - q;
    assert d * limit == r - k;
    if d > 0 {
      MulMonotone(1, d, limit);
      assert false;
    } else if d < 0 {
      MulMonotone(d, -1, limit);
      assert false;
    }
  }

  lemma MulMonotone(a: int, b: int, c: int)
    requires a <= b && c > 0
    ensures a * c <= b * c
  {
  }

  /** Pages before the last one hold exactly `limit` posts. */
  lemma FullPages(posts: seq<Post>, page: int, limit: int)
    requires limit > 0 && 1 <= page && page * limit <= |posts|
    ensures Window(posts, StartIndex(page, limit), limit).Some?
    ensures |Window(posts, StartIndex(page, limit), limit).value| == limit
  {
    var w := Window(posts, StartIndex(page, limit), limit).value;
    assert StartIndex(page, limit) + limit == page * limit;
    assert StartIndex(page, limit) + limit - 1 - StartIndex(page, limit) < |w|;
  }
}
