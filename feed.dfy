/** The feed ranking (agents.py, "FEED"): keep the accepted posts and sort
    them by score, then time stamp, both descending, stably. */
module Feed {
  import opened Wrappers
  import opened Moderation
  import opened Scoring

  /** A session record `{text, score, mod, ts, img}`; an absent key is `None`. */
  datatype Post = Post(text: string, score: Option<int>, mod: Option<Verdict>, ts: Option<real>, img: Option<Picture>)

  /** The sort key `(x.get("score", 0), x.get("ts", 0))`. */
  datatype SortKey = SortKey(score: int, ts: real)

  function KeyOf(p: Post): (k: SortKey)
    ensures p.score.None? ==> k.score == 0
    ensures p.score.Some? ==> k.score == p.score.value
    ensures p.ts.None? ==> k.ts == 0.0
    ensures p.ts.Some? ==> k.ts == p.ts.value
  {
    SortKey(match p.score case None => 0 case Some(s) => s,
            match p.ts case None => 0.0 case Some(t) => t)
  }

  /** Python's tuple order: `a >= b` lexicographically. */
  predicate AtLeast(a: SortKey, b: SortKey) {
    a.score > b.score || (a.score == b.score && a.ts >= b.ts)
  }

  /** Non-increasing by key. */
  predicate Descending(s: seq<Post>) {
    forall i, j :: 0 <= i < j < |s| ==> AtLeast(KeyOf(s[i]), KeyOf(s[j]))
  }

  /** `it.get("mod") == "ok"`. */
  predicate Accepted(p: Post) {
    p.mod == Some(Ok)
  }

  /** `[it for it in items if it.get("mod") == "ok"]`. */
  function Safe(items: seq<Post>): (r: seq<Post>)
    ensures |r| <= |items|
    ensures forall i :: 0 <= i < |r| ==> Accepted(r[i])
  {
    if items == [] then []
    else (if Accepted(items[0]) then [items[0]] else []) + Safe(items[1..])
  }

  /** Puts `x` before the first element whose key it is at least. */
  function Insert(x: Post, s: seq<Post>): seq<Post> {
    if s == [] || AtLeast(KeyOf(x), KeyOf(s[0])) then [x] + s
    else [s[0]] + Insert(x, s[1..])
  }

  /** `sorted(..., key=..., reverse=True)`: a stable sort by descending key. */
  function SortDesc(s: seq<Post>): seq<Post> {
    if s == [] then [] else Insert(s[0], SortDesc(s[1..]))
  }

  /** `rank_feed`. */
  function RankFeed(items: seq<Post>): seq<Post> {
    SortDesc(Safe(items))
  }

  /** The posts of `s` with key `k`, in their order in `s`. */
  function WithKey(s: seq<Post>, k: SortKey): seq<Post> {
    if s == [] then []
    else (if KeyOf(s[0]) == k then [s[0]] else []) + WithKey(s[1..], k)
  }

  /** The filter keeps every copy of each accepted post and no copy of any
      other. */
  lemma {:induction false} SafeCounts(items: seq<Post>)
    ensures forall p :: multiset(Safe(items))[p] == if Accepted(p) then multiset(items)[p] else 0
  {
    if items != [] {
      SafeCounts(items[1..]);
      assert items == [items[0]] + items[1..];
    }
  }

  /** The filter keeps every copy of each accepted post and nothing else. */
  lemma SafeKeepsAccepted(items: seq<Post>)
    ensures multiset(Safe(items)) <= multiset(items)
    ensures forall p :: multiset(Safe(items))[p] == if Accepted(p) then multiset(items)[p] else 0
    ensures forall p :: p in Safe(items) <==> p in items && Accepted(p)
  {
    SafeCounts(items);
    forall p ensures p in Safe(items) <==> p in items && Accepted(p) {
      assert p in Safe(items) <==> multiset(Safe(items))[p] > 0;
      assert p in items <==> multiset(items)[p] > 0;
    }
  }

  lemma {:induction false} InsertPermutes(x: Post, s: seq<Post>)
    ensures multiset(Insert(x, s)) == multiset(s) + multiset{x}
  {
    if s != [] && !AtLeast(KeyOf(x), KeyOf(s[0])) {
      InsertPermutes(x, s[1..]);
      assert s == [s[0]] + s[1..];
    }
  }

  lemma {:induction false} InsertDescending(x: Post, s: seq<Post>)
    requires Descending(s)
    ensures Descending(Insert(x, s))
  {
    if s != [] && !AtLeast(KeyOf(x), KeyOf(s[0])) {
      InsertDescending(x, s[1..]);
      InsertPermutes(x, s[1..]);
      var r := Insert(x, s);
      forall j | 0 < j < |r|
        ensures AtLeast(KeyOf(r[0]), KeyOf(r[j]))
      {
        assert r[j] in multiset(Insert(x, s[1..]));
        assert r[j] == x || r[j] in s[1..];
      }
    }
  }

  /** Insertion keeps the posts of each key in order, `x` first among its own:
      the sort is stable. */
  lemma {:induction false} InsertKeepsKeyOrder(x: Post, s: seq<Post>, k: SortKey)
    ensures WithKey(Insert(x, s), k) == (if KeyOf(x) == k then [x] else []) + WithKey(s, k)
  {
    if s == [] || AtLeast(KeyOf(x), KeyOf(s[0])) {
      assert ([x] + s)[1..] == s;
    } else {
      InsertKeepsKeyOrder(x, s[1..], k);
      assert ([s[0]] + Insert(x, s[1..]))[1..] == Insert(x, s[1..]);
    }
  }

  lemma {:induction false} SortDescPermutes(s: seq<Post>)
    ensures multiset(SortDesc(s)) == multiset(s)
  {
    if s != [] {
      SortDescPermutes(s[1..]);
      InsertPermutes(s[0], SortDesc(s[1..]));
      assert s == [s[0]] + s[1..];
    }
  }

  lemma {:induction false} SortDescDescending(s: seq<Post>)
    ensures Descending(SortDesc(s))
  {
    if s != [] {
      SortDescDescending(s[1..]);
      InsertDescending(s[0], SortDesc(s[1..]));
    }
  }

  lemma {:induction false} SortDescStable(s: seq<Post>, k: SortKey)
    ensures WithKey(SortDesc(s), k) == WithKey(s, k)
  {
    if s != [] {
      SortDescStable(s[1..], k);
      InsertKeepsKeyOrder(s[0], SortDesc(s[1..]), k);
    }
  }

  /** `sorted` returns a permutation of its input, in descending key order,
      with the posts of each key in their input order. */
  lemma SortDescCorrect(s: seq<Post>)
    ensures multiset(SortDesc(s)) == multiset(s)
    ensures Descending(SortDesc(s))
    ensures forall k :: WithKey(SortDesc(s), k) == WithKey(s, k)
  {
    SortDescPermutes(s);
    SortDescDescending(s);
    forall k ensures WithKey(SortDesc(s), k) == WithKey(s, k) {
      SortDescStable(s, k);
    }
  }

  /** The ranked feed is a permutation of the accepted posts, holds exactly
      the accepted posts of the input, is ordered by descending
      (score, time stamp) so that of two equal scores the later one comes
      first, and keeps posts with equal keys in their input order. */
  lemma RankFeedCorrect(items: seq<Post>)
    ensures multiset(RankFeed(items)) == multiset(Safe(items))
    ensures forall p :: multiset(RankFeed(items))[p] == if Accepted(p) then multiset(items)[p] else 0
    ensures forall p :: p in RankFeed(items) <==> p in items && Accepted(p)
    ensures Descending(RankFeed(items))
    ensures forall i, j ::
              (0 <= i < j < |RankFeed(items)| &&
               KeyOf(RankFeed(items)[i]).score == KeyOf(RankFeed(items)[j]).score) ==>
              KeyOf(RankFeed(items)[i]).ts >= KeyOf(RankFeed(items)[j]).ts
    ensures forall k :: WithKey(RankFeed(items), k) == WithKey(Safe(items), k)
  {
    SortDescCorrect(Safe(items));
    SafeKeepsAccepted(items);
    forall p ensures p in RankFeed(items) <==> p in Safe(items) {
      assert p in RankFeed(items) <==> p in multiset(RankFeed(items));
    }
  }

  /** Each ranked post is an accepted post of the input, and the ranking is
      descending. */
  lemma RankFeedFromItems(items: seq<Post>)
    ensures forall i :: 0 <= i < |RankFeed(items)| ==> Accepted(RankFeed(items)[i]) && RankFeed(items)[i] in items
    ensures Descending(RankFeed(items))
  {
    RankFeedCorrect(items);
    var r := RankFeed(items);
    assert forall i :: 0 <= i < |r| ==> r[i] in r;
  }
}
