/** The trending-candidate and reply-filtering rules of the tweet scraper
    (src/services/tweet_scraper.py). The search client and the login are
    collaborators: their results are inputs. */
module Scraper {
  import opened Wrappers

  datatype User = User(id: string, name: string, screenName: string,
                       followersCount: int, verified: bool, isBlueVerified: bool)

  /** One search hit; `isRetweet` stands for a truthy `retweeted_tweet`. */
  datatype Tweet = Tweet(id: string, text: string, user: User, isRetweet: bool)

  /** The dictionary built for each kept search hit. */
  datatype TweetRecord = TweetRecord(tweetId: string, tweetText: string,
                                     authorId: string, authorName: string,
                                     authorUsername: string, followersCount: int,
                                     isVerified: bool, matchedQuery: string)

  /** What one `search_tweet` call gave: its hits, or an exception. */
  datatype Search = Found(tweets: seq<Tweet>) | Raised

  datatype ScrapeError = LoginFailed | SearchFailed

  /** One hit of the reply search, and the dictionary kept for it. */
  datatype Reply = Reply(id: string, text: string, authorScreenName: string)
  datatype ReplyRecord = ReplyRecord(replyId: string, replyText: string, replyAuthor: string)

  const DefaultQueries: seq<string> :=
    ["GameFi", "NFTGaming", "P2E", "BlockchainGaming", "CryptoGaming"]

  /** `queries if queries else self.default_queries`: `None` and the empty
      list both select the defaults. */
  function SearchQueries(queries: Option<seq<string>>): (qs: seq<string>)
    ensures queries.Some? && queries.value != [] ==> qs == queries.value
    ensures queries.None? || queries.value == [] ==> qs == DefaultQueries
  {
    if queries.Some? && queries.value != [] then queries.value else DefaultQueries
  }

  function ToRecord(t: Tweet, query: string): (r: TweetRecord)
    ensures r.isVerified <==> t.user.verified || t.user.isBlueVerified
  {
    TweetRecord(t.id, t.text, t.user.id, t.user.name, t.user.screenName,
                t.user.followersCount, t.user.verified || t.user.isBlueVerified, query)
  }

  // ---------------------------------------------------------------------------
  // Collecting the records of every query

  /** The records the first `j` hits of one query contribute: those that
      are not retweets, in order. */
  function QueryRecordsTo(query: string, ts: seq<Tweet>, j: nat): seq<TweetRecord>
    requires j <= |ts|
  {
    if j == 0 then []
    else QueryRecordsTo(query, ts, j - 1) + (if ts[j - 1].isRetweet then [] else [ToRecord(ts[j - 1], query)])
  }

  /** The records one query contributes. */
  function QueryRecords(query: string, ts: seq<Tweet>): seq<TweetRecord> {
    QueryRecordsTo(query, ts, |ts|)
  }

  /** `all_tweets` once the first `i` queries have been searched. */
  function CollectedTo(qs: seq<string>, tss: seq<seq<Tweet>>, i: nat): seq<TweetRecord>
    requires i <= |qs| == |tss|
  {
    if i == 0 then [] else CollectedTo(qs, tss, i - 1) + QueryRecords(qs[i - 1], tss[i - 1])
  }

  /** `all_tweets` once every query has been searched. */
  function Collected(qs: seq<string>, tss: seq<seq<Tweet>>): seq<TweetRecord>
    requires |qs| == |tss|
  {
    CollectedTo(qs, tss, |qs|)
  }

  /** A record that came from hit `t` of query `qs[i]`, `t` not a retweet. */
  ghost predicate FromSearch(qs: seq<string>, tss: seq<seq<Tweet>>, r: TweetRecord)
    requires |qs| == |tss|
  {
    exists i, t :: 0 <= i < |qs| && t in tss[i] && !t.isRetweet && r == ToRecord(t, qs[i])
  }

  lemma {:induction false} QueryRecordsProvenance(query: string, ts: seq<Tweet>, j: nat)
    requires j <= |ts|
    ensures forall r :: r in QueryRecordsTo(query, ts, j) ==>
              exists t :: t in ts && !t.isRetweet && r == ToRecord(t, query)
  {
    if j > 0 {
      QueryRecordsProvenance(query, ts, j - 1);
      assert ts[j - 1] in ts;
    }
  }

  /** Every collected record comes from a non-retweet hit of some query. */
  lemma {:induction false} CollectedProvenance(qs: seq<string>, tss: seq<seq<Tweet>>, i: nat)
    requires i <= |qs| == |tss|
    ensures forall r :: r in CollectedTo(qs, tss, i) ==> FromSearch(qs, tss, r)
  {
    if i > 0 {
      CollectedProvenance(qs, tss, i - 1);
      QueryRecordsProvenance(qs[i - 1], tss[i - 1], |tss[i - 1]|);
      forall r | r in QueryRecords(qs[i - 1], tss[i - 1]) ensures FromSearch(qs, tss, r) {
        var t :| t in tss[i - 1] && !t.isRetweet && r == ToRecord(t, qs[i - 1]);
      }
    }
  }

  // ---------------------------------------------------------------------------
  // De-duplication by id: `{t['tweet_id']: t for t in all_tweets}.values()`

  /** The first position of `id` in `s`, or `|s|` when it does not occur. */
  function FindId(s: seq<TweetRecord>, id: string): (k: nat)
    ensures k <= |s|
    ensures k < |s| ==> s[k].tweetId == id
    ensures forall j :: 0 <= j < k ==> s[j].tweetId != id
  {
    if s == [] then 0
    else if s[0].tweetId == id then 0
    else 1 + FindId(s[1..], id)
  }

  predicate HasId(s: seq<TweetRecord>, id: string) {
    FindId(s, id) < |s|
  }

  lemma HasIdAt(s: seq<TweetRecord>, j: nat)
    requires j < |s|
    ensures HasId(s, s[j].tweetId) && FindId(s, s[j].tweetId) <= j
  {
  }

  ghost predicate DistinctIds(s: seq<TweetRecord>) {
    forall i, j :: 0 <= i < j < |s| ==> s[i].tweetId != s[j].tweetId
  }

  /** Appending a record leaves the first position of every earlier id alone. */
  lemma FindIdSnoc(prev: seq<TweetRecord>, x: TweetRecord, id: string)
    ensures HasId(prev, id) ==> FindId(prev + [x], id) == FindId(prev, id)
    ensures !HasId(prev, id) && id == x.tweetId ==> FindId(prev + [x], id) == |prev|
    ensures HasId(prev + [x], id) <==> HasId(prev, id) || id == x.tweetId
  {
    var s := prev + [x];
    var k := FindId(prev, id);
    var k' := FindId(s, id);
    assert forall j :: 0 <= j < |prev| ==> s[j] == prev[j];
    if k < |prev| {
      assert s[k].tweetId == id;
    }
    if k' < |prev| {
      assert prev[k'].tweetId == id;
    }
    assert s[|prev|] == x;
  }

  /** The value a dictionary assignment `d[r.tweetId] = r` leaves: the entry is
      replaced in place when the key is already there, appended otherwise. */
  function Upsert(acc: seq<TweetRecord>, r: TweetRecord): seq<TweetRecord>
  {
    var k := FindId(acc, r.tweetId);
    if k < |acc| then acc[k := r] else acc + [r]
  }

  /** The values of the comprehension, in the dictionary's insertion order. */
  function Dedup(rs: seq<TweetRecord>): seq<TweetRecord>
  {
    if rs == [] then [] else Upsert(Dedup(rs[..|rs| - 1]), rs[|rs| - 1])
  }

  /** Reference definition: the last record of `rs` whose id is `id`. */
  function LastOf(rs: seq<TweetRecord>, id: string): TweetRecord
    requires HasId(rs, id)
  {
    var n := |rs| - 1;
    if rs[n].tweetId == id then rs[n]
    else
      assert HasId(rs[..n], id) by { HasIdAt(rs[..n], FindId(rs, id)); }
      LastOf(rs[..n], id)
  }

  lemma UpsertShape(acc: seq<TweetRecord>, x: TweetRecord)
    ensures var out := Upsert(acc, x);
      && |acc| <= |out| <= |acc| + 1
      && (forall i :: 0 <= i < |acc| ==> out[i].tweetId == acc[i].tweetId)
      && (|out| == |acc| + 1 ==> out[|acc|] == x && !HasId(acc, x.tweetId))
      && (HasId(acc, x.tweetId) ==> |out| == |acc|)
  {
  }

  lemma UpsertIds(acc: seq<TweetRecord>, x: TweetRecord, id: string)
    ensures HasId(Upsert(acc, x), id) <==> HasId(acc, id) || id == x.tweetId
  {
    var out := Upsert(acc, x);
    var k := FindId(acc, x.tweetId);
    if k < |acc| {
      if HasId(acc, id) { HasIdAt(out, FindId(acc, id)); }
      if id == x.tweetId { HasIdAt(out, k); }
      var j := FindId(out, id);
      if j < |out| { HasIdAt(acc, j); }
    } else {
      FindIdSnoc(acc, x, id);
    }
  }

  lemma UpsertMembers(acc: seq<TweetRecord>, x: TweetRecord)
    requires DistinctIds(acc)
    ensures DistinctIds(Upsert(acc, x))
    ensures forall r :: r in Upsert(acc, x) ==> r == x || (r in acc && r.tweetId != x.tweetId)
  {
    var out := Upsert(acc, x);
    var k := FindId(acc, x.tweetId);
    if k == |acc| {
      assert forall j :: 0 <= j < |acc| ==> acc[j].tweetId != x.tweetId;
    }
  }

  lemma {:induction false} DedupIds(rs: seq<TweetRecord>)
    ensures DistinctIds(Dedup(rs))
    ensures forall id :: HasId(Dedup(rs), id) <==> HasId(rs, id)
    ensures forall r :: r in Dedup(rs) ==> HasId(rs, r.tweetId) && r == LastOf(rs, r.tweetId)
  {
    if rs != [] {
      var n := |rs| - 1;
      var prev, x := rs[..n], rs[n];
      assert rs == prev + [x];
      DedupIds(prev);
      var acc := Dedup(prev);
      UpsertMembers(acc, x);
      forall id ensures HasId(Dedup(rs), id) <==> HasId(rs, id) {
        UpsertIds(acc, x, id);
        FindIdSnoc(prev, x, id);
      }
      forall r | r in Dedup(rs) ensures HasId(rs, r.tweetId) && r == LastOf(rs, r.tweetId) {
        FindIdSnoc(prev, x, r.tweetId);
      }
    }
  }

  /** Insertion order of the dictionary: a kept record sits where its id
      first appeared. */
  lemma {:induction false} DedupFirstSeenOrder(rs: seq<TweetRecord>)
    ensures forall i, j :: 0 <= i < j < |Dedup(rs)| ==>
              FindId(rs, Dedup(rs)[i].tweetId) < FindId(rs, Dedup(rs)[j].tweetId)
  {
    if rs != [] {
      var n := |rs| - 1;
      var prev, x := rs[..n], rs[n];
      assert rs == prev + [x];
      DedupFirstSeenOrder(prev);
      DedupIds(prev);
      var acc := Dedup(prev);
      var out := Dedup(rs);
      UpsertShape(acc, x);
      forall i | 0 <= i < |acc|
        ensures HasId(prev, acc[i].tweetId)
        ensures FindId(rs, out[i].tweetId) == FindId(prev, acc[i].tweetId) < n
      {
        HasIdAt(acc, i);
        FindIdSnoc(prev, x, acc[i].tweetId);
      }
      if |out| == |acc| + 1 {
        FindIdSnoc(prev, x, x.tweetId);
        assert FindId(rs, out[|acc|].tweetId) == n;
      }
    }
  }

  // ---------------------------------------------------------------------------
  // `sorted(..., key=followers_count, reverse=True)`: a stable sort, highest first

  function Insert(x: TweetRecord, s: seq<TweetRecord>): seq<TweetRecord>
  {
    if s == [] then [x]
    else if s[0].followersCount <= x.followersCount then [x] + s
    else [s[0]] + Insert(x, s[1..])
  }

  function SortByFollowers(rs: seq<TweetRecord>): seq<TweetRecord>
  {
    if rs == [] then [] else Insert(rs[0], SortByFollowers(rs[1..]))
  }

  ghost predicate NonIncreasing(s: seq<TweetRecord>) {
    forall i, j :: 0 <= i < j < |s| ==> s[i].followersCount >= s[j].followersCount
  }

  /** The records of `s` with exactly `c` followers, in order. */
  function WithFollowers(s: seq<TweetRecord>, c: int): seq<TweetRecord>
  {
    if s == [] then [] else (if s[0].followersCount == c then [s[0]] else []) + WithFollowers(s[1..], c)
  }

  lemma {:induction false} InsertMembers(x: TweetRecord, s: seq<TweetRecord>)
    ensures multiset(Insert(x, s)) == multiset(s) + multiset{x}
    ensures forall r :: r in Insert(x, s) <==> r == x || r in s
  {
    if s != [] && s[0].followersCount > x.followersCount {
      InsertMembers(x, s[1..]);
      assert s == [s[0]] + s[1..];
    }
  }

  lemma {:induction false} InsertSorted(x: TweetRecord, s: seq<TweetRecord>)
    requires NonIncreasing(s)
    ensures NonIncreasing(Insert(x, s))
  {
    if s != [] && s[0].followersCount > x.followersCount {
      InsertSorted(x, s[1..]);
      InsertMembers(x, s[1..]);
      var t := Insert(x, s[1..]);
      forall j | 0 <= j < |t| ensures s[0].followersCount >= t[j].followersCount {
        assert t[j] in t;
      }
    }
  }

  lemma {:induction false} InsertStable(x: TweetRecord, s: seq<TweetRecord>, c: int)
    ensures WithFollowers(Insert(x, s), c) == WithFollowers([x] + s, c)
  {
    assert ([x] + s)[1..] == s;
    if s != [] && s[0].followersCount > x.followersCount {
      InsertStable(x, s[1..], c);
      var t := Insert(x, s[1..]);
      assert ([s[0]] + t)[1..] == t;
      assert ([x] + s[1..])[1..] == s[1..];
    }
  }

  /** The sort keeps the records, orders them by followers and keeps the
      input order among equal counts. */
  lemma {:induction false} SortFacts(rs: seq<TweetRecord>)
    ensures multiset(SortByFollowers(rs)) == multiset(rs)
    ensures NonIncreasing(SortByFollowers(rs))
    ensures forall c :: WithFollowers(SortByFollowers(rs), c) == WithFollowers(rs, c)
  {
    if rs != [] {
      SortFacts(rs[1..]);
      var t := SortByFollowers(rs[1..]);
      InsertMembers(rs[0], t);
      InsertSorted(rs[0], t);
      assert rs == [rs[0]] + rs[1..];
      forall c ensures WithFollowers(SortByFollowers(rs), c) == WithFollowers(rs, c) {
        InsertStable(rs[0], t, c);
        assert ([rs[0]] + t)[1..] == t;
      }
    }
  }

  lemma {:induction false} InsertKeepsDistinct(x: TweetRecord, s: seq<TweetRecord>)
    requires DistinctIds(s)
    requires forall j :: 0 <= j < |s| ==> s[j].tweetId != x.tweetId
    ensures DistinctIds(Insert(x, s))
  {
    if s != [] && s[0].followersCount > x.followersCount {
      InsertKeepsDistinct(x, s[1..]);
      InsertMembers(x, s[1..]);
      var t := Insert(x, s[1..]);
      forall j | 0 <= j < |t| ensures t[j].tweetId != s[0].tweetId {
        assert t[j] in t;
      }
    }
  }

  lemma {:induction false} SortKeepsDistinct(rs: seq<TweetRecord>)
    requires DistinctIds(rs)
    ensures DistinctIds(SortByFollowers(rs))
  {
    if rs != [] {
      SortKeepsDistinct(rs[1..]);
      SortFacts(rs[1..]);
      var t := SortByFollowers(rs[1..]);
      forall j | 0 <= j < |t| ensures t[j].tweetId != rs[0].tweetId {
        assert t[j] in multiset(rs[1..]);
        var m :| 0 <= m < |rs[1..]| && rs[1..][m] == t[j];
        assert rs[m + 1] == t[j];
      }
      InsertKeepsDistinct(rs[0], t);
    }
  }

  /** Records with the same follower count appear in the order in which
      their ids first occur in `all`. */
  ghost predicate TiesInFirstSeenOrder(all: seq<TweetRecord>, s: seq<TweetRecord>) {
    forall i, j :: 0 <= i < j < |s| && s[i].followersCount == s[j].followersCount ==>
      FindId(all, s[i].tweetId) < FindId(all, s[j].tweetId)
  }

  /** A record placed before a list keeps the tie order when it was seen
      before every record of the list it ties with. */
  lemma ConsKeepsTies(all: seq<TweetRecord>, h: TweetRecord, t: seq<TweetRecord>)
    requires TiesInFirstSeenOrder(all, t)
    requires forall j :: 0 <= j < |t| && t[j].followersCount == h.followersCount ==>
               FindId(all, h.tweetId) < FindId(all, t[j].tweetId)
    ensures TiesInFirstSeenOrder(all, [h] + t)
  {
    var out := [h] + t;
    assert forall j :: 1 <= j < |out| ==> out[j] == t[j - 1];
  }

  /** Inserting below the head keeps the head ahead of every record it ties with. */
  lemma HeadBeforeTies(all: seq<TweetRecord>, x: TweetRecord, s: seq<TweetRecord>)
    requires s != [] && s[0].followersCount > x.followersCount
    requires TiesInFirstSeenOrder(all, s)
    ensures forall j :: 0 <= j < |Insert(x, s[1..])| && Insert(x, s[1..])[j].followersCount == s[0].followersCount ==>
              FindId(all, s[0].tweetId) < FindId(all, Insert(x, s[1..])[j].tweetId)
  {
    var rest := s[1..];
    InsertMembers(x, rest);
    var t := Insert(x, rest);
    forall j | 0 <= j < |t| && t[j].followersCount == s[0].followersCount
      ensures FindId(all, s[0].tweetId) < FindId(all, t[j].tweetId)
    {
      assert t[j] in t;
      var m :| 0 <= m < |rest| && rest[m] == t[j];
      assert s[m + 1] == t[j];
    }
  }

  lemma {:induction false} InsertKeepsTies(all: seq<TweetRecord>, x: TweetRecord, s: seq<TweetRecord>)
    requires TiesInFirstSeenOrder(all, s)
    requires forall j :: 0 <= j < |s| ==> FindId(all, x.tweetId) < FindId(all, s[j].tweetId)
    ensures TiesInFirstSeenOrder(all, Insert(x, s))
  {
    if s != [] && s[0].followersCount > x.followersCount {
      var rest := s[1..];
      assert forall j :: 0 <= j < |rest| ==> rest[j] == s[j + 1];
      InsertKeepsTies(all, x, rest);
      HeadBeforeTies(all, x, s);
      ConsKeepsTies(all, s[0], Insert(x, rest));
    } else {
      ConsKeepsTies(all, x, s);
    }
  }

  /** Python's sort is stable also with `reverse=True`: when the input is in
      first-seen order, ties stay in first-seen order. */
  lemma {:induction false} SortKeepsTies(all: seq<TweetRecord>, rs: seq<TweetRecord>)
    requires forall i, j :: 0 <= i < j < |rs| ==> FindId(all, rs[i].tweetId) < FindId(all, rs[j].tweetId)
    ensures TiesInFirstSeenOrder(all, SortByFollowers(rs))
  {
    if rs != [] {
      SortKeepsTies(all, rs[1..]);
      SortFacts(rs[1..]);
      var t := SortByFollowers(rs[1..]);
      forall j | 0 <= j < |t| ensures FindId(all, rs[0].tweetId) < FindId(all, t[j].tweetId) {
        assert t[j] in multiset(rs[1..]);
        var m :| 0 <= m < |rs[1..]| && rs[1..][m] == t[j];
        assert rs[m + 1] == t[j];
      }
      InsertKeepsTies(all, rs[0], t);
    }
  }

  // ---------------------------------------------------------------------------
  // `s[:limit]` with Python's treatment of a negative bound

  function PrefixUpTo(s: seq<TweetRecord>, limit: int): (r: seq<TweetRecord>)
    ensures |r| <= |s| && r == s[..|r|]
    ensures limit >= 0 ==> |r| == if limit < |s| then limit else |s|
    ensures limit < 0 ==> |r| == if |s| + limit > 0 then |s| + limit else 0
  {
    if limit >= 0 then (if limit < |s| then s[..limit] else s)
    else if |s| + limit > 0 then s[..|s| + limit] else []
  }

  /** What `get_trending_tweets` returns once every search has answered. */
  function Trending(qs: seq<string>, tss: seq<seq<Tweet>>, limit: int): seq<TweetRecord>
    requires |qs| == |tss|
  {
    PrefixUpTo(SortByFollowers(Dedup(Collected(qs, tss))), limit)
  }

  /** At most `limit` records; pairwise distinct ids; highest follower count first. */
  lemma TrendingShape(qs: seq<string>, tss: seq<seq<Tweet>>, limit: int)
    requires |qs| == |tss|
    ensures limit >= 0 ==> |Trending(qs, tss, limit)| <= limit
    ensures DistinctIds(Trending(qs, tss, limit))
    ensures NonIncreasing(Trending(qs, tss, limit))
  {
    var d := Dedup(Collected(qs, tss));
    DedupIds(Collected(qs, tss));
    SortFacts(d);
    SortKeepsDistinct(d);
  }

  /** Every returned record comes from a non-retweet hit of some query and is
      the LAST record collected for its id (so a duplicated id carries the
      later query as `matchedQuery`). */
  lemma TrendingProvenance(qs: seq<string>, tss: seq<seq<Tweet>>, limit: int)
    requires |qs| == |tss|
    ensures forall r :: r in Trending(qs, tss, limit) ==>
              && FromSearch(qs, tss, r)
              && HasId(Collected(qs, tss), r.tweetId)
              && r == LastOf(Collected(qs, tss), r.tweetId)
  {
    var all := Collected(qs, tss);
    var d := Dedup(all);
    DedupIds(all);
    SortFacts(d);
    CollectedProvenance(qs, tss, |qs|);
    forall r | r in Trending(qs, tss, limit)
      ensures FromSearch(qs, tss, r) && HasId(all, r.tweetId) && r == LastOf(all, r.tweetId)
    {
      var s := SortByFollowers(d);
      assert r in s;
      assert r in multiset(s);
      assert r in d;
      var j :| 0 <= j < |d| && d[j] == r;
      assert r in all by {
        var p := FindId(all, r.tweetId);
        LastOfIn(all, r.tweetId);
      }
    }
  }

  lemma {:induction false} LastOfIn(rs: seq<TweetRecord>, id: string)
    requires HasId(rs, id)
    ensures LastOf(rs, id) in rs && LastOf(rs, id).tweetId == id
  {
    var n := |rs| - 1;
    if rs[n].tweetId != id {
      HasIdAt(rs[..n], FindId(rs, id));
      LastOfIn(rs[..n], id);
    }
  }

  /** Records with equal follower counts keep the order in which their ids
      were first collected. */
  lemma TrendingTies(qs: seq<string>, tss: seq<seq<Tweet>>, limit: int)
    requires |qs| == |tss|
    ensures TiesInFirstSeenOrder(Collected(qs, tss), Trending(qs, tss, limit))
  {
    var all := Collected(qs, tss);
    DedupFirstSeenOrder(all);
    SortKeepsTies(all, Dedup(all));
  }

  /** Among records with the same follower count, the sort keeps the order in
      which their ids were first seen. */
  lemma SortedStable(qs: seq<string>, tss: seq<seq<Tweet>>, c: int)
    requires |qs| == |tss|
    ensures WithFollowers(SortByFollowers(Dedup(Collected(qs, tss))), c)
         == WithFollowers(Dedup(Collected(qs, tss)), c)
  {
    SortFacts(Dedup(Collected(qs, tss)));
  }

  // ---------------------------------------------------------------------------
  // Reply filtering across calls

  /** The replies kept from `rs[i..]` when `seen` ids were already processed:
      neither the tweet itself nor a seen id, the set growing as replies are kept. */
  function NewRepliesFrom(tweetId: string, seen: set<string>, rs: seq<Reply>, i: nat): seq<ReplyRecord>
    requires i <= |rs|
    decreases |rs| - i
  {
    if i == |rs| then []
    else if rs[i].id == tweetId || rs[i].id in seen then NewRepliesFrom(tweetId, seen, rs, i + 1)
    else [ReplyRecord(rs[i].id, rs[i].text, rs[i].authorScreenName)]
         + NewRepliesFrom(tweetId, seen + {rs[i].id}, rs, i + 1)
  }

  /** The replies kept from `rs` when `seen` ids were already processed. */
  function NewReplies(tweetId: string, seen: set<string>, rs: seq<Reply>): seq<ReplyRecord> {
    NewRepliesFrom(tweetId, seen, rs, 0)
  }

  function ReplyIds(out: seq<ReplyRecord>): set<string> {
    set r | r in out :: r.replyId
  }

  lemma {:induction false} NewRepliesFromFresh(tweetId: string, seen: set<string>, rs: seq<Reply>, i: nat)
    requires i <= |rs|
    decreases |rs| - i
    ensures forall k :: 0 <= k < |NewRepliesFrom(tweetId, seen, rs, i)| ==>
              NewRepliesFrom(tweetId, seen, rs, i)[k].replyId != tweetId
              && NewRepliesFrom(tweetId, seen, rs, i)[k].replyId !in seen
    ensures forall k, l :: 0 <= k < l < |NewRepliesFrom(tweetId, seen, rs, i)| ==>
              NewRepliesFrom(tweetId, seen, rs, i)[k].replyId != NewRepliesFrom(tweetId, seen, rs, i)[l].replyId
  {
    if i < |rs| {
      if rs[i].id == tweetId || rs[i].id in seen {
        NewRepliesFromFresh(tweetId, seen, rs, i + 1);
      } else {
        NewRepliesFromFresh(tweetId, seen + {rs[i].id}, rs, i + 1);
        var out := NewRepliesFrom(tweetId, seen, rs, i);
        var tail := NewRepliesFrom(tweetId, seen + {rs[i].id}, rs, i + 1);
        assert out[1..] == tail;
        assert forall k :: 1 <= k < |out| ==> out[k] == tail[k - 1];
      }
    }
  }

  /** No kept reply is the tweet itself or already seen; kept ids are distinct. */
  lemma NewRepliesFresh(tweetId: string, seen: set<string>, rs: seq<Reply>)
    ensures forall k :: 0 <= k < |NewReplies(tweetId, seen, rs)| ==>
              NewReplies(tweetId, seen, rs)[k].replyId != tweetId
              && NewReplies(tweetId, seen, rs)[k].replyId !in seen
    ensures forall i, j :: 0 <= i < j < |NewReplies(tweetId, seen, rs)| ==>
              NewReplies(tweetId, seen, rs)[i].replyId != NewReplies(tweetId, seen, rs)[j].replyId
  {
    NewRepliesFromFresh(tweetId, seen, rs, 0);
  }

  lemma {:induction false} NewRepliesFromCover(tweetId: string, seen: set<string>, rs: seq<Reply>, i: nat)
    requires i <= |rs|
    decreases |rs| - i
    ensures forall k :: i <= k < |rs| ==>
              rs[k].id == tweetId || rs[k].id in seen + ReplyIds(NewRepliesFrom(tweetId, seen, rs, i))
  {
    if i < |rs| {
      if rs[i].id == tweetId || rs[i].id in seen {
        NewRepliesFromCover(tweetId, seen, rs, i + 1);
      } else {
        var seen' := seen + {rs[i].id};
        NewRepliesFromCover(tweetId, seen', rs, i + 1);
        var out := NewRepliesFrom(tweetId, seen, rs, i);
        var tail := NewRepliesFrom(tweetId, seen', rs, i + 1);
        assert out == [out[0]] + tail;
        assert ReplyIds(out) == {rs[i].id} + ReplyIds(tail) by {
          assert forall r :: r in out <==> r == out[0] || r in tail;
        }
      }
    }
  }

  /** After a call, every hit is the tweet itself or a processed id. */
  lemma NewRepliesCover(tweetId: string, seen: set<string>, rs: seq<Reply>)
    ensures forall x :: x in rs ==>
              x.id == tweetId || x.id in seen + ReplyIds(NewReplies(tweetId, seen, rs))
  {
    NewRepliesFromCover(tweetId, seen, rs, 0);
    forall x | x in rs
      ensures x.id == tweetId || x.id in seen + ReplyIds(NewReplies(tweetId, seen, rs))
    {
      var k :| 0 <= k < |rs| && rs[k] == x;
    }
  }

  lemma {:induction false} NothingNewFrom(tweetId: string, seen: set<string>, rs: seq<Reply>, i: nat)
    requires i <= |rs|
    requires forall k :: i <= k < |rs| ==> rs[k].id == tweetId || rs[k].id in seen
    ensures NewRepliesFrom(tweetId, seen, rs, i) == []
    decreases |rs| - i
  {
    if i < |rs| {
      NothingNewFrom(tweetId, seen, rs, i + 1);
    }
  }

  lemma NothingNewWhenAllSeen(tweetId: string, seen: set<string>, rs: seq<Reply>)
    requires forall x :: x in rs ==> x.id == tweetId || x.id in seen
    ensures NewReplies(tweetId, seen, rs) == []
  {
    assert forall k :: 0 <= k < |rs| ==> rs[k] in rs;
    NothingNewFrom(tweetId, seen, rs, 0);
  }

  /** A second call on the same search results returns nothing. */
  lemma RepeatFindsNothing(tweetId: string, seen: set<string>, rs: seq<Reply>)
    ensures NewReplies(tweetId, seen + ReplyIds(NewReplies(tweetId, seen, rs)), rs) == []
  {
    NewRepliesCover(tweetId, seen, rs);
    NothingNewWhenAllSeen(tweetId, seen + ReplyIds(NewReplies(tweetId, seen, rs)), rs);
  }

  // ---------------------------------------------------------------------------
  // The scraper object

  class TweetScraper {
    var initialized: bool
    var processedReplies: set<string>

    constructor ()
      ensures !initialized && processedReplies == {}
    {
      initialized := false;
      processedReplies := {};
    }

    /** Logs in only when not yet initialized; the flag is set only once the
        login succeeded, and a failed login is raised. */
    method Initialize(loginSucceeds: bool) returns (loginAttempted: bool, ok: bool)
      modifies this`initialized
      ensures loginAttempted == !old(initialized)
      ensures ok == (!loginAttempted || loginSucceeds)
      ensures initialized == (old(initialized) || loginSucceeds)
    {
      loginAttempted := !initialized;
      ok := true;
      if !initialized {
        if loginSucceeds {
          initialized := true;
        } else {
          ok := false;
        }
      }
    }

    /** Logs out only when initialized; the flag is cleared only once the
        logout succeeded, and a failed logout is raised. */
    method Close(logoutSucceeds: bool) returns (logoutAttempted: bool, ok: bool)
      modifies this`initialized
      ensures logoutAttempted == old(initialized)
      ensures ok == (!logoutAttempted || logoutSucceeds)
      ensures initialized == (old(initialized) && !logoutSucceeds)
    {
      logoutAttempted := initialized;
      ok := true;
      if initialized {
        if logoutSucceeds {
          initialized := false;
        } else {
          ok := false;
        }
      }
    }

    /** `get_trending_tweets`: one search per query, `searches[i]` being the
        answer to the i-th query. */
    method GetTrendingTweets(queries: Option<seq<string>>, limit: int, loginSucceeds: bool,
                             searches: seq<Search>)
      returns (r: Result<seq<TweetRecord>, ScrapeError>)
      requires |searches| == |SearchQueries(queries)|
      modifies this`initialized
      ensures initialized == (old(initialized) || loginSucceeds)
      ensures !old(initialized) && !loginSucceeds ==> r == Err(LoginFailed)
      ensures (old(initialized) || loginSucceeds) && Raised in searches ==> r == Err(SearchFailed)
      ensures (old(initialized) || loginSucceeds) && Raised !in searches ==>
                r == Ok(Trending(SearchQueries(queries), FoundTweets(searches), limit))
    {
      if !initialized {
        var _, ok := Initialize(loginSucceeds);
        if !ok {
          return Err(LoginFailed);
        }
      }
      var all := CollectTweets(SearchQueries(queries), searches);
      if all.None? {
        return Err(SearchFailed);
      }
      r := Ok(PrefixUpTo(SortByFollowers(Dedup(all.value)), limit));
    }

    /** `search_replies_for_tweet`: `search` is the reply search's answer
        (`None` for an exception, which yields no replies). */
    method SearchRepliesForTweet(tweetId: string, search: Option<seq<Reply>>)
      returns (out: seq<ReplyRecord>)
      modifies this`processedReplies
      ensures search.None? ==> out == [] && processedReplies == old(processedReplies)
      ensures search.Some? ==> out == NewReplies(tweetId, old(processedReplies), search.value)
      ensures processedReplies == old(processedReplies) + ReplyIds(out)
    {
      out := [];
      if search.None? {
        return;
      }
      var replies := search.value;
      var i := 0;
      while i < |replies|
        invariant 0 <= i <= |replies|
        invariant processedReplies == old(processedReplies) + ReplyIds(out)
        invariant out + NewRepliesFrom(tweetId, processedReplies, replies, i)
               == NewReplies(tweetId, old(processedReplies), replies)
      {
        var reply := replies[i];
        if reply.id == tweetId || reply.id in processedReplies {
        } else {
          var rec := ReplyRecord(reply.id, reply.text, reply.authorScreenName);
          assert ReplyIds(out + [rec]) == ReplyIds(out) + {reply.id} by {
            assert forall x :: x in out + [rec] <==> x in out || x == rec;
          }
          out := out + [rec];
          processedReplies := processedReplies + {reply.id};
        }
        i := i + 1;
      }
    }
  }

  /** The loop that builds `all_tweets`: `searches[i]` answers query `qs[i]`;
      `Raised` stands for a search that raised. */
  method CollectTweets(qs: seq<string>, searches: seq<Search>)
    returns (all: Option<seq<TweetRecord>>)
    requires |searches| == |qs|
    ensures all.None? <==> Raised in searches
    ensures all.Some? ==> Raised !in searches && all.value == Collected(qs, FoundTweets(searches))
  {
    var allTweets: seq<TweetRecord> := [];
    var i := 0;
    while i < |qs|
      invariant 0 <= i <= |qs|
      invariant forall k :: 0 <= k < i ==> searches[k].Found?
      invariant allTweets == CollectedUpTo(qs, searches, i)
    {
      if searches[i].Raised? {
        assert searches[i] in searches;
        return None;
      }
      var tweets := searches[i].tweets;
      ghost var before := allTweets;
      var j := 0;
      while j < |tweets|
        invariant 0 <= j <= |tweets|
        invariant allTweets == before + QueryRecordsTo(qs[i], tweets, j)
      {
        var t := tweets[j];
        if !t.isRetweet {
          allTweets := allTweets + [ToRecord(t, qs[i])];
        }
        j := j + 1;
      }
      i := i + 1;
    }
    assert Raised !in searches;
    CollectedUpToAll(qs, searches, FoundTweets(searches), |qs|);
    return Some(allTweets);
  }

  /** `CollectedTo` while only the first `i` searches are known to have answered. */
  function CollectedUpTo(qs: seq<string>, searches: seq<Search>, i: nat): seq<TweetRecord>
    requires i <= |qs| == |searches|
    requires forall k :: 0 <= k < i ==> searches[k].Found?
  {
    if i == 0 then [] else CollectedUpTo(qs, searches, i - 1) + QueryRecords(qs[i - 1], searches[i - 1].tweets)
  }

  lemma {:induction false} CollectedUpToAll(qs: seq<string>, searches: seq<Search>,
                                            tss: seq<seq<Tweet>>, i: nat)
    requires i <= |qs| == |searches| == |tss|
    requires forall k :: 0 <= k < |searches| ==> searches[k].Found? && tss[k] == searches[k].tweets
    ensures CollectedUpTo(qs, searches, i) == CollectedTo(qs, tss, i)
  {
    if i > 0 {
      CollectedUpToAll(qs, searches, tss, i - 1);
    }
  }

  /** The hit lists of answered searches. */
  function FoundTweets(searches: seq<Search>): (tss: seq<seq<Tweet>>)
    requires Raised !in searches
    ensures |tss| == |searches|
    ensures forall k :: 0 <= k < |searches| ==> tss[k] == searches[k].tweets
  {
    seq(|searches|, k requires 0 <= k < |searches| && searches[k] in searches => searches[k].tweets)
  }
}
