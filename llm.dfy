/** Content shaping in the generation service (src/services/llm.py): grouping
    the coins by category, the assistant-only history shown in the prompt,
    the 275-character cut of a generated post, and the validation of a
    structured selection with its random fallback. The completion call is a
    collaborator: its text and its decoded JSON are inputs. */
module Llm {
  import opened Wrappers
  import opened Text
  import Scraper

  /** The ceiling applied to a generated post. */
  const TweetCeiling: nat := 275

  /** The response paired with a random candidate when the selection is unusable. */
  const FallbackResponse: string :=
    "Interesting perspective on GameFi! \U{1F3AE} The gaming ecosystem keeps evolving. #GameFi #P2E"

  // ---------------------------------------------------------------------------
  // Grouping coins by category

  /** A market item as the generator reads it (number formatting is not modelled). */
  datatype Coin = Coin(name: string, category: string, currentPrice: real,
                       priceChange24h: real, volume24h: real, marketCapRank: int)

  /** The entry written for a coin under its category. */
  datatype CoinView = CoinView(name: string, price: real, change24h: real,
                               volume: real, marketCapRank: int)

  datatype Group = Group(category: string, coins: seq<CoinView>)

  function View(c: Coin): CoinView {
    CoinView(c.name, c.currentPrice, c.priceChange24h, c.volume24h, c.marketCapRank)
  }

  /** Reference definition: the categories of `coins`, each once, in the order
      they first appear (the key order of a Python dict). */
  function FirstSeen(coins: seq<Coin>): seq<string>
  {
    if coins == [] then []
    else
      var p := FirstSeen(coins[..|coins| - 1]);
      var c := coins[|coins| - 1].category;
      if c in p then p else p + [c]
  }

  /** Reference definition: the views of the coins of category `c`, in input order. */
  function CategoryViews(coins: seq<Coin>, c: string): seq<CoinView>
  {
    if coins == [] then []
    else
      var last := coins[|coins| - 1];
      CategoryViews(coins[..|coins| - 1], c) + (if last.category == c then [View(last)] else [])
  }

  function Grouped(coins: seq<Coin>): seq<Group>
  {
    var cats := FirstSeen(coins);
    seq(|cats|, k requires 0 <= k < |cats| => Group(cats[k], CategoryViews(coins, cats[k])))
  }

  /** A category has a group exactly when some coin carries it, and no
      category is listed twice. */
  lemma {:induction false} FirstSeenFacts(coins: seq<Coin>)
    ensures forall i, j :: 0 <= i < j < |FirstSeen(coins)| ==> FirstSeen(coins)[i] != FirstSeen(coins)[j]
    ensures forall c :: c in FirstSeen(coins) <==> exists i :: 0 <= i < |coins| && coins[i].category == c
  {
    if coins != [] {
      var n := |coins| - 1;
      FirstSeenFacts(coins[..n]);
      forall c ensures c in FirstSeen(coins) <==> exists i :: 0 <= i < |coins| && coins[i].category == c {
        if c in FirstSeen(coins[..n]) {
          var i :| 0 <= i < n && coins[..n][i].category == c;
          assert coins[i].category == c;
        }
        if exists i :: 0 <= i < |coins| && coins[i].category == c {
          var i :| 0 <= i < |coins| && coins[i].category == c;
          if i < n { assert coins[..n][i].category == c; }
        }
      }
    }
  }

  lemma {:induction false} CategoryViewsAbsent(coins: seq<Coin>, c: string)
    requires c !in FirstSeen(coins)
    ensures CategoryViews(coins, c) == []
  {
    if coins != [] {
      CategoryViewsAbsent(coins[..|coins| - 1], c);
    }
  }

  /** The number of views listed under categories `cats`. */
  function ViewCount(coins: seq<Coin>, cats: seq<string>): nat
  {
    if cats == [] then 0 else |CategoryViews(coins, cats[0])| + ViewCount(coins, cats[1..])
  }

  lemma {:induction false} ViewCountSnocCoin(coins: seq<Coin>, x: Coin, cats: seq<string>)
    requires forall i, j :: 0 <= i < j < |cats| ==> cats[i] != cats[j]
    ensures ViewCount(coins + [x], cats) == ViewCount(coins, cats) + (if x.category in cats then 1 else 0)
  {
    if cats != [] {
      assert (coins + [x])[..|coins|] == coins;
      ViewCountSnocCoin(coins, x, cats[1..]);
      assert x.category in cats <==> x.category == cats[0] || x.category in cats[1..];
    }
  }

  lemma {:induction false} ViewCountSnocCat(coins: seq<Coin>, cats: seq<string>, c: string)
    ensures ViewCount(coins, cats + [c]) == ViewCount(coins, cats) + |CategoryViews(coins, c)|
  {
    if cats != [] {
      assert (cats + [c])[1..] == cats[1..] + [c];
      ViewCountSnocCat(coins, cats[1..], c);
    }
  }

  /** Each coin is listed exactly once over all groups: the group sizes add up
      to the number of coins, and a coin is listed only under its own category. */
  lemma {:induction false} EveryCoinOnce(coins: seq<Coin>)
    ensures ViewCount(coins, FirstSeen(coins)) == |coins|
  {
    if coins != [] {
      var n := |coins| - 1;
      var prev, x := coins[..n], coins[n];
      assert coins == prev + [x];
      EveryCoinOnce(prev);
      FirstSeenFacts(prev);
      var p := FirstSeen(prev);
      ViewCountSnocCoin(prev, x, p);
      if x.category !in p {
        ViewCountSnocCat(coins, p, x.category);
        CategoryViewsAbsent(prev, x.category);
      }
    }
  }

  /** The `coins_by_category` loop. The dict lookup is `IndexOfCategory`; a
      list already in the dict is extended in place. */
  method GroupByCategory(coins: seq<Coin>) returns (groups: seq<Group>)
    ensures groups == Grouped(coins)
  {
    groups := [];
    var i := 0;
    while i < |coins|
      invariant 0 <= i <= |coins|
      invariant groups == Grouped(coins[..i])
    {
      var coin := coins[i];
      assert coins[..i + 1] == coins[..i] + [coin];
      GroupedSnoc(coins[..i], coin);
      var k := IndexOfCategory(groups, coin.category);
      if k == |groups| {
        groups := groups + [Group(coin.category, [View(coin)])];
      } else {
        groups := groups[k := Group(coin.category, groups[k].coins + [View(coin)])];
      }
      i := i + 1;
    }
    assert coins[..i] == coins;
  }

  /** One more coin either opens a group at the end or extends its own
      category's group, leaving the others alone. */
  lemma GroupedSnoc(prefix: seq<Coin>, x: Coin)
    ensures var g := Grouped(prefix);
      var k := IndexOfCategory(g, x.category);
      Grouped(prefix + [x])
        == if k == |g| then g + [Group(x.category, [View(x)])]
           else g[k := Group(x.category, g[k].coins + [View(x)])]
  {
    var coins := prefix + [x];
    var c := x.category;
    assert coins[..|coins| - 1] == prefix;
    var g := Grouped(prefix);
    var p := FirstSeen(prefix);
    FirstSeenFacts(prefix);
    var k := IndexOfCategory(g, c);
    assert forall d :: CategoryViews(coins, d) == CategoryViews(prefix, d) + (if d == c then [View(x)] else []);
    if k == |g| {
      assert forall j :: 0 <= j < |p| ==> p[j] == g[j].category;
      assert c !in p;
      CategoryViewsAbsent(prefix, c);
      assert FirstSeen(coins) == p + [c];
      var want := g + [Group(c, [View(x)])];
      var got := Grouped(coins);
      assert |got| == |want|;
      forall j | 0 <= j < |got| ensures got[j] == want[j] {
        if j < |p| {
          assert p[j] != c;
          assert CategoryViews(coins, p[j]) == CategoryViews(prefix, p[j]) + [];
        }
      }
    } else {
      assert p[k] == c;
      assert forall j :: 0 <= j < |p| && j != k ==> p[j] != c;
      assert FirstSeen(coins) == p;
      var want := g[k := Group(c, g[k].coins + [View(x)])];
      var got := Grouped(coins);
      assert |got| == |want|;
      forall j | 0 <= j < |got| ensures got[j] == want[j] {
        if j != k {
          assert p[j] != c;
          assert CategoryViews(coins, p[j]) == CategoryViews(prefix, p[j]) + [];
        }
      }
    }
  }

  /** Position of the group for category `c`, or `|groups|` when there is none. */
  function IndexOfCategory(groups: seq<Group>, c: string): (k: nat)
    ensures k <= |groups|
    ensures k < |groups| ==> groups[k].category == c
    ensures forall j :: 0 <= j < k ==> groups[j].category != c
  {
    if groups == [] then 0
    else if groups[0].category == c then 0
    else 1 + IndexOfCategory(groups[1..], c)
  }

  // ---------------------------------------------------------------------------
  // The rolling history and the "recent tweets" section of the prompt

  datatype Role = System | User | Assistant
  datatype ChatMessage = ChatMessage(role: Role, content: string)

  /** The lines `- <content>` of the assistant messages, in history order. */
  function AssistantLines(history: seq<ChatMessage>): seq<string>
  {
    if history == [] then []
    else
      var m := history[|history| - 1];
      AssistantLines(history[..|history| - 1]) + (if m.role == Assistant then ["- " + m.content] else [])
  }

  function RecentTweets(history: seq<ChatMessage>): string
  {
    Join(AssistantLines(history), "\n")
  }

  lemma {:induction false} AssistantLinesAppend(a: seq<ChatMessage>, b: seq<ChatMessage>)
    ensures AssistantLines(a + b) == AssistantLines(a) + AssistantLines(b)
  {
    if b != [] {
      var n := |b| - 1;
      assert (a + b)[..|a + b| - 1] == a + b[..n];
      AssistantLinesAppend(a, b[..n]);
    } else {
      assert a + b == a;
    }
  }

  /** A non-assistant message anywhere in the history leaves the section unchanged. */
  lemma OthersIgnored(before: seq<ChatMessage>, m: ChatMessage, after: seq<ChatMessage>)
    requires m.role != Assistant
    ensures RecentTweets(before + [m] + after) == RecentTweets(before + after)
  {
    assert AssistantLines([m]) == [] by { assert [m][..0] == []; }
    AssistantLinesAppend(before, [m]);
    assert AssistantLines(before + [m]) == AssistantLines(before);
    AssistantLinesAppend(before + [m], after);
    AssistantLinesAppend(before, after);
  }

  /** Storing a generated post adds exactly its line at the end of the section. */
  lemma RecentAfterPut(history: seq<ChatMessage>, tweet: string)
    ensures AssistantLines(history + [ChatMessage(Assistant, tweet)])
         == AssistantLines(history) + ["- " + tweet]
    ensures RecentTweets(history + [ChatMessage(Assistant, tweet)])
         == if AssistantLines(history) == [] then "- " + tweet
            else RecentTweets(history) + "\n" + "- " + tweet
  {
    var lines := AssistantLines(history);
    assert (history + [ChatMessage(Assistant, tweet)])[..|history|] == history;
    if lines != [] {
      JoinSnoc(lines, "- " + tweet, "\n");
    }
  }

  // ---------------------------------------------------------------------------
  // generate_tweet

  /** The figures of one category summary (number formatting is not modelled). */
  datatype CategorySummary = CategorySummary(marketCap: real, totalVolume: real,
                                             marketCapChange24h: real, topCoins: seq<string>)

  /** What goes into the prompt besides the fixed instructions. */
  datatype PromptContext = PromptContext(trendingCoins: seq<Group>,
                                         marketOverview: Option<map<string, CategorySummary>>,
                                         recentTweets: string)

  datatype GenerationError = SummaryMissing | CompletionFailed

  /** The market overview: `market_summary.items()` raises on `None`, and an
      empty summary gives `None` in the prompt. */
  function MarketOverview(summary: Option<map<string, CategorySummary>>)
    : (r: Result<Option<map<string, CategorySummary>>, GenerationError>)
    ensures summary.None? ==> r == Err(SummaryMissing)
    ensures summary.Some? ==> r.Ok? && (r.value.None? <==> summary.value == map[])
    ensures summary.Some? && r.value.Some? ==> r.value.value == summary.value
  {
    match summary
    case None => Err(SummaryMissing)
    case Some(m) => Ok(if m == map[] then None else Some(m))
  }

  /** The post returned for a completion: stripped, then cut to 275 characters. */
  function ShapeTweet(completion: string): (tweet: string)
    ensures |tweet| <= TweetCeiling
    ensures |Strip(completion)| <= TweetCeiling ==> tweet == Strip(completion)
    ensures |Strip(completion)| > TweetCeiling ==>
              tweet == Strip(completion)[..TweetCeiling - 3] + "..."
  {
    Truncate(Strip(completion), TweetCeiling)
  }

  /** Cutting a post that is already cut changes nothing. */
  lemma ShapeTweetIdempotent(completion: string)
    ensures Truncate(ShapeTweet(completion), TweetCeiling) == ShapeTweet(completion)
  {
    TruncateIdempotent(Strip(completion), TweetCeiling);
  }

  class LlmService {
    /** The chat memory; only assistant messages are ever stored. */
    var memory: seq<ChatMessage>

    constructor ()
      ensures memory == []
    {
      memory := [];
    }

    /** `generate_tweet`: `completion` is the text the completion call
        returned, or `None` when the call raised. */
    method GenerateTweet(coins: seq<Coin>, summary: Option<map<string, CategorySummary>>,
                         completion: Option<string>)
      returns (prompt: Option<PromptContext>, r: Result<string, GenerationError>)
      modifies this
      ensures summary.None? ==> prompt.None? && r == Err(SummaryMissing)
      ensures summary.Some? ==>
                prompt == Some(PromptContext(Grouped(coins), MarketOverview(summary).value,
                                             RecentTweets(old(memory))))
      ensures summary.Some? && completion.None? ==> r == Err(CompletionFailed)
      ensures summary.Some? && completion.Some? ==> r == Ok(ShapeTweet(completion.value))
      ensures r.Ok? ==> memory == old(memory) + [ChatMessage(Assistant, r.value)]
      ensures r.Err? ==> memory == old(memory)
    {
      var groups := GroupByCategory(coins);
      var overview := MarketOverview(summary);
      if overview.Err? {
        return None, Err(overview.error);
      }
      prompt := Some(PromptContext(groups, overview.value, RecentTweets(memory)));
      if completion.None? {
        return prompt, Err(CompletionFailed);
      }
      var tweet := Strip(completion.value);
      if |tweet| > TweetCeiling {
        tweet := tweet[..TweetCeiling - 3] + "...";
      }
      memory := memory + [ChatMessage(Assistant, tweet)];
      r := Ok(tweet);
    }
  }

  // ---------------------------------------------------------------------------
  // generate_social_response

  /** A decoded JSON value (`json.loads`). */
  datatype Json =
    | JNull
    | JBool(b: bool)
    | JInt(i: int)
    | JFloat(f: real)
    | JString(s: string)
    | JArray(items: seq<Json>)
    | JObject(fields: map<string, Json>)

  /** What the completion call gave: an exception, text that is not JSON, or
      the decoded value of the stripped text. */
  datatype Completion = CallRaised | NotJson | Decoded(value: Json)

  datatype Selection = Selection(tweet: Scraper.TweetRecord, response: string)

  /** `NoContext`: the candidate list was empty, so the prompt refers to an
      unbound name. `Unexpected`: an error outside the three handled kinds,
      re-raised. */
  datatype SocialError = NoContext | Unexpected

  /** Python list indexing: `-n <= i < n`, negative indices from the end. */
  function PyIndex(n: nat, i: int): (k: nat)
    requires -(n as int) <= i < n
    ensures k < n
    ensures i >= 0 ==> k == i
    ensures i < 0 ==> k + (-i) == n
  {
    if i < 0 then n + i else i
  }

  /** A JSON value Python accepts as a list index: an integer, or a boolean
      (`False` is 0 and `True` is 1). */
  predicate IsIndex(v: Json) { v.JInt? || v.JBool? }

  function IndexValue(v: Json): int
    requires IsIndex(v)
  {
    if v.JInt? then v.i else if v.b then 1 else 0
  }

  function Fallback(candidates: seq<Scraper.TweetRecord>, pick: nat): (r: Selection)
    requires candidates != []
    ensures r.tweet in candidates && r.response == FallbackResponse
  {
    Selection(candidates[pick % |candidates|], FallbackResponse)
  }

  /** `generate_social_response`. `pick` stands for the choice `random.choice`
      makes: the candidate at `pick % n`. */
  function SocialResponse(candidates: seq<Scraper.TweetRecord>, completion: Completion, pick: nat)
    : (r: Result<Selection, SocialError>)
    ensures candidates == [] ==> r == Err(NoContext)
    ensures r.Ok? ==> r.value.tweet in candidates
    ensures completion.CallRaised? ==> r.Err?
  {
    if candidates == [] then Err(NoContext)
    else
      match completion
      case CallRaised => Err(Unexpected)
      case NotJson => Ok(Fallback(candidates, pick))
      case Decoded(v) =>
        if !v.JObject? then Err(Unexpected)
        else if "selected_index" !in v.fields then Ok(Fallback(candidates, pick))
        else
          var index := v.fields["selected_index"];
          if !IsIndex(index) then Err(Unexpected)
          else
            var i := IndexValue(index);
            var n := |candidates|;
            if !(-(n as int) <= i < n) then Ok(Fallback(candidates, pick))
            else if "response" !in v.fields then Ok(Fallback(candidates, pick))
            else
              var text := v.fields["response"];
              if !text.JString? then Err(Unexpected)
              else Ok(Selection(candidates[PyIndex(n, i)], Strip(text.s)))
  }

  /** A well-formed selection is honoured: the indexed candidate (negative
      indices from the end) with the stripped response. */
  lemma ValidSelection(candidates: seq<Scraper.TweetRecord>, i: int, text: string,
                       fields: map<string, Json>, pick: nat)
    requires -|candidates| <= i < |candidates|
    requires "selected_index" in fields && fields["selected_index"] == JInt(i)
    requires "response" in fields && fields["response"] == JString(text)
    ensures SocialResponse(candidates, Decoded(JObject(fields)), pick)
         == Ok(Selection(candidates[if i < 0 then |candidates| + i else i], Strip(text)))
  {
  }

  /** The three handled failures: text that is not JSON, a missing key, an
      index out of range. */
  predicate Malformed(completion: Completion, n: nat) {
    || completion.NotJson?
    || (completion.Decoded? && completion.value.JObject? &&
        var f := completion.value.fields;
        || "selected_index" !in f
        || (IsIndex(f["selected_index"]) && !(-(n as int) <= IndexValue(f["selected_index"]) < n))
        || (IsIndex(f["selected_index"]) && "response" !in f))
  }

  /** A malformed answer never raises when there are candidates: some
      candidate is paired with the fixed fallback text. */
  lemma MalformedFallsBack(candidates: seq<Scraper.TweetRecord>, completion: Completion, pick: nat)
    requires candidates != [] && Malformed(completion, |candidates|)
    ensures var r := SocialResponse(candidates, completion, pick);
      r.Ok? && r.value.tweet in candidates && r.value.response == FallbackResponse
  {
  }
}
