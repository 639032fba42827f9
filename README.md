# ai-coin-oracle services, modelled in Dafny

ai-coin-oracle is a bot that does four things:

- it reads gaming-coin market data from CoinGecko;
- it has an OpenAI model write posts about that data;
- it publishes the posts on Twitter on a daily schedule;
- it watches other people's posts and replies to them.

This project models the rules inside its service layer (`src/services/`). The network clients, the language model and the clock are collaborators. Their answers are inputs to the model.

- `wrappers.dfy` (`Wrappers`): `Option` and `Result`.
- `text.dfy` (`Text`): the Python string rules the services rely on.
  - `str.strip()`, `str.split(c)`, `int(s)` and `str(n)`.
  - `str.upper()` on ASCII.
  - The "cut to N characters, last three become `...`" rule shared by posts and drafts.
- `scraper.dfy` (`Scraper`, src/services/tweet_scraper.py):
  - trending candidates: retweets are filtered out, ids are de-duplicated, the records are stable-sorted by follower count and cut to `limit`;
  - the processed-replies filter, kept as a field set;
  - the login flag.
- `llm.dfy` (`Llm`, src/services/llm.py):
  - grouping coins by category;
  - the assistant-only history shown in the prompt;
  - the 275-character cut of a generated post, and the memory update;
  - validating a structured selection, with a random fallback.
- `tweeter.dfy` (`Tweeter`, src/services/tweeter.py): the 280-character cut, the media ids attached, and reading the created post's id.
- `coin.dfy` (`Coin`, src/services/coin.py):
  - the rate limiter: at least 1.5 s between the previous answer and the next request;
  - retrying on HTTP 429 after Retry-After (60 s by default);
  - the error paths;
  - the two endpoint wrappers.
  - Time is in integer milliseconds.
- `scheduler.dfy` (`Scheduler`, src/services/scheduler.py):
  - parsing `"HH:MM"` into a daily cron trigger;
  - job ids taken from the raw string;
  - `start` registering every configured time, and `stop`.
- `comment_reply.dfy` (`CommentReply`, src/services/comment_reply.py): the per-conversation counter map and its alert threshold, and the reply-search query.
- `tweet_service.dfy` (`TweetService`, src/services/tweet_service.py): one generate-and-post run:
  - the early exits for no coins, test mode and post failure;
  - the catch-all that turns every failure into HTTP 500.

The files are modelled as the code is written:

- **Values:** records become datatypes, and comprehensions become functions.
- **State the source mutates in place becomes class fields:**
  - `processed_replies` and `_initialized`;
  - `last_request_time`;
  - the chat memory;
  - the scheduler's job table and running flag;
  - `conversation_counts`.
- **Loops:** the source's loops are methods with loop invariants, each proved against a reference function:
  - `all_tweets.append`;
  - `reply_data.append`;
  - `coins_by_category`;
  - the retry recursion of `_make_request`;
  - the registration loop of `start`.

Behaviour worth noting:

- `generate_tweet` strips the completion before cutting it.
- `get_gaming_coins_summary` reads the total volume from the upstream key `volume_24h`.
- No timezone conversion is done anywhere: the `LOCAL_TIMEZONE`/`TARGET_TIMEZONE` settings are never read.

## Model

| member | source | states |
|---|---|---|
| Text.Strip | src/services/llm.py:111 | the result is no longer than the input and has no whitespace at either end |
| Text.StripInfix | src/services/llm.py:111 | what `strip` keeps is a contiguous infix of the input, and everything before it and after it is whitespace |
| Text.StripUnchanged | src/services/comment_reply.py:110 | a string with no whitespace at either end is its own strip |
| Text.StripIdempotent | src/services/llm.py:172 | stripping twice equals stripping once |
| Text.Truncate | src/services/tweeter.py:44-45 | the result fits the ceiling; it is the input when the input fits, otherwise the first ceiling−3 characters followed by `...` |
| Text.TruncateIdempotent | src/services/llm.py:113-114 | cutting an already-cut string changes nothing |
| Text.SplitFacts | src/services/scheduler.py:24 | no piece of `s.split(c)` holds `c`, and joining the pieces with `c` gives `s` back |
| Text.SplitJoin | src/services/scheduler.py:24 | splitting a join of separator-free pieces (at least one) gives exactly those pieces |
| Text.Split | src/services/scheduler.py:24 | `s.split(c)` on one separator character gives at least one piece; SplitFacts and SplitJoin state what the pieces are |
| Text.Join | src/services/llm.py:80-84 | `sep.join(parts)`; JoinSnoc, SplitJoin and Llm.AssistantLinesAppend state what it joins |
| Text.Digits | src/services/scheduler.py:24 | a value is read exactly when the string is a non-empty run of decimal digits |
| Text.ParseInt | src/services/scheduler.py:24 | `int(s)`: space and `\t` to `\r` around one optional sign and at least one digit; ParseIntDigits, ParseIntNegative, ParseIntRoundTrip and ParseIntKeepsFileSeparator state its values |
| Text.ParseIntKeepsFileSeparator | src/services/scheduler.py:24 | `\x1c` is whitespace to `strip()` but makes `int()` fail |
| Text.ParseIntDigits | src/services/scheduler.py:24 | `int()` of a run of digits is its decimal value |
| Text.ParseIntNegative | src/services/scheduler.py:24 | `int()` of `-` followed by digits is the negated value |
| Text.ParseIntRoundTrip | src/services/coin.py:47 | `int(str(n)) == n` for every integer |
| Text.DigitsRoundTrip | src/services/coin.py:47 | the digits written for a natural number read back as that number |
| Text.Upper | src/services/coin.py:82 | same length; no lower-case ASCII letter is left; other characters are kept; lower-case letters move to their capitals |
| Text.UpperIdempotent | src/services/coin.py:82 | upper-casing twice equals upper-casing once |
| Scraper.SearchQueries | src/services/tweet_scraper.py:62 | the given queries when non-empty, the five defaults when absent or empty |
| Scraper.ToRecord | src/services/tweet_scraper.py:73-82 | `is_verified` holds exactly when `verified` or `is_blue_verified` holds |
| Scraper.Collected | src/services/tweet_scraper.py:66-83 | the records of the searching loop, query by query; CollectTweets and CollectedProvenance state it |
| Scraper.CollectTweets | src/services/tweet_scraper.py:65-83 | the searching loop fails exactly when some search raised; otherwise it collects, in query order, the non-retweet records of every query |
| Scraper.CollectedProvenance | src/services/tweet_scraper.py:66-83 | every collected record is the record of a non-retweet hit of some query, tagged with that query |
| Scraper.DedupIds | src/services/tweet_scraper.py:86 | the de-duplicated records have pairwise distinct ids and the same ids as the input, and each is the last record collected for its id |
| Scraper.DedupFirstSeenOrder | src/services/tweet_scraper.py:86 | de-duplicated records are in the order in which their ids first appeared |
| Scraper.Dedup | src/services/tweet_scraper.py:86 | the id-keyed dict comprehension; DedupIds and DedupFirstSeenOrder state its ids, winners and order |
| Scraper.SortFacts | src/services/tweet_scraper.py:87-91 | the sort is a permutation, orders follower counts non-increasingly, and keeps the input order among equal counts |
| Scraper.SortKeepsDistinct | src/services/tweet_scraper.py:87-91 | sorting keeps ids pairwise distinct |
| Scraper.SortKeepsTies | src/services/tweet_scraper.py:87-91 | on an input in first-seen id order, equal follower counts stay in first-seen order after sorting |
| Scraper.SortByFollowers | src/services/tweet_scraper.py:87-91 | the stable sort by follower count, highest first; SortFacts, SortKeepsDistinct, SortKeepsTies and SortedStable state it |
| Scraper.PrefixUpTo | src/services/tweet_scraper.py:93 | `s[:limit]` is a prefix of `s`, of length `min(limit, len)` for a non-negative `limit` and `max(len + limit, 0)` for a negative one |
| Scraper.TrendingShape | src/services/tweet_scraper.py:85-93 | at most `limit` records, pairwise distinct ids, follower counts non-increasing |
| Scraper.TrendingProvenance | src/services/tweet_scraper.py:66-93 | every returned record comes from a non-retweet hit of some query and is the last one collected for its id |
| Scraper.TrendingTies | src/services/tweet_scraper.py:86-91 | returned records with equal follower counts are in the order in which their ids were first collected |
| Scraper.SortedStable | src/services/tweet_scraper.py:87-91 | the records with a given follower count appear in de-duplicated order after the sort |
| Scraper.Trending | src/services/tweet_scraper.py:85-93 | de-duplicate, sort, then cut to `limit`; TrendingShape, TrendingProvenance and TrendingTies state it |
| Scraper.NewRepliesFresh | src/services/tweet_scraper.py:143-154 | no kept reply is the tweet itself or an already processed id, and the kept ids are pairwise distinct |
| Scraper.NewRepliesCover | src/services/tweet_scraper.py:143-154 | after the filter, every hit is the tweet itself, an id processed before, or a kept reply |
| Scraper.NothingNewWhenAllSeen | src/services/tweet_scraper.py:146-147 | when every hit is the tweet itself or already processed, nothing is kept |
| Scraper.RepeatFindsNothing | src/services/tweet_scraper.py:143-156 | a second call on the same search results returns nothing |
| Scraper.NewReplies | src/services/tweet_scraper.py:143-154 | the kept replies of one search; NewRepliesFresh, NewRepliesCover, NothingNewWhenAllSeen and RepeatFindsNothing state it |
| Scraper.TweetScraper.constructor | src/services/tweet_scraper.py:17-27 | starts uninitialized with no processed replies |
| Scraper.TweetScraper.Initialize | src/services/tweet_scraper.py:29-42 | logs in only when not initialized; the flag is set only after a successful login, and a failed login is an error |
| Scraper.TweetScraper.Close | src/services/tweet_scraper.py:162-171 | logs out only when initialized; the flag is cleared only after a successful logout, and a failed logout is an error |
| Scraper.TweetScraper.GetTrendingTweets | src/services/tweet_scraper.py:44-97 | initializes on demand; a failed login or a raising search is an error; otherwise the result is the trending list of the answered searches |
| Scraper.TweetScraper.SearchRepliesForTweet | src/services/tweet_scraper.py:132-160 | returns the new replies of the search (none when it raised), and the processed set grows by exactly the returned ids |
| Llm.GroupByCategory | src/services/llm.py:32-44 | the loop builds exactly the reference grouping: one group per category, in first-seen order, each holding its own coins' entries in input order |
| Llm.FirstSeenFacts | src/services/llm.py:32-36 | categories are listed once each, and a category is listed exactly when some coin carries it |
| Llm.EveryCoinOnce | src/services/llm.py:32-44 | the group sizes add up to the number of coins, so every coin appears exactly once, under its own category |
| Llm.GroupedSnoc | src/services/llm.py:35-37 | one more coin either opens a group at the end for a new category or extends its category's group, leaving the other groups alone |
| Llm.IndexOfCategory | src/services/llm.py:35 | the position of the group for a category, or the number of groups when there is none |
| Llm.Grouped | src/services/llm.py:32-44 | the grouping the loop builds; FirstSeenFacts, EveryCoinOnce and GroupedSnoc state it, and GroupByCategory ties the loop to it |
| Llm.AssistantLinesAppend | src/services/llm.py:80-84 | the history lines of a concatenation are the lines of each part, in order |
| Llm.OthersIgnored | src/services/llm.py:83 | a non-assistant message anywhere in the history does not change the recent-posts section |
| Llm.RecentAfterPut | src/services/llm.py:80-84 | storing a post (as at line 116) adds exactly its `- ` line at the end of the section |
| Llm.RecentTweets | src/services/llm.py:80-84 | the assistant lines of the history joined by newlines; AssistantLinesAppend, OthersIgnored and RecentAfterPut state it |
| Llm.MarketOverview | src/services/llm.py:46-58 | a missing summary is an error; an empty one gives no overview; any other is used as is |
| Llm.ShapeTweet | src/services/llm.py:111-114 | at most 275 characters; the stripped completion when it fits, otherwise its first 272 characters followed by `...` |
| Llm.ShapeTweetIdempotent | src/services/llm.py:113-114 | cutting a shaped post again changes nothing |
| Llm.LlmService.constructor | src/services/llm.py:21 | the memory starts empty |
| Llm.LlmService.GenerateTweet | src/services/llm.py:23-118 | builds the prompt from the grouping, the overview and the old history; the result is the shaped completion, which and only which is appended to memory; failures leave memory unchanged |
| Llm.PyIndex | src/services/llm.py:168 | Python list indexing: a valid index, the index itself when non-negative, counted from the end when negative |
| Llm.Fallback | src/services/llm.py:178-182 | some candidate paired with the fixed fallback response |
| Llm.SocialResponse | src/services/llm.py:120-185 | no candidates is an error; any selection is one of the candidates; a raising completion call is re-raised |
| Llm.ValidSelection | src/services/llm.py:164-173 | a valid index and a string response select that candidate (negative indices from the end) with the stripped response |
| Llm.MalformedFallsBack | src/services/llm.py:175-182 | unparsable text, a missing key or an out-of-range index falls back: some candidate with the fixed response, nothing raised |
| Tweeter.CreatedId | src/services/tweeter.py:59 | an id exactly when the response has a non-empty `data` holding `id`, and then that id |
| Tweeter.PostTweet | src/services/tweeter.py:32-63 | the text is cut to 280; one media id is attached exactly when a media path names an existing file; a failed upload posts nothing; the result is the created id or none |
| Tweeter.SentTextIsFinal | src/services/tweeter.py:44-45 | the cut is idempotent |
| Coin.Wait | src/services/coin.py:22-25 | never negative; the request leaves no earlier than the interval after the last answer; it is zero once the interval has passed |
| Coin.RetryDelay | src/services/coin.py:47 | 60 s without a header; otherwise the header's integer in seconds, and an error exactly when the header is not an integer |
| Coin.Sleep | src/services/coin.py:25-49 | a sleep lasts at least what was asked |
| Coin.StepOf | src/services/coin.py:22-57 | one pass of `_make_request`: when it sends, whether it retries, what `last_request_time` becomes, and the outcome of each status class |
| Coin.Exchange | src/services/coin.py:18-57 | the retry recursion over the supplied answers; ExchangeSpacing, ExchangeRetries, ExchangeOutcome and ExchangeLast state it, and MakeRequest's loop is proved equal to it |
| Coin.ExchangeSpacing | src/services/coin.py:22-50 | no request leaves before the call or within the interval after the last answer, and consecutive requests are at least the interval apart |
| Coin.ExchangeRetries | src/services/coin.py:46-50 | only a 429 whose delay could be read leads to another request, which waits at least the answer's latency plus the delay |
| Coin.ExchangeOutcome | src/services/coin.py:43-57 | the outcome is decided by the last answer: success with its body below 400, the status for other errors, a transport error; it runs out only when every answer was a 429 |
| Coin.ExchangeLast | src/services/coin.py:44 | `last_request_time` only moves forward, and it stays put exactly when the first request got no answer |
| Coin.FormatCoins | src/services/coin.py:78-92 | one formatted coin per row, same order |
| Coin.FormatCoin | src/services/coin.py:79-90 | one upstream row as a trending coin; FormatCoinFields states it field by field |
| Coin.FormatCoinFields | src/services/coin.py:80-89 | every field is copied; two are renamed; the symbol is the row's symbol upper-cased, and has no lower-case letter left |
| Coin.FieldOr0 | src/services/coin.py:109-112 | the upstream value when the key is present (null included), 0 when absent |
| Coin.SummaryFields | src/services/coin.py:108-113 | each summary figure is its upstream value or 0, and the total volume comes from `volume_24h` |
| Coin.Summarize | src/services/coin.py:108-113 | the four summary figures; SummaryFields states each one |
| Coin.CoinService.constructor | src/services/coin.py:11-15 | no answer seen yet (time 0), with the configured key |
| Coin.KeyHeader | src/services/coin.py:34-35 | the demo-key header is sent exactly when the key is non-empty, holding the key |
| Coin.CoinService.RequestOnce | src/services/coin.py:22-57 | one pass follows the reference step, and `last_request_time` becomes the arrival time of the answer |
| Coin.CoinService.MakeRequest | src/services/coin.py:18-57 | the retry loop follows the reference exchange: same outcome, same final `last_request_time`, one request per attempt with the same endpoint, parameters and key header |
| Coin.CoinService.GetTrendingGamingCoins | src/services/coin.py:59-98 | the markets request with `per_page` equal to `limit`; the formatted rows on success, the request's error otherwise |
| Coin.CoinService.GetGamingCoinsSummary | src/services/coin.py:100-117 | the category request; the summary with zero defaults on success, the request's error otherwise |
| Scheduler.ParseTime | src/services/scheduler.py:24 | a failure is the error for that very string |
| Scheduler.ParseTimeShape | src/services/scheduler.py:24 | a time parses exactly when it splits on `:` into two integer strings, and then it is those two around its only `:` |
| Scheduler.ParseClock | src/services/scheduler.py:24 | two integer strings around one `:` parse to that hour and minute |
| Scheduler.ParseFormattedTime | src/services/scheduler.py:24 | `str(h) + ":" + str(m)` parses back to `h` and `m` |
| Scheduler.ParseDigitsClock | src/services/scheduler.py:24 | two runs of digits around a `:` parse to their values |
| Scheduler.JobId | src/services/scheduler.py:31 | the first six characters are `tweet_` and the rest is the raw string |
| Scheduler.SpellingMatters | src/services/scheduler.py:24-31 | a leading zero on the minute gives the same trigger but a different job id (as with "10:00" versus "10:0") |
| Scheduler.DefaultTimeParses | src/services/scheduler.py:15-19 | the defaults parse to 10:00, 15:00 and 20:00 |
| Scheduler.JobsFor | src/services/scheduler.py:43-44 | registration adds at most one job per configured time |
| Scheduler.JobsForAt | src/services/scheduler.py:26-44 | the k-th job registered is the daily job of the k-th time, named after it and running `generate_and_post_tweet` |
| Scheduler.JobsForStop | src/services/scheduler.py:43-51 | registration stops early only at a time that does not parse |
| Scheduler.FirstBadTime | src/services/scheduler.py:35-51 | the error that ends `start` is the parse error of the first time that does not parse; there is none exactly when all times were registered |
| Scheduler.FirstBadTimeNone | src/services/scheduler.py:43-46 | there is no error exactly when every configured time parses |
| Scheduler.DefaultIdsDistinct | src/services/scheduler.py:15-31 | the three defaults give three distinct job ids |
| Scheduler.DefaultRegistration | src/services/scheduler.py:15-46 | the defaults register three daily jobs at 10:00, 15:00 and 20:00, in order, without error |
| Scheduler.TweetScheduler.constructor | src/services/scheduler.py:10-19 | no jobs, not running, the default times |
| Scheduler.TweetScheduler.ScheduleTweet | src/services/scheduler.py:21-37 | a parse failure is raised and adds nothing; otherwise exactly one daily job, named after the string, is appended |
| Scheduler.TweetScheduler.Start | src/services/scheduler.py:39-51 | the jobs of the configured times are appended in order up to the first bad one; that time's error is raised; otherwise the scheduler starts, or refuses when already running |
| Scheduler.TweetScheduler.Stop | src/services/scheduler.py:53-60 | a running scheduler is shut down; otherwise the error is raised |
| CommentReply.Bump | src/services/comment_reply.py:82 | the conversation's count rises by exactly one from its old value (0 when absent); every other count stays the same |
| CommentReply.Alerts | src/services/comment_reply.py:85 | the call alerts when the conversation's raised count reaches the threshold; RepliesBounded, AtMostTwoReplies and TwoRepliesThenAlerts state what that allows |
| CommentReply.RepliesBounded | src/services/comment_reply.py:82-87 | over any sequence of handled replies, a conversation is replied to at most threshold−1−count times, and never once its next reply would alert |
| CommentReply.AtMostTwoReplies | src/services/comment_reply.py:85-87 | with the threshold of 3 set at line 26, a fresh conversation gets at most two replies |
| CommentReply.TwoRepliesThenAlerts | src/services/comment_reply.py:85-87 | with the threshold of 3 set at line 26, a fresh conversation whose replies keep coming gets exactly two replies |
| CommentReply.CountsAfterCount | src/services/comment_reply.py:82 | after any sequence of handled replies, each conversation's count is its old count plus the number of its replies handled |
| CommentReply.ParseQuery | src/services/comment_reply.py:57 | the tweet id read back from a query holds no space |
| CommentReply.ConversationQuery | src/services/comment_reply.py:57 | `conversation_id:` + tweet id + ` -from:` + bot id; QueryRoundTrip and ParseQueryInverse show it determines both ids |
| CommentReply.QueryRoundTrip | src/services/comment_reply.py:57 | the query reads back to its tweet id and bot id, for tweet ids without spaces |
| CommentReply.ParseQueryInverse | src/services/comment_reply.py:57 | any query that reads back is exactly the query of what it reads back to |
| CommentReply.CommentReplyService.constructor | src/services/comment_reply.py:25 | no conversation counted |
| CommentReply.CommentReplyService.HandleReply | src/services/comment_reply.py:77-121 | the count rises first; at the threshold only the alert is made; otherwise the original is fetched, a reply generated and posted, stripped, in reply to the comment, each step only if the previous did not raise |
| CommentReply.CommentReplyService.CheckTweetReplies | src/services/comment_reply.py:53-75 | the search query is the conversation query of the two ids, and reads back to them for a tweet id without spaces; the number of replies found, 0 when the search raised |
| TweetService.GenerateAndPostTweet | src/services/tweet_service.py:14-49 | the coin fetch is always first; every failure is a 500; no coins stops after the coin fetch; test mode never posts and drafts the generated content; success names the posted id |
| TweetService.CallsInOrder | src/services/tweet_service.py:18-36 | the calls are a prefix of fetch coins, fetch summary, generate, post, and each later call happens only after the one before it returned |
| TweetService.SuccessExactly | src/services/tweet_service.py:14-49 | a run succeeds exactly when every collaborator it needs returned usable values; on success it made the calls its mode asks for |
| TweetService.RaisedDetailKept | src/services/tweet_service.py:47-49 | an error raised by the coin fetch, the summary fetch, the generation or the post reaches the caller as a 500 with its own message as the detail |
| TweetService.FalsyIdFails | src/services/tweet_service.py:36-45 | a missing or empty post id fails with `500: Failed to post tweet` after the post call |

## Left out

**Network, SDKs, time and randomness**

- Network and SDK calls (aiohttp, tweepy, twikit, the OpenAI completion, DALL-E) are left out. Their answers are inputs.
- Logging is left out: it has no effect on the state.
- `random.choice` is the input `pick`.
- The clock is left out; `now` and each answer's latency are inputs.
- asyncio is left out. The services are modelled one call at a time, with no interleaving of concurrent callers.
- Time is integer milliseconds:
  - `min_request_interval` of 1.5 s is 1500.
  - A Retry-After header is read as whole seconds times 1000.
  - Float wall-clock time is not modelled.

**Parts of the repository outside the service rules**

- `check_new_replies` and `check_and_reply_to_comments` are API loops with swallowed errors, and are not modelled. Only the reply filter, the counter and the query are.
- src/services/image_generator.py is not part of this model.
- main.py is not part of this model: it is the application's routing and the composition of the services.
- src/config/settings.py is not part of this model: it is environment loading.
- The prompt texts are not modelled: style lists, hook patterns and instructions are only strings handed to the model.
- `response_type`'s `max_length` is not modelled, because it only appears inside the prompt.

**Library internals**

- The eviction of `ChatMemoryBuffer` by its token limit is left out: the memory is an unbounded sequence.
- Float formatting of prices, volumes and percentages is left out.
- APScheduler internals are left out:
  - the range checks on hour and minute;
  - conflicts between duplicate job ids;
  - the pending-versus-running job store.
  - A job is a value appended to the table.
  - `AlreadyRunning` and `NotRunning` stand for the errors `start` and `shutdown` raise.
- Text is modelled narrower than Python:
  - Text.ParseInt: does not accept `_` digit separators and reads only ASCII decimal digits, where Python's `int()` accepts both. Around the digits it skips space and `\t` to `\r`, as `int()` does on an ASCII string; Python's handling of non-ASCII whitespace there is not modelled.
  - Text.Strip counts only ASCII whitespace as whitespace.
  - Text.Upper changes only ASCII letters.
  - Each of these is narrower than Python on non-ASCII input.

**Records and cross-file shapes**

- Typed records stand for dictionaries. The KeyError a missing field raises in `get_trending_gaming_coins` and in the `coins_by_category` loop is not modelled: a record always has its fields.
- The files do not agree on shapes, so each file is verified against its own contract and their composition is not modelled:
  - `llm.py` reads `coin['category']` and a per-category summary map;
  - `coin.py` produces coin records without a category and a flat summary.
- `comment_reply.py` calls `acomplete` on the service it is given (line 109). `LLMService` defines no `acomplete`, so as the services are wired that step raises AttributeError, which `handle_reply` swallows. The model treats that call as a collaborator whose text, or failure, is an input; the failure case covers the wiring as it stands.
- `check_tweet_replies` never calls `handle_reply`: the loop that would is commented out. So CheckTweetReplies only reports the count it found.
- `LLMService._format_tweet_url`, `generate_retweet` and `generate_comment` are not modelled. The first is a one-line URL format; the other two only call `generate_social_response` with a fixed `response_type`.

**Weakened contracts**

- Coin.CoinService.MakeRequest: the source retries without end while the answers are 429s. The model consumes one supplied answer per request and reports `StillRateLimited` when the answers run out, so a call that never finishes is not represented.
- Scheduler.ParseTime: its own contract states only that a failure names the string. Which strings parse is stated by Scheduler.ParseTimeShape.
