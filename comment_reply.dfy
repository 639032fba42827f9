/** The per-conversation reply throttle (src/services/comment_reply.py): every
    handled reply raises its conversation's count, and once that count reaches
    the threshold the team is alerted instead of a reply being generated. The
    counter map is a field updated in place; the platform and the completion
    model are collaborators whose outcomes are inputs. */
module CommentReply {
  import opened Wrappers
  import opened Text

  /** A conversation that has seen this many handled replies is alerted. */
  const MaxReplies: nat := 3

  /** A reply found under one of the bot's posts. */
  datatype Reply = Reply(id: string, conversationId: string, text: string)

  /** The collaborator calls one `handle_reply` makes, in order. */
  datatype ReplyCall =
    | AlertTeam(conversationId: string)
    | FetchOriginal(tweetId: string)
    | Complete
    | CreateReply(text: string, inReplyTo: string)

  /** `conversation_counts.get(c, 0)`. */
  function CountOf(counts: map<string, nat>, c: string): nat {
    if c in counts then counts[c] else 0
  }

  /** The count update of one handled reply in conversation `c`. */
  function Bump(counts: map<string, nat>, c: string): (r: map<string, nat>)
    ensures CountOf(r, c) == CountOf(counts, c) + 1
    ensures forall d :: d != c ==> CountOf(r, d) == CountOf(counts, d)
    ensures r.Keys == counts.Keys + {c}
  {
    counts[c := CountOf(counts, c) + 1]
  }

  /** Whether a reply in `c`, handled with counts `counts`, raises the alert:
      the count after the increment has reached the threshold. */
  predicate Alerts(counts: map<string, nat>, c: string) {
    CountOf(counts, c) + 1 >= MaxReplies
  }

  /** How many of the replies in `c` would get past the threshold when
      replies in the conversations `convs` are handled in order. */
  function RepliesAttempted(counts: map<string, nat>, convs: seq<string>, c: string): nat
    decreases |convs|
  {
    if convs == [] then 0
    else
      (if convs[0] == c && !Alerts(counts, c) then 1 else 0)
      + RepliesAttempted(Bump(counts, convs[0]), convs[1..], c)
  }

  /** The counts after handling replies in the conversations `convs` in order. */
  function CountsAfter(counts: map<string, nat>, convs: seq<string>): map<string, nat>
    decreases |convs|
  {
    if convs == [] then counts else CountsAfter(Bump(counts, convs[0]), convs[1..])
  }

  /** How often `c` occurs in `convs`. */
  function Occurrences(convs: seq<string>, c: string): nat
    decreases |convs|
  {
    if convs == [] then 0 else (if convs[0] == c then 1 else 0) + Occurrences(convs[1..], c)
  }

  /** No more than the threshold minus one replies are ever attempted in one
      conversation, fewer for a conversation already counted. */
  lemma {:induction false} RepliesBounded(counts: map<string, nat>, convs: seq<string>, c: string)
    ensures CountOf(counts, c) + 1 < MaxReplies ==>
              RepliesAttempted(counts, convs, c) <= MaxReplies - 1 - CountOf(counts, c)
    ensures CountOf(counts, c) + 1 >= MaxReplies ==> RepliesAttempted(counts, convs, c) == 0
    decreases |convs|
  {
    if convs != [] {
      RepliesBounded(Bump(counts, convs[0]), convs[1..], c);
    }
  }

  /** A conversation that has not been counted yet gets at most two replies. */
  lemma AtMostTwoReplies(convs: seq<string>, c: string)
    ensures RepliesAttempted(map[], convs, c) <= 2
  {
    RepliesBounded(map[], convs, c);
  }

  /** The bound is reached: a fresh conversation whose replies keep coming
      gets exactly two replies before the alerts start. */
  lemma {:induction false} TwoRepliesThenAlerts(counts: map<string, nat>, convs: seq<string>, c: string)
    requires CountOf(counts, c) == 0
    requires |convs| >= 2 && forall k :: 0 <= k < |convs| ==> convs[k] == c
    ensures RepliesAttempted(counts, convs, c) == 2
  {
    var once := Bump(counts, c);
    var twice := Bump(once, c);
    assert convs[1..][0] == c;
    assert convs[1..][1..] == convs[2..];
    RepliesBounded(twice, convs[2..], c);
    assert RepliesAttempted(twice, convs[2..], c) == 0;
    assert RepliesAttempted(once, convs[1..], c) == 1 + RepliesAttempted(twice, convs[2..], c);
  }

  /** Each handled reply counts once, whatever happened after the increment. */
  lemma {:induction false} CountsAfterCount(counts: map<string, nat>, convs: seq<string>, c: string)
    ensures CountOf(CountsAfter(counts, convs), c) == CountOf(counts, c) + Occurrences(convs, c)
    decreases |convs|
  {
    if convs != [] {
      CountsAfterCount(Bump(counts, convs[0]), convs[1..], c);
    }
  }

  const ConversationPrefix: string := "conversation_id:"
  const FromMarker: string := " -from:"

  /** The search query for the replies to `tweetId` not written by `botId`. */
  function ConversationQuery(tweetId: string, botId: string): string {
    ConversationPrefix + tweetId + FromMarker + botId
  }

  /** Reads a query back into the tweet id (up to the first space) and the bot id. */
  function ParseQuery(q: string): (r: Option<(string, string)>)
    ensures r.Some? ==> ' ' !in r.value.0
  {
    var p := |ConversationPrefix|;
    var n := |FromMarker|;
    if |q| < p || q[..p] != ConversationPrefix then None
    else
      var k := NextSep(q, ' ', p);
      if k + n <= |q| && q[k..k + n] == FromMarker then
        assert forall j :: 0 <= j < k - p ==> q[p..k][j] == q[p + j];
        Some((q[p..k], q[k + n..]))
      else None
  }

  /** A query names its tweet and bot back, for tweet ids without spaces. */
  lemma QueryRoundTrip(tweetId: string, botId: string)
    requires ' ' !in tweetId
    ensures ParseQuery(ConversationQuery(tweetId, botId)) == Some((tweetId, botId))
  {
    var q := ConversationQuery(tweetId, botId);
    var p, n := |ConversationPrefix|, |FromMarker|;
    var e := p + |tweetId|;
    assert q[..p] == ConversationPrefix;
    assert q[p..e] == tweetId;
    assert q[e..e + n] == FromMarker;
    assert q[e + n..] == botId;
    var k := NextSep(q, ' ', p);
    assert forall j :: p <= j < e ==> q[j] == tweetId[j - p];
    assert q[e] == ' ';
    assert k == e;
  }

  /** Every query that reads back is the query of what it reads back to. */
  lemma ParseQueryInverse(q: string)
    requires ParseQuery(q).Some?
    ensures ConversationQuery(ParseQuery(q).value.0, ParseQuery(q).value.1) == q
  {
    var p, n := |ConversationPrefix|, |FromMarker|;
    var k := NextSep(q, ' ', p);
    assert q == q[..p] + q[p..k] + q[k..k + n] + q[k + n..];
  }

  class CommentReplyService {
    var conversationCounts: map<string, nat>

    constructor ()
      ensures conversationCounts == map[]
    {
      conversationCounts := map[];
    }

    /** `handle_reply`. The count is raised first; at the threshold the team
        is alerted and nothing else happens. Otherwise the original post is
        fetched (`original`, `None` when that raised), a reply is generated
        (`completion`, `None` when that raised) and posted, stripped, in reply
        to the comment. Every failure is logged and swallowed. */
    method HandleReply(reply: Reply, originalTweetId: string,
                       original: Option<string>, completion: Option<string>)
      returns (calls: seq<ReplyCall>)
      modifies this
      ensures conversationCounts == Bump(old(conversationCounts), reply.conversationId)
      ensures Alerts(old(conversationCounts), reply.conversationId) <==>
                calls == [AlertTeam(reply.conversationId)]
      ensures !Alerts(old(conversationCounts), reply.conversationId) ==>
                && |calls| >= 1 && calls[0] == FetchOriginal(originalTweetId)
                && (original.None? ==> calls == [FetchOriginal(originalTweetId)])
                && (original.Some? && completion.None? ==>
                      calls == [FetchOriginal(originalTweetId), Complete])
                && (original.Some? && completion.Some? ==>
                      calls == [FetchOriginal(originalTweetId), Complete,
                                CreateReply(Strip(completion.value), reply.id)])
    {
      var c := reply.conversationId;
      conversationCounts := conversationCounts[c := CountOf(conversationCounts, c) + 1];
      if conversationCounts[c] >= MaxReplies {
        calls := [AlertTeam(c)];
        return;
      }
      calls := [FetchOriginal(originalTweetId)];
      if original.None? {
        return;
      }
      calls := calls + [Complete];
      if completion.None? {
        return;
      }
      var replyText := Strip(completion.value);
      calls := calls + [CreateReply(replyText, reply.id)];
    }

    /** `check_tweet_replies`: the search issued and how many replies it
        found; a failed search (`None`) is logged and finds nothing. The
        found replies are not handled and no count changes. */
    method CheckTweetReplies(tweetId: string, botId: string, search: Option<seq<Reply>>)
      returns (query: string, found: nat)
      ensures query == ConversationQuery(tweetId, botId)
      ensures ' ' !in tweetId ==> ParseQuery(query) == Some((tweetId, botId))
      ensures |query| >= |ConversationPrefix| && query[..|ConversationPrefix|] == ConversationPrefix
      ensures found == if search.Some? then |search.value| else 0
    {
      query := ConversationQuery(tweetId, botId);
      if ' ' !in tweetId {
        QueryRoundTrip(tweetId, botId);
      }
      found := 0;
      if search.Some? && search.value != [] {
        found := |search.value|;
      }
    }
  }
}
