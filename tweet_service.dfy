/** One scheduled run (src/services/tweet_service.py): fetch the trending
    coins, fetch the market summary, generate the post, and publish it unless
    in test mode. The collaborators' outcomes are inputs; every failure on the
    way, the service's own included, reaches the caller as an HTTP 500. */
module TweetService {
  import opened Wrappers

  /** What a collaborator call did: returned a value, or raised an error
      whose rendering is `message`. */
  datatype Outcome<T> = Returned(value: T) | Raised(message: string)

  /** The collaborator calls, in the order the service makes them. */
  datatype Call = FetchCoins | FetchSummary | Generate | Post(text: string)

  /** The success envelopes: a published post, or a test-mode draft. */
  datatype Envelope =
    | Published(message: string, tweetId: string)
    | Drafted(message: string, content: string)

  datatype Response = Success(envelope: Envelope) | Failure(status: nat, detail: string)

  /** The calls made, in order, and what the caller receives. */
  datatype Run = Run(calls: seq<Call>, response: Response)

  /** The status every failure reaches the caller with. */
  const ServerError: nat := 500

  /** The two errors the service raises itself, as the catch-all renders them:
      status code, colon, space, detail. */
  const NoCoinsDetail: string := "404: No trending gaming coins found"
  const PostFailedDetail: string := "500: Failed to post tweet"

  const PostedMessage: string := "Tweet posted successfully"
  const TestMessage: string := "Test tweet generated"

  /** A post id the service accepts: present and non-empty. */
  predicate Truthy(id: Option<string>) {
    id.Some? && id.value != ""
  }

  /** `TweetService.generate_and_post_tweet`. */
  function GenerateAndPostTweet<C, S>(testMode: bool, coins: Outcome<seq<C>>,
                                      summary: Outcome<S>, generated: Outcome<string>,
                                      posted: Outcome<Option<string>>): (run: Run)
    ensures |run.calls| >= 1 && run.calls[0] == FetchCoins
    ensures run.response.Failure? ==> run.response.status == ServerError
    ensures coins == Returned([]) ==> run == Run([FetchCoins], Failure(ServerError, NoCoinsDetail))
    ensures testMode ==> forall k :: 0 <= k < |run.calls| ==> !run.calls[k].Post?
    ensures testMode && run.response.Success? ==>
              generated.Returned? && run.response.envelope == Drafted(TestMessage, generated.value)
    ensures !testMode && run.response.Success? ==>
              && posted.Returned? && Truthy(posted.value)
              && run.response.envelope == Published(PostedMessage, posted.value.value)
  {
    match coins
    case Raised(m) => Run([FetchCoins], Failure(ServerError, m))
    case Returned(cs) =>
      if cs == [] then Run([FetchCoins], Failure(ServerError, NoCoinsDetail))
      else
        match summary
        case Raised(m) => Run([FetchCoins, FetchSummary], Failure(ServerError, m))
        case Returned(_) =>
          match generated
          case Raised(m) => Run([FetchCoins, FetchSummary, Generate], Failure(ServerError, m))
          case Returned(content) =>
            if testMode then
              Run([FetchCoins, FetchSummary, Generate], Success(Drafted(TestMessage, content)))
            else
              var calls := [FetchCoins, FetchSummary, Generate, Post(content)];
              match posted
              case Raised(m) => Run(calls, Failure(ServerError, m))
              case Returned(id) =>
                if Truthy(id) then Run(calls, Success(Published(PostedMessage, id.value)))
                else Run(calls, Failure(ServerError, PostFailedDetail))
  }

  /** Every call the service could make, in order, for a generated content. */
  function AllCalls(content: string): seq<Call> {
    [FetchCoins, FetchSummary, Generate, Post(content)]
  }

  /** Whether every collaborator returned what lets the run go on. */
  predicate AllReturned<C, S>(testMode: bool, coins: Outcome<seq<C>>, summary: Outcome<S>,
                              generated: Outcome<string>, posted: Outcome<Option<string>>) {
    && coins.Returned? && coins.value != []
    && summary.Returned? && generated.Returned?
    && (!testMode ==> posted.Returned? && Truthy(posted.value))
  }

  /** The calls are made in order and stop at the first failure: they are a
      prefix of the full sequence, and a call after the first is made only
      when the one before it returned (with coins, for the first). */
  lemma CallsInOrder<C, S>(testMode: bool, coins: Outcome<seq<C>>, summary: Outcome<S>,
                           generated: Outcome<string>, posted: Outcome<Option<string>>)
    ensures var run := GenerateAndPostTweet(testMode, coins, summary, generated, posted);
      && |run.calls| <= 4
      && (|run.calls| >= 2 ==> coins.Returned? && coins.value != [] && run.calls[1] == FetchSummary)
      && (|run.calls| >= 3 ==> summary.Returned? && run.calls[2] == Generate)
      && (|run.calls| == 4 ==> !testMode && generated.Returned?
                               && run.calls[3] == Post(generated.value))
  {
  }

  /** The run succeeds exactly when every collaborator it needs returned
      usably, and then it made every call the mode asks for. */
  lemma SuccessExactly<C, S>(testMode: bool, coins: Outcome<seq<C>>, summary: Outcome<S>,
                             generated: Outcome<string>, posted: Outcome<Option<string>>)
    ensures var run := GenerateAndPostTweet(testMode, coins, summary, generated, posted);
      && (run.response.Success? <==> AllReturned(testMode, coins, summary, generated, posted))
      && (run.response.Success? ==>
            run.calls == if testMode then AllCalls(generated.value)[..3]
                         else AllCalls(generated.value))
  {
    var run := GenerateAndPostTweet(testMode, coins, summary, generated, posted);
    if run.response.Success? && testMode {
      assert AllCalls(generated.value)[..3] == [FetchCoins, FetchSummary, Generate];
    }
  }

  /** A raised error reaches the caller with its own rendering as the detail. */
  lemma RaisedDetailKept<C, S>(testMode: bool, coins: Outcome<seq<C>>, summary: Outcome<S>,
                               generated: Outcome<string>, posted: Outcome<Option<string>>)
    ensures var run := GenerateAndPostTweet(testMode, coins, summary, generated, posted);
      && (coins.Raised? ==> run.response == Failure(ServerError, coins.message))
      && (coins.Returned? && coins.value != [] && summary.Raised? ==>
            run.response == Failure(ServerError, summary.message))
      && (coins.Returned? && coins.value != [] && summary.Returned? && generated.Raised? ==>
            run.response == Failure(ServerError, generated.message))
      && (!testMode && coins.Returned? && coins.value != [] && summary.Returned?
          && generated.Returned? && posted.Raised? ==>
            run.response == Failure(ServerError, posted.message))
  {
  }

  /** A post that came back without an id fails with the service's own
      detail, after the post call was made. */
  lemma FalsyIdFails<C, S>(coins: Outcome<seq<C>>, summary: Outcome<S>,
                           generated: Outcome<string>, id: Option<string>)
    requires coins.Returned? && coins.value != [] && summary.Returned? && generated.Returned?
    requires !Truthy(id)
    ensures GenerateAndPostTweet(false, coins, summary, generated, Returned(id))
            == Run(AllCalls(generated.value), Failure(ServerError, PostFailedDetail))
  {
  }
}
