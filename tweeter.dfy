/** Publishing one post (src/services/tweeter.py): the 280-character cut, the
    optional media upload, and the reading of the created post's id. The two
    platform calls are collaborators whose outcomes are inputs; every failure
    ends in "no id" and nothing is raised. */
module Tweeter {
  import opened Wrappers
  import opened Text

  /** The platform's hard limit on a post. */
  const PostCeiling: nat := 280

  /** The create call as issued: the text sent and the media ids attached. */
  datatype CreateCall = CreateCall(text: string, mediaIds: Option<seq<int>>)

  /** The outcome of the create call: it raised, or it answered with the
      response's `data` (absent, or a dictionary of fields). */
  datatype CreateOutcome = CreateRaised | Created(data: Option<map<string, string>>)

  /** The media path is used when it is a non-empty string naming an existing file. */
  predicate WantsMedia(mediaPath: Option<string>, fileExists: bool) {
    mediaPath.Some? && mediaPath.value != "" && fileExists
  }

  /** The id read from a created post: `data['id']` when `data` is a
      non-empty dictionary holding it; an empty or absent `data` gives none,
      and a missing key raises a KeyError that is caught. */
  function CreatedId(outcome: CreateOutcome): (id: Option<string>)
    ensures id.Some? <==> outcome.Created? && outcome.data.Some? && "id" in outcome.data.value
    ensures id.Some? ==> id.value == outcome.data.value["id"]
  {
    match outcome
    case CreateRaised => None
    case Created(data) =>
      if data.None? || data.value == map[] then None
      else if "id" in data.value then Some(data.value["id"])
      else None
  }

  /** `TweetPoster.post_tweet`. `upload` is the media id the upload returned,
      or `None` when it raised; `create` is what the create call gave.
      `call` is the create call issued, `None` when the upload failed first. */
  method PostTweet(text: string, mediaPath: Option<string>, fileExists: bool,
                   upload: Option<int>, create: CreateOutcome)
    returns (call: Option<CreateCall>, id: Option<string>)
    ensures call.None? <==> WantsMedia(mediaPath, fileExists) && upload.None?
    ensures call.Some? ==> call.value.text == Truncate(text, PostCeiling)
    ensures call.Some? ==> |call.value.text| <= PostCeiling
    ensures call.Some? && WantsMedia(mediaPath, fileExists) ==>
              call.value.mediaIds == Some([upload.value])
    ensures call.Some? && !WantsMedia(mediaPath, fileExists) ==> call.value.mediaIds.None?
    ensures call.None? ==> id.None?
    ensures call.Some? ==> id == CreatedId(create)
  {
    var body := text;
    if |body| > PostCeiling {
      body := body[..PostCeiling - 3] + "...";
    }
    var mediaIds: seq<int> := [];
    if mediaPath.Some? && mediaPath.value != "" && fileExists {
      if upload.None? {
        return None, None;
      }
      mediaIds := mediaIds + [upload.value];
      assert mediaIds == [upload.value];
    }
    call := Some(CreateCall(body, if mediaIds == [] then None else Some(mediaIds)));
    match create {
      case CreateRaised =>
        id := None;
      case Created(data) =>
        if data.Some? && data.value != map[] {
          if "id" in data.value {
            id := Some(data.value["id"]);
          } else {
            id := None;
          }
        } else {
          id := None;
        }
    }
  }

  /** The text sent is settled by the first cut: cutting it again changes nothing. */
  lemma SentTextIsFinal(text: string)
    ensures Truncate(Truncate(text, PostCeiling), PostCeiling) == Truncate(text, PostCeiling)
  {
    TruncateIdempotent(text, PostCeiling);
  }
}
