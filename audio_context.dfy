/**
 * The client's audio context: `generateMusic` validates its arguments,
 * posts them, checks that the reply carries a URL and a balance, shows the
 * URL, copies the server's balance into the signed-in user, derives a
 * track from the prompt, and always ends with `isGenerating` false.
 *
 * This context destructures `setUser` and `setCurrentGeneratedTrack` from
 * the user context, which exports neither; `setters` says whether they are
 * there. Without them a signed-in user makes the `setUser` call throw,
 * and the track step is skipped.
 */
module AudioContext {
  import opened Wrappers
  import opened JsText
  import opened UserContext
  import opened TrackTitles

  /** A toast notification. */
  datatype Toast = SuccessToast(text: string) | ErrorToast(text: string)

  /** What `axios.post` is called with. */
  datatype GenerateRequest = GenerateRequest(prompt: string, duration: int)

  /**
   * What the post gives: a 2xx reply whose body decoded as a JSON object
   * (with the three fields read, `None` when undefined), a 2xx reply whose
   * body is not an object (raw bytes), or a rejection, carrying the error
   * body's `message` when there is one.
   */
  datatype ServerResponse =
    | JsonBody(url: Option<string>, credits: Option<int>, message: Option<string>)
    | RawBytes(bytes: seq<bv8>)
    | HttpError(errorMessage: Option<string>)

  const FailureText := "Failed to generate audio"

  /** The checked fields of a reply the handler accepts, `None` when it throws "Invalid response from server.". */
  function Accepted(response: ServerResponse): (r: Option<(string, int)>)
    ensures r.Some? <==> response.JsonBody? && Truthy(response.url) && response.credits.Some?
    ensures r.Some? ==> r.value == (response.url.value, response.credits.value)
  {
    match response
    case JsonBody(url, credits, _) =>
      if !Truthy(url) || credits.None? then None else Some((url.value, credits.value))
    case _ => None
  }

  /** The error toast's text: the error body's message when it is truthy, else the fixed text. */
  function ErrorText(response: ServerResponse): (t: string)
    ensures response.HttpError? && Truthy(response.errorMessage) ==> t == response.errorMessage.value
    ensures !(response.HttpError? && Truthy(response.errorMessage)) ==> t == FailureText
  {
    if response.HttpError? && Truthy(response.errorMessage) then response.errorMessage.value else FailureText
  }

  class AudioProvider {
    var generatedAudioURL: Option<string>
    var isGenerating: bool
    /** The track the user context would hold as the current one. */
    var currentGeneratedTrack: Option<ClientTrack>

    constructor ()
      ensures generatedAudioURL.None? && !isGenerating && currentGeneratedTrack.None?
    {
      generatedAudioURL := None;
      isGenerating := false;
      currentGeneratedTrack := None;
    }

    /**
     * `generateMusic(prompt, duration)`. `response` is what the post gives,
     * `setters` whether the user context supplies the two setters,
     * `mirrorOk` whether encrypting the updated user into local storage
     * succeeds, and `trackId`, `now` the clock-derived id and timestamp.
     */
    method GenerateMusic(users: UserProvider, prompt: string, duration: int, response: ServerResponse,
                         setters: bool, mirrorOk: bool, trackId: string, now: string)
      returns (request: Option<GenerateRequest>, toasts: seq<Toast>)
      modifies this, users`user
      // bad arguments: an error toast and nothing else
      ensures prompt == "" || duration == 0 ==>
        && request.None? && toasts == [ErrorToast("Prompt and duration are required")]
        && isGenerating == old(isGenerating) && generatedAudioURL == old(generatedAudioURL)
        && currentGeneratedTrack == old(currentGeneratedTrack) && users.user == old(users.user)
      ensures prompt != "" && duration != 0 ==> request == Some(GenerateRequest(prompt, duration)) && !isGenerating
      // a reply without a URL or a balance is a failure: the URL and the user stay as they were
      ensures request.Some? && Accepted(response).None? ==>
        && toasts == [ErrorToast(ErrorText(response))]
        && generatedAudioURL == old(generatedAudioURL) && users.user == old(users.user)
        && currentGeneratedTrack == old(currentGeneratedTrack)
      // an accepted reply: the URL is shown and the balance is the server's, not a local deduction
      ensures request.Some? && Accepted(response).Some? ==>
        var (url, credits) := Accepted(response).value;
        && generatedAudioURL == Some(url)
        && |toasts| >= 1 && toasts[0] == SuccessToast(if Truthy(response.message) then response.message.value else "Music generated succesfully")
        && (old(users.user).None? ==> users.user == old(users.user))
        && (old(users.user).Some? && setters ==> users.user == Some(old(users.user).value.(credits := credits)))
        && (old(users.user).Some? && !setters ==> users.user == old(users.user))
        && (setters && (old(users.user).None? || mirrorOk) ==>
              && currentGeneratedTrack == Some(ClientTrack(trackId, TrackTitle(prompt), url, duration, now))
              && |toasts| == 1)
        && (!setters && old(users.user).None? ==> currentGeneratedTrack == old(currentGeneratedTrack) && |toasts| == 1)
        && (old(users.user).Some? && (!setters || !mirrorOk) ==>
              currentGeneratedTrack == old(currentGeneratedTrack) && toasts == [toasts[0], ErrorToast(FailureText)])
    {
      if prompt == "" || duration == 0 {
        return None, [ErrorToast("Prompt and duration are required")];
      }
      isGenerating := true;
      request := Some(GenerateRequest(prompt, duration));
      var accepted := Accepted(response);
      if accepted.None? {
        toasts := [ErrorToast(ErrorText(response))];
      } else {
        var (url, credits) := accepted.value;
        generatedAudioURL := Some(url);
        toasts := [SuccessToast(if Truthy(response.message) then response.message.value else "Music generated succesfully")];
        var failed := false;
        if users.user.Some? {
          if !setters {
            // `setUser` is undefined: the call throws a TypeError, which has no response body
            failed := true;
          } else {
            users.user := Some(users.user.value.(credits := credits));
            failed := !mirrorOk;
          }
        }
        if failed {
          toasts := toasts + [ErrorToast(FailureText)];
        } else if setters {
          currentGeneratedTrack := Some(ClientTrack(trackId, TrackTitle(prompt), url, duration, now));
        }
      }
      isGenerating := false;
    }
  }
}
