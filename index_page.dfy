/**
 * The home page's handlers: the generate button's gates (prompt, sign-in,
 * balance) and the up-front deduction, the simulated result that arrives
 * later, the sample upload's type check, liking a result, and regenerating.
 */
module IndexPage {
  import opened Wrappers
  import opened JsText
  import opened UserContext
  import opened TrackTitles

  /** The page's current result; it has no date until it is saved. */
  datatype GeneratedTrack = GeneratedTrack(id: string, title: string, url: string, duration: int)

  /** The part of a selected `File` the page reads. */
  datatype FileInfo = FileInfo(name: string, mimeType: string)

  /** Where `handleGenerate` stops; `Started` carries the prompt the pending result will be titled from. */
  datatype GateOutcome = PromptMissing | SentToLogin | CreditsNeeded | Started(captured: string)

  /** The four MIME types the page's upload accepts. */
  const ClientAudioTypes: seq<string> := ["audio/mp3", "audio/wav", "audio/m4a", "audio/mpeg"]

  /** The URL and length in seconds of the simulated result. */
  const PlaceholderUrl := "/api/placeholder-audio"
  const PlaceholderDuration := 180

  /** The simulated result for a prompt, stamped with a clock reading. */
  function SimulatedTrack(prompt: string, stamp: nat): (t: GeneratedTrack)
    ensures t.title == TrackTitle(prompt) && |t.title| <= 33
    ensures t.url == PlaceholderUrl && t.duration == PlaceholderDuration
  {
    GeneratedTrack("track_" + Decimal(stamp), TrackTitle(prompt), PlaceholderUrl, PlaceholderDuration)
  }

  /** A liked result as it is saved: the same fields plus the date. */
  function Liked(g: GeneratedTrack, now: string): (t: ClientTrack)
    ensures t.id == g.id && t.title == g.title && t.url == g.url && t.duration == g.duration && t.dateCreated == now
  {
    ClientTrack(g.id, g.title, g.url, g.duration, now)
  }

  class IndexState {
    var prompt: string
    var isGenerating: bool
    var generatedTrack: Option<GeneratedTrack>
    var uploadedFile: Option<FileInfo>
    var showCreditsModal: bool

    constructor ()
      ensures prompt == "" && !isGenerating && generatedTrack.None? && uploadedFile.None? && !showCreditsModal
    {
      prompt := "";
      isGenerating := false;
      generatedTrack := None;
      uploadedFile := None;
      showCreditsModal := false;
    }

    /**
     * `handleGenerate`: the blank-prompt check, then the sign-in check, then
     * the balance check, and only then one credit is taken, before any result
     * exists. `navigatedTo` is the route the page moves to, if any.
     */
    method HandleGenerate(users: UserProvider) returns (outcome: GateOutcome, navigatedTo: Option<string>)
      modifies this`isGenerating, this`showCreditsModal, users`user
      ensures IsBlank(prompt) ==> outcome == PromptMissing
      ensures !IsBlank(prompt) && old(users.user).None? ==> outcome == SentToLogin
      ensures !IsBlank(prompt) && old(users.user).Some? && old(users.user).value.credits < 1 ==>
        outcome == CreditsNeeded && showCreditsModal
      ensures outcome.Started? <==> !IsBlank(prompt) && old(users.user).Some? && old(users.user).value.credits >= 1
      ensures navigatedTo == (if outcome == SentToLogin then Some("/login") else None)
      // a rejected gate takes nothing and starts nothing
      ensures !outcome.Started? ==> users.user == old(users.user) && isGenerating == old(isGenerating)
      ensures outcome != CreditsNeeded ==> showCreditsModal == old(showCreditsModal)
      // a passed gate takes exactly one credit up front
      ensures outcome.Started? ==>
        && outcome.captured == prompt && isGenerating
        && users.user == Some(old(users.user).value.(credits := old(users.user).value.credits - 1))
    {
      navigatedTo := None;
      if Trim(prompt) == "" {
        return PromptMissing, None;
      }
      if !users.IsLoggedIn() {
        return SentToLogin, Some("/login");
      }
      if users.user.None? || users.user.value.credits < 1 {
        showCreditsModal := true;
        return CreditsNeeded, None;
      }
      isGenerating := true;
      users.DeductCredits(1);
      outcome := Started(prompt);
    }

    /** The timer callback of a started generation: the result appears and generation ends. */
    method FinishGeneration(captured: string, stamp: nat)
      modifies this`generatedTrack, this`isGenerating
      ensures generatedTrack == Some(SimulatedTrack(captured, stamp)) && !isGenerating
    {
      generatedTrack := Some(SimulatedTrack(captured, stamp));
      isGenerating := false;
    }

    /** `handleFileUpload` for the first selected file, `None` when there is none. */
    method HandleFileUpload(file: Option<FileInfo>) returns (accepted: bool)
      modifies this`uploadedFile
      ensures accepted <==> file.Some? && exists i :: 0 <= i < |ClientAudioTypes| && ClientAudioTypes[i] == file.value.mimeType
      ensures accepted ==> uploadedFile == file
      ensures !accepted ==> uploadedFile == old(uploadedFile)
    {
      accepted := file.Some? && file.value.mimeType in ClientAudioTypes;
      if accepted {
        uploadedFile := file;
      }
    }

    /** `handleLike` (and `handleSave`, which calls it): save the current result with today's date. */
    method HandleLike(users: UserProvider, now: string)
      modifies users`savedTracks
      ensures generatedTrack.None? ==> users.savedTracks == old(users.savedTracks)
      ensures generatedTrack.Some? ==> users.savedTracks == Appended(old(users.savedTracks), Liked(generatedTrack.value, now))
    {
      if generatedTrack.Some? {
        users.SaveTrack(Liked(generatedTrack.value, now));
      }
    }

    /**
     * `handleRegenerate`: without a credit, open the modal and keep the current
     * result; otherwise drop it and run the generate gates again.
     */
    method HandleRegenerate(users: UserProvider) returns (outcome: Option<GateOutcome>)
      modifies this`generatedTrack, this`isGenerating, this`showCreditsModal, users`user
      ensures outcome.None? <==> old(users.user).None? || old(users.user).value.credits < 1
      ensures outcome.None? ==>
        && showCreditsModal && generatedTrack == old(generatedTrack)
        && users.user == old(users.user) && isGenerating == old(isGenerating)
      ensures outcome.Some? ==> generatedTrack.None?
      // with a credit the page is signed in, so only the prompt check can still stop it
      ensures outcome.Some? ==> outcome.value == PromptMissing || outcome.value.Started?
      ensures outcome.Some? ==> showCreditsModal == old(showCreditsModal)
      // a missing prompt takes nothing and starts nothing
      ensures outcome.Some? && !outcome.value.Started? ==>
        users.user == old(users.user) && isGenerating == old(isGenerating)
      ensures outcome.Some? && outcome.value.Started? ==>
        && outcome.value.captured == prompt && isGenerating
        && users.user == Some(old(users.user).value.(credits := old(users.user).value.credits - 1))
    {
      if users.user.None? || users.user.value.credits < 1 {
        showCreditsModal := true;
        return None;
      }
      generatedTrack := None;
      var gate, _ := HandleGenerate(users);
      outcome := Some(gate);
    }
  }
}
