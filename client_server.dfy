/**
 * The client and the server side by side. Each member here puts one rule of
 * the browser code next to the rule of the handler it talks to and shows
 * where they part: when a credit is taken, how a saved list grows, what
 * happens at a zero balance, what the generate reply looks like, which
 * upload types pass and how long a name may be.
 */
module ClientServer {
  import opened Wrappers
  import opened JsText
  import Store
  import Registry
  import AudioController
  import AudioRoutes
  import AuthController
  import UserContext
  import AudioContext
  import IndexPage

  /**
   * How the client's `axios.post` sees a reply of the generate handler: a
   * 4xx or 5xx JSON body rejects with that body's message, the audio bytes
   * arrive as a body that is not an object.
   */
  function ClientView(reply: AudioController.AudioReply): (r: AudioContext.ServerResponse)
    ensures reply.AudioFile? ==> r == AudioContext.RawBytes(reply.audio)
    ensures reply.Json? && reply.status >= 400 ==> r == AudioContext.HttpError(Some(reply.message))
  {
    match reply
    case AudioFile(_, _, _, audio) => AudioContext.RawBytes(audio)
    case Json(status, message) =>
      if status >= 400 then AudioContext.HttpError(Some(message))
      else AudioContext.JsonBody(None, None, Some(message))
  }

  /**
   * No reply the generate handler can give passes the client's response check:
   * the handler never sends `{ url, credits }`. Its error messages do reach the
   * user's toast.
   */
  lemma NoServerReplyAccepted(reply: AudioController.AudioReply)
    ensures AudioContext.Accepted(ClientView(reply)).None?
    ensures reply.Json? && reply.status >= 400 && reply.message != "" ==>
      AudioContext.ErrorText(ClientView(reply)) == reply.message
    ensures reply.AudioFile? ==> AudioContext.ErrorText(ClientView(reply)) == AudioContext.FailureText
  {
  }

  /**
   * A successful generation as both sides see it: the server charges the
   * credit and answers with the audio, and the client, unable to read that
   * answer, shows no audio and reports a failure.
   */
  method ChargedButReportedFailed(audio: seq<bv8>) returns (serverBalance: int, clientUrl: Option<string>, toasts: seq<AudioContext.Toast>)
    ensures serverBalance == 1
    ensures clientUrl.None?
    ensures toasts == [AudioContext.ErrorToast("Failed to generate audio")]
  {
    var db := new Store.Database();
    var rec := Store.UserRecord(0, "lofi", "lofi@example.com", "hash", 2, 0);
    Store.SingleUserValid(rec);
    db.users := [rec];
    var reply, _ := AudioController.GenerateAudio(db, 0, AudioController.GenerateBody(Some("rain"), Some(JsonNumber(5))),
                                                  AudioController.Generated(audio), true);
    serverBalance := db.CreditsOf(0);
    var users := new UserContext.UserProvider();
    users.user := Some(UserContext.ClientUser("u1", "lofi", "lofi@example.com", 2));
    var provider := new AudioContext.AudioProvider();
    var _, shown := provider.GenerateMusic(users, "rain", 5, ClientView(reply), true, true, "track_1", "2025-01-01");
    clientUrl, toasts := provider.generatedAudioURL, shown;
  }

  /**
   * The home page takes the credit as soon as its gates pass, before any
   * result; the handler takes it only after the generator succeeds. With one
   * credit and a failing generator the page shows 0 and the server keeps 1.
   */
  method DeductTiming() returns (clientCredits: int, serverCredits: int)
    ensures clientCredits == 0
    ensures serverCredits == 1
  {
    var users := new UserContext.UserProvider();
    users.user := Some(UserContext.ClientUser("u1", "lofi", "lofi@example.com", 1));
    var page := new IndexPage.IndexState();
    page.prompt := "rain on a tin roof";
    assert !IsWhitespace(page.prompt[0]);
    var gate, _ := page.HandleGenerate(users);
    clientCredits := users.user.value.credits;
    var db := new Store.Database();
    var rec := Store.UserRecord(0, "lofi", "lofi@example.com", "hash", 1, 0);
    Store.SingleUserValid(rec);
    db.users := [rec];
    var reply, _ := AudioController.GenerateAudio(db, 0, AudioController.GenerateBody(Some("rain on a tin roof"), Some(JsonNumber(5))),
                                                  AudioController.GeneratorFailed(None), true);
    serverCredits := db.CreditsOf(0);
  }

  /**
   * Saving the same track twice: the client list gets two copies at its
   * end, the server list one copy at its front.
   */
  lemma SaveTwiceDiverges(client: seq<UserContext.ClientTrack>, t: UserContext.ClientTrack,
                          server: seq<Store.Track>, s: Store.Track)
    requires !Registry.HasId(server, Store.TrackId, s.id)
    ensures var c := UserContext.Appended(UserContext.Appended(client, t), t);
      |c| == |client| + 2 && c[|client|] == t && c[|client| + 1] == t
    ensures Registry.PrependIfAbsent(Registry.PrependIfAbsent(server, Store.TrackId, s), Store.TrackId, s) == [s] + server
  {
    Registry.PrependIfAbsentIdempotent(server, Store.TrackId, s, s);
  }

  /**
   * Asked for more than the balance, the client clamps to zero; the handler
   * instead refuses a zero balance outright and changes nothing.
   */
  lemma ClampVersusRefusal(u: UserContext.ClientUser, rec: Store.UserRecord, amount: int)
    requires 0 <= u.credits < amount && rec.credits == 0
    ensures UserContext.Deducted(Some(u), amount).value.credits == 0
    ensures UserContext.Deducted(Some(u), amount).value.credits > u.credits - amount
    ensures !AudioController.HasCredit(Some(rec))
  {
  }

  /**
   * The page accepts `audio/m4a`, which the server's filter refuses; every
   * other type the page accepts the server accepts too.
   */
  lemma UploadTypesDisagree()
    ensures "audio/m4a" in IndexPage.ClientAudioTypes
    ensures AudioRoutes.FileFilter("audio/m4a").FilterError?
    ensures forall i :: 0 <= i < |IndexPage.ClientAudioTypes| && IndexPage.ClientAudioTypes[i] != "audio/m4a" ==>
      AudioRoutes.FileFilter(IndexPage.ClientAudioTypes[i]).FilterAccept?
  {
    assert IndexPage.ClientAudioTypes[2] == "audio/m4a";
    assert AudioRoutes.AllowedTypes[0] == "audio/mpeg";
    assert AudioRoutes.AllowedTypes[1] == "audio/mp3";
    assert AudioRoutes.AllowedTypes[2] == "audio/wav";
    AudioRoutes.M4aOnlyWithPrefix();
  }

  /**
   * The profile form only checks that a name is not blank; the rename
   * handler also caps it at 100 characters, so a 101-character name the
   * form accepts is refused by the server.
   */
  lemma LongNameAcceptedOnlyByClient(name: string)
    requires |name| == 101 && !IsWhitespace(name[0]) && !IsWhitespace(name[100])
    ensures !IsBlank(name)
    ensures AuthController.RenameCheck(name) == Some(AuthController.Message(400, "message", "Name must be under 100 characters"))
  {
    TrimOfTrimmed(name);
  }
}
