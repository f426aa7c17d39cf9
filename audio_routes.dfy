/**
 * The audio router: multer's file filter with its MIME allow-list, and the
 * chain `protect` -> `upload.single("file")` -> `generateAudio` on
 * `POST /generate`.
 */
module AudioRoutes {
  import opened Wrappers
  import opened Store
  import AuthMiddleware
  import AudioController

  /** The seven MIME types the upload filter lets through. */
  const AllowedTypes: seq<string> :=
    ["audio/mpeg", "audio/mp3", "audio/wav", "audio/x-wav", "audio/x-m4a", "audio/mp4", "audio/aac"]

  const RejectedFileMessage := "Only audio files (MP3, WAV, M4A) are allowed"

  /** The callback multer's `fileFilter` makes: an error, or `(null, true)`. */
  datatype FilterResult = FilterError(message: string) | FilterAccept

  /** `fileFilter(req, file, cb)` for a file whose declared type is `mimetype`. */
  function FileFilter(mimetype: string): (r: FilterResult)
    ensures r.FilterAccept? <==> exists i :: 0 <= i < |AllowedTypes| && AllowedTypes[i] == mimetype
    ensures r.FilterError? ==> r.message == RejectedFileMessage
  {
    if mimetype in AllowedTypes then FilterAccept else FilterError(RejectedFileMessage)
  }

  /** `audio/m4a`, which the upload page accepts, is not on the server's list; `audio/x-m4a` is. */
  lemma M4aOnlyWithPrefix()
    ensures FileFilter("audio/m4a") == FilterError(RejectedFileMessage)
    ensures FileFilter("audio/x-m4a") == FilterAccept
  {
    assert AllowedTypes[4] == "audio/x-m4a";
  }

  /** Where a `POST /generate` ends. */
  datatype RouteOutcome =
    | NotAuthenticated(rejection: AuthMiddleware.Unauthorized)
    | UploadRejected(message: string)  // the filter's error, handed to Express's error handler
    | Handled(reply: AudioController.AudioReply, request: Option<AudioController.GeneratorRequest>)

  /**
   * `router.post("/generate", protect, upload.single("file"), generateAudio)`:
   * `verify` is the token verification outcome, `fileType` the declared type of
   * the uploaded sample (`None` when there is none), the rest as for
   * `generateAudio`. Nothing is written, and the generator is not called,
   * unless the session verifies and the sample (if any) passes the filter.
   */
  method PostGenerate(db: Database, req: AuthMiddleware.Request, verify: AuthMiddleware.VerifyOutcome,
                      fileType: Option<string>, body: AudioController.GenerateBody,
                      generator: AudioController.GeneratorOutcome, saved: bool)
    returns (outcome: RouteOutcome)
    requires db.Valid()
    modifies db`users, req`user
    ensures db.Valid()
    ensures outcome.NotAuthenticated? <==> AuthMiddleware.Decide(req.token, verify).Reject?
    ensures outcome.UploadRejected? <==>
      AuthMiddleware.Decide(req.token, verify).Admit? && fileType.Some? && FileFilter(fileType.value).FilterError?
    ensures outcome.UploadRejected? ==> outcome.message == RejectedFileMessage
    ensures !outcome.Handled? ==> db.users == old(db.users)
    ensures outcome.Handled? ==>
      && verify.Verified?
      && db.CreditsOf(verify.payload.id) ==
         old(db.CreditsOf(verify.payload.id)) - (if outcome.reply.AudioFile? then 1 else 0)
    ensures outcome.Handled? && outcome.request.None? ==> db.users == old(db.users)
  {
    var reply, nextCalls := AuthMiddleware.Protect(req, verify);
    if nextCalls == 0 {
      return NotAuthenticated(reply.value);
    }
    if fileType.Some? {
      match FileFilter(fileType.value) {
        case FilterError(message) =>
          return UploadRejected(message);
        case FilterAccept =>
      }
    }
    var audioReply, request := AudioController.GenerateAudio(db, req.user.value.id, body, generator, saved);
    outcome := Handled(audioReply, request);
  }

  /** The names this router imports from the audio controller. */
  const ImportedFromController: set<string> := {"generateAudio", "decrementCredits", "downloadAudio"}

  /** The names the audio controller exports. */
  const ExportedByController: set<string> := {"generateAudio"}

  /**
   * Two of the imported names are not exported, so loading this router fails
   * at module linking; nothing in the mounted route table loads it.
   */
  lemma UnresolvedImports()
    ensures ImportedFromController - ExportedByController == {"decrementCredits", "downloadAudio"}
    ensures !(ImportedFromController <= ExportedByController)
  {
  }
}
