/**
 * `generateAudio`, the credit-metered generation handler. The balance
 * check comes first, then the request is validated, then the external
 * generator is called; only when it returns audio is one credit taken and
 * the user document saved, and the reply is the generator's bytes.
 */
module AudioController {
  import opened Wrappers
  import opened JsText
  import opened Store

  /** The fields of `req.body` the handler reads; `duration` may come as a number or as text. */
  datatype GenerateBody = GenerateBody(prompt: Option<string>, duration: Option<JsonScalar>)

  /**
   * `Number(duration)` as posted: a number is sent as it is; text is sent
   * through JavaScript's number conversion, which this model records but
   * does not evaluate.
   */
  datatype PostedDuration = AsNumber(n: int) | NumberOfText(text: string)

  /** What is posted to the generator: the prompt and `Number(duration)`. */
  datatype GeneratorRequest = GeneratorRequest(prompt: string, duration: PostedDuration)

  /** `Number(duration)` for the body's duration. */
  function Posted(duration: JsonScalar): (d: PostedDuration)
    ensures duration.JsonNumber? ==> d == AsNumber(duration.number)
    ensures duration.JsonString? ==> d == NumberOfText(duration.text)
  {
    match duration
    case JsonNumber(n) => AsNumber(n)
    case JsonString(t) => NumberOfText(t)
  }

  /**
   * The generator call as seen from the handler: audio bytes, or a thrown
   * error whose body, when it decodes as JSON with a `detail`, carries that
   * detail.
   */
  datatype GeneratorOutcome =
    | Generated(audio: seq<bv8>)
    | GeneratorFailed(detail: Option<string>)

  datatype AudioReply =
    | Json(status: nat, message: string)
    | AudioFile(status: nat, contentType: string, disposition: string, audio: seq<bv8>)

  /** The reply to a user who is unknown or has no credit left. */
  const InsufficientCredits := Json(403, "Insufficient credits")

  const MissingInput := Json(400, "Prompt and duration are required")

  /** The reply to every generator failure, whatever detail it carried. */
  const GenerationFailed := Json(500, "Failed to generate audio")

  /** The catch-all reply when saving the user document throws. */
  const InternalError := Json(500, "Internal server error")

  /** The balance check of the handler: the user exists and has credit left. */
  predicate HasCredit(user: Option<UserRecord>)
  {
    user.Some? && user.value.credits > 0
  }

  /** The input check of the handler: a non-empty prompt and a duration that is neither 0 nor "". */
  predicate ValidInput(body: GenerateBody)
  {
    Truthy(body.prompt) && TruthyScalar(body.duration)
  }

  /**
   * Any non-empty text passes as a duration, numeric or not, so the
   * generator is reached with `Number("abc")`.
   */
  lemma TextDurationPasses(prompt: string, text: string)
    requires prompt != "" && text != ""
    ensures ValidInput(GenerateBody(Some(prompt), Some(JsonString(text))))
    ensures Posted(JsonString(text)) == NumberOfText(text)
  {
  }

  /**
   * One `POST /audio/generate` by the authenticated user `userId`.
   * `generator` is the outcome of the external call (consulted only when the
   * handler makes it) and `saved` says whether `user.save()` succeeds.
   * `request` is what was posted to the generator, `None` when no call was made.
   */
  method GenerateAudio(db: Database, userId: UserId, body: GenerateBody, generator: GeneratorOutcome, saved: bool)
    returns (reply: AudioReply, request: Option<GeneratorRequest>)
    requires db.Valid()
    modifies db`users
    ensures db.Valid()
    // the balance check comes first: no credit, no call and no write, whatever the input
    ensures !HasCredit(old(db.FindById(userId))) ==>
      reply == InsufficientCredits && request.None? && db.users == old(db.users)
    // then the input check: no call and no write
    ensures HasCredit(old(db.FindById(userId))) && !ValidInput(body) ==>
      reply == MissingInput && request.None? && db.users == old(db.users)
    // the generator is called exactly when both checks pass, with the request's own values
    ensures request.Some? <==> HasCredit(old(db.FindById(userId))) && ValidInput(body)
    ensures request.Some? ==> request.value == GeneratorRequest(body.prompt.value, Posted(body.duration.value))
    // a failed generation answers with the fixed message and leaves the balance alone
    ensures request.Some? && generator.GeneratorFailed? ==>
      reply == GenerationFailed && db.users == old(db.users)
    ensures request.Some? && generator.Generated? && !saved ==>
      reply == InternalError && db.users == old(db.users)
    // charge iff success: exactly one credit, only for the caller, and the reply is the generator's bytes
    ensures reply.AudioFile? <==> request.Some? && generator.Generated? && saved
    ensures reply.AudioFile? ==>
      && reply == AudioFile(200, "audio/mpeg", "attachment; filename=generated.mp3", generator.audio)
      && db.users == old(db.users)[userId := old(db.users)[userId].(credits := old(db.users)[userId].credits - 1)]
    ensures !reply.AudioFile? ==> db.users == old(db.users)
    ensures db.CreditsOf(userId) == old(db.CreditsOf(userId)) - (if reply.AudioFile? then 1 else 0)
    ensures db.CreditsOf(userId) >= 0
  {
    var user := db.FindById(userId);
    if !HasCredit(user) {
      return InsufficientCredits, None;
    }
    if !ValidInput(body) {
      return MissingInput, None;
    }
    request := Some(GeneratorRequest(body.prompt.value, Posted(body.duration.value)));
    match generator {
      case GeneratorFailed(_) =>
        reply := GenerationFailed;
      case Generated(audio) =>
        if !saved {
          reply := InternalError;
        } else {
          var u := user.value;
          db.users := db.users[userId := u.(credits := u.credits - 1)];
          reply := AudioFile(200, "audio/mpeg", "attachment; filename=generated.mp3", audio);
        }
    }
  }

  /**
   * A user with one credit generates once and is charged; an immediate second
   * request is refused for lack of credit and the balance stays at 0.
   */
  method LastCreditScenario(audio: seq<bv8>) returns (first: AudioReply, second: AudioReply, balance: int)
    ensures first == AudioFile(200, "audio/mpeg", "attachment; filename=generated.mp3", audio)
    ensures second == InsufficientCredits
    ensures balance == 0
  {
    var db := new Database();
    var u := UserRecord(0, "lofi", "lofi@example.com", "hash", 1, 0);
    SingleUserValid(u);
    db.users := [u];
    var body := GenerateBody(Some("lofi piano"), Some(JsonNumber(5)));
    var r;
    first, r := GenerateAudio(db, 0, body, Generated(audio), true);
    assert db.users == [u.(credits := 0)];
    second, r := GenerateAudio(db, 0, body, Generated(audio), true);
    balance := db.CreditsOf(0);
  }

  /** A user with three credits whose generation fails keeps all three, and the reply hides the detail. */
  method FailedGenerationScenario() returns (reply: AudioReply, balance: int)
    ensures reply == GenerationFailed
    ensures balance == 3
  {
    var db := new Database();
    var u := UserRecord(0, "lofi", "lofi@example.com", "hash", 3, 0);
    SingleUserValid(u);
    db.users := [u];
    var body := GenerateBody(Some("lofi piano"), Some(JsonNumber(5)));
    var r;
    reply, r := GenerateAudio(db, 0, body, GeneratorFailed(Some("duration too long")), true);
    balance := db.CreditsOf(0);
  }
}
