/**
 * The document store behind the handlers: the `User` collection and the
 * one-document-per-user `SavedTracks` and `SavedLyrics` collections.
 * Required fields become datatype fields; the unique indexes on username
 * and email and the `credits >= 0` bound become the store invariant.
 */
module Store {
  import opened Wrappers

  /** A user's `_id`. Users are never deleted, so the store hands out positions. */
  type UserId = nat

  /** A `User` document; `password` holds the bcrypt hash, never the password. */
  datatype UserRecord = UserRecord(
    id: UserId,
    username: string,
    email: string,
    password: string,
    credits: int,
    createdAt: nat)

  /** An element of `SavedTracks.savedTracks`. */
  datatype Track = Track(
    id: string,
    title: string,
    url: string,
    downloadUrl: string,
    duration: int,
    dateCreated: string)

  /** An element of `SavedLyrics.lyrics`: a reference to an uploaded text file. */
  datatype Lyric = Lyric(
    id: string,
    title: string,
    url: string,
    downloadUrl: string,
    dateCreated: string)

  function TrackId(t: Track): string { t.id }

  function LyricId(l: Lyric): string { l.id }

  /** The credit grant of a new account (the schema default and the signup constant). */
  const StartingCredits: int := 5

  /** Position of the first user with this email (`User.findOne({ email })`). */
  function IndexOfEmail(users: seq<UserRecord>, email: string): (r: Option<nat>)
    ensures r.Some? ==> r.value < |users| && users[r.value].email == email
    ensures r.Some? ==> forall j :: 0 <= j < r.value ==> users[j].email != email
    ensures r.None? <==> forall i :: 0 <= i < |users| ==> users[i].email != email
  {
    if users == [] then None
    else if users[0].email == email then Some(0)
    else
      match IndexOfEmail(users[1..], email)
      case None => None
      case Some(i) => Some(i + 1)
  }

  predicate UsernameTaken(users: seq<UserRecord>, username: string, except: Option<UserId>)
  {
    exists i :: 0 <= i < |users| && users[i].username == username && except != Some(i)
  }

  /**
   * The user documents: ids match positions, the required strings are
   * non-empty, balances are never negative, and the indexes are unique.
   */
  ghost predicate ValidUsers(users: seq<UserRecord>)
  {
    && (forall i :: 0 <= i < |users| ==> users[i].id == i && users[i].credits >= 0)
    && (forall i :: 0 <= i < |users| ==> users[i].username != "" && users[i].email != "" && users[i].password != "")
    && (forall i, j :: 0 <= i < j < |users| ==> users[i].email != users[j].email)
    && (forall i, j :: 0 <= i < j < |users| ==> users[i].username != users[j].username)
  }

  class Database {
    var users: seq<UserRecord>
    var savedTracks: map<UserId, seq<Track>>
    var savedLyrics: map<UserId, seq<Lyric>>

    /**
     * The store invariant constrains the user documents only: the saved
     * lists have no unique index, and ids within them are unique only as
     * long as every save sends its id as a string.
     */
    ghost predicate Valid()
      reads this
    {
      ValidUsers(users)
    }

    constructor ()
      ensures Valid()
      ensures users == [] && savedTracks == map[] && savedLyrics == map[]
    {
      users := [];
      savedTracks := map[];
      savedLyrics := map[];
    }

    /** `User.findById(id)`. */
    function FindById(id: UserId): (r: Option<UserRecord>)
      reads this
      ensures r.Some? <==> id < |users|
      ensures r.Some? ==> r.value == users[id]
    {
      if id < |users| then Some(users[id]) else None
    }

    /** The balance of a user, 0 for an unknown id (used to state how balances move). */
    function CreditsOf(id: UserId): int
      reads this
    {
      if id < |users| then users[id].credits else 0
    }

    /** `SavedTracks.findOne({ user })?.savedTracks || []`. */
    function TracksOf(id: UserId): seq<Track>
      reads this
    {
      if id in savedTracks then savedTracks[id] else []
    }

    /** `SavedLyrics.findOne({ user })?.lyrics || []`. */
    function LyricsOf(id: UserId): seq<Lyric>
      reads this
    {
      if id in savedLyrics then savedLyrics[id] else []
    }
  }

  /** Replacing one user's balance by a non-negative one keeps the user documents valid. */
  lemma SetCreditsKeepsValid(users: seq<UserRecord>, id: UserId, credits: int)
    requires ValidUsers(users) && id < |users| && credits >= 0
    ensures ValidUsers(users[id := users[id].(credits := credits)])
  {
  }

  /** A single well-formed user with id 0 is a valid collection. */
  lemma SingleUserValid(u: UserRecord)
    requires u.id == 0 && u.credits >= 0
    requires u.username != "" && u.email != "" && u.password != ""
    ensures ValidUsers([u])
  {
  }
}
