/**
 * The saved-tracks handlers over one `SavedTracks` document per user:
 * save (validate, then put a new id first and leave a known id alone),
 * list, and remove by id (`$pull`).
 *
 * The body's `id` is read as JSON gives it: a number passes validation and
 * is stored as its decimal text by the `String` schema path, but the
 * handler's `t.id === id` test compares the stored text with the number and
 * never finds it, so every save of a number id adds another entry.
 */
module SavedTracksController {
  import opened Wrappers
  import opened JsText
  import opened Store
  import Registry

  /** The fields of `req.body` for `POST /savedTracks`. */
  datatype TrackBody = TrackBody(
    id: Option<JsonScalar>,
    title: Option<string>,
    url: Option<string>,
    downloadUrl: Option<string>,
    duration: Option<int>,
    dateCreated: Option<string>)

  datatype TracksReply =
    | Tracks(status: nat, message: Option<string>, tracks: seq<Track>)
    | TracksError(status: nat, error: string)

  /** Every required field is present and truthy; an id of 0 or a duration of 0 does not pass. */
  predicate Complete(body: TrackBody)
  {
    && TruthyScalar(body.id) && Truthy(body.title) && Truthy(body.url)
    && Truthy(body.downloadUrl) && TruthyNumber(body.duration) && Truthy(body.dateCreated)
  }

  /** The entry the handler unshifts, as the schema stores it: the id as text. */
  function TrackFrom(body: TrackBody): (t: Track)
    requires Complete(body)
    ensures t.id == ScalarText(body.id.value) && t.id != ""
    ensures t.title == body.title.value && t.url == body.url.value && t.downloadUrl == body.downloadUrl.value
    ensures t.duration == body.duration.value && t.duration != 0 && t.dateCreated == body.dateCreated.value
  {
    Track(ScalarText(body.id.value), body.title.value, body.url.value, body.downloadUrl.value,
          body.duration.value, body.dateCreated.value)
  }

  /**
   * `saveTrack` for user `userId`. `written` says whether the document was
   * saved; it is not when the fields are incomplete or the id is found.
   */
  method SaveTrack(db: Database, userId: UserId, body: TrackBody) returns (reply: TracksReply, written: bool)
    modifies db`savedTracks
    ensures !Complete(body) ==>
      reply == TracksError(400, "Missing track fields") && !written && db.savedTracks == old(db.savedTracks)
    ensures Complete(body) ==>
      && (written <==> !Registry.HasJsonId(old(db.TracksOf(userId)), TrackId, body.id.value))
      && db.TracksOf(userId) == (if written then [TrackFrom(body)] + old(db.TracksOf(userId)) else old(db.TracksOf(userId)))
      && reply == Tracks(200, Some("Tracked Saved Succesfully"), db.TracksOf(userId))
    // a string id: the guarded prepend, which keeps ids unique
    ensures Complete(body) && body.id.value.JsonString? ==>
      && db.TracksOf(userId) == Registry.PrependIfAbsent(old(db.TracksOf(userId)), TrackId, TrackFrom(body))
      && (Registry.UniqueIds(old(db.TracksOf(userId)), TrackId) ==> Registry.UniqueIds(db.TracksOf(userId), TrackId))
    // a number id is never found: the entry is prepended every time
    ensures Complete(body) && body.id.value.JsonNumber? ==>
      written && db.TracksOf(userId) == [TrackFrom(body)] + old(db.TracksOf(userId))
    ensures !written ==> db.savedTracks == old(db.savedTracks)
    ensures written ==> db.savedTracks == old(db.savedTracks)[userId := db.TracksOf(userId)]
  {
    if !Complete(body) {
      return TracksError(400, "Missing track fields"), false;
    }
    var track := TrackFrom(body);
    var list := if userId in db.savedTracks then db.savedTracks[userId] else [];
    written := !Registry.HasJsonId(list, TrackId, body.id.value);
    if body.id.value.JsonString? && Registry.UniqueIds(list, TrackId) {
      Registry.PrependIfAbsentKeepsUnique(list, TrackId, track);
    }
    if written {
      list := [track] + list;
      db.savedTracks := db.savedTracks[userId := list];
    }
    reply := Tracks(200, Some("Tracked Saved Succesfully"), list);
  }

  /** `listTracks`: the stored list, or `[]` when the user has no document. */
  method ListTracks(db: Database, userId: UserId) returns (reply: TracksReply)
    ensures reply.Tracks? && reply.status == 200 && reply.message.None?
    ensures userId in db.savedTracks ==> reply.tracks == db.savedTracks[userId]
    ensures userId !in db.savedTracks ==> reply.tracks == []
  {
    reply := Tracks(200, None, db.TracksOf(userId));
  }

  /**
   * `removeTrack`: `$pull` every entry with this id from the user's document,
   * if there is one, and answer with what is left; no document is created.
   * The route parameter is always text, so it also removes every copy a
   * number id left behind.
   */
  method RemoveTrack(db: Database, userId: UserId, id: string) returns (reply: TracksReply)
    modifies db`savedTracks
    ensures reply == Tracks(200, Some("Track Removed Succesfully"), db.TracksOf(userId))
    ensures userId !in old(db.savedTracks) ==> db.savedTracks == old(db.savedTracks) && reply.tracks == []
    ensures userId in old(db.savedTracks) ==>
      db.savedTracks == old(db.savedTracks)[userId := Registry.RemoveById(old(db.savedTracks[userId]), TrackId, id)]
    ensures !Registry.HasId(db.TracksOf(userId), TrackId, id)
    ensures Registry.UniqueIds(old(db.TracksOf(userId)), TrackId) ==> Registry.UniqueIds(db.TracksOf(userId), TrackId)
  {
    if userId in db.savedTracks {
      var list := db.savedTracks[userId];
      if Registry.UniqueIds(list, TrackId) {
        Registry.RemoveByIdKeepsUnique(list, TrackId, id);
      }
      Registry.RemovedIdAbsent(list, TrackId, id);
      db.savedTracks := db.savedTracks[userId := Registry.RemoveById(list, TrackId, id)];
    }
    reply := Tracks(200, Some("Track Removed Succesfully"), db.TracksOf(userId));
  }

  /** Saving the same track twice with a string id leaves one entry for it and the list of the first save. */
  method SaveTwiceScenario(t: Track) returns (first: TracksReply, second: TracksReply, wroteSecond: bool)
    requires t.id != "" && t.title != "" && t.url != "" && t.downloadUrl != "" && t.duration != 0 && t.dateCreated != ""
    ensures first == second == Tracks(200, Some("Tracked Saved Succesfully"), [t])
    ensures !wroteSecond
  {
    var db := new Database();
    var body := TrackBody(Some(JsonString(t.id)), Some(t.title), Some(t.url), Some(t.downloadUrl), Some(t.duration), Some(t.dateCreated));
    var w;
    first, w := SaveTrack(db, 0, body);
    second, wroteSecond := SaveTrack(db, 0, body);
  }

  /**
   * Saving the same track twice with the number id 7: both saves write, and
   * the list ends with two entries whose id is "7".
   */
  method NumberIdSavedTwice() returns (second: TracksReply, wroteSecond: bool)
    ensures wroteSecond
    ensures second.Tracks? && |second.tracks| == 2
    ensures second.tracks[0] == second.tracks[1] && second.tracks[0].id == "7"
    ensures !Registry.UniqueIds(second.tracks, TrackId)
  {
    var db := new Database();
    var body := TrackBody(Some(JsonNumber(7)), Some("rain"), Some("https://cdn/a.mp3"), Some("https://cdn/a.mp3?dl"), Some(30), Some("2025-01-01"));
    var first, w := SaveTrack(db, 0, body);
    second, wroteSecond := SaveTrack(db, 0, body);
    assert Decimal(7) == "7";
  }
}
