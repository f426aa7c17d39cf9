/**
 * The saved-lyrics handlers over one `SavedLyrics` document per user. A
 * save validates the body, uploads the text to the asset host, derives a
 * file name and a download link from the title and the returned URL, and
 * then records a reference (not the text) first in the user's list unless
 * the id is already there. List and remove work as for tracks.
 *
 * The body's `id` and `title` are read as JSON gives them. A number id is
 * stored as its decimal text and, as for tracks, never found again by the
 * `l.id === id` test; a number title makes `title.replace` throw before the
 * upload, which the handler's catch turns into its 500 reply.
 */
module SavedLyricsController {
  import opened Wrappers
  import opened JsText
  import opened Store
  import Registry
  import UriComponent

  /** The fields of `req.body` for `POST /lyrics`. */
  datatype LyricsBody = LyricsBody(
    id: Option<JsonScalar>,
    title: Option<JsonScalar>,
    content: Option<string>,
    dateCreated: Option<string>)

  /** The options and payload of the raw upload stream. */
  datatype UploadRequest = UploadRequest(text: string, publicId: string, folder: string, resourceType: string, overwrite: bool)

  /** The upload's callback: a result carrying `secure_url`, or an error. */
  datatype UploadOutcome = Uploaded(secureUrl: string) | UploadFailed

  datatype LyricsReply =
    | LyricsList(status: nat, message: Option<string>, lyrics: seq<Lyric>)
    | LyricsError(status: nat, error: string)

  predicate Complete(body: LyricsBody)
  {
    TruthyScalar(body.id) && TruthyScalar(body.title) && Truthy(body.content) && Truthy(body.dateCreated)
  }

  /** The number of `' '` characters `s` starts with. */
  function LeadingSpaces(s: string): (n: nat)
    ensures n <= |s|
    ensures forall i :: 0 <= i < n ==> s[i] == ' '
    ensures n < |s| ==> s[n] != ' '
  {
    if s != [] && s[0] == ' ' then 1 + LeadingSpaces(s[1..]) else 0
  }

  /** A match of the pattern `/\s + /` starts at the front of `s`: a whitespace character and then at least two spaces. */
  predicate MatchAtFront(s: string)
  {
    |s| >= 3 && IsWhitespace(s[0]) && s[1] == ' ' && s[2] == ' '
  }

  /**
   * `s.replace(/\s + /g, "_")`. The pattern is a whitespace character, one or
   * more spaces (greedy), then one more space; each match therefore takes a
   * whitespace character and the whole run of at least two spaces after it.
   */
  function ReplaceSpaceRuns(s: string): (r: string)
    ensures |r| <= |s|
  {
    if s == [] then []
    else if MatchAtFront(s) then
      var run := LeadingSpaces(s[1..]);
      "_" + ReplaceSpaceRuns(s[1 + run..])
    else
      [s[0]] + ReplaceSpaceRuns(s[1..])
  }

  /** No position of `s` starts a match. */
  predicate NoMatch(s: string)
  {
    forall i :: 0 <= i < |s| ==> !MatchAtFront(s[i..])
  }

  /** Where the pattern matches nowhere the replacement changes nothing. */
  lemma {:induction false} NoMatchUnchanged(s: string)
    requires NoMatch(s)
    ensures ReplaceSpaceRuns(s) == s
  {
    if s != [] {
      assert s[0..] == s;
      assert NoMatch(s[1..]) by {
        forall i | 0 <= i < |s[1..]| ensures !MatchAtFront(s[1..][i..]) {
          assert s[1..][i..] == s[i + 1..];
        }
      }
      NoMatchUnchanged(s[1..]);
    }
  }

  /** A title whose spaces are all single keeps them: no underscore replaces them. */
  lemma SingleSpacesKept(s: string)
    requires forall i :: 0 <= i < |s| - 1 ==> !(s[i] == ' ' && s[i + 1] == ' ')
    ensures ReplaceSpaceRuns(s) == s
  {
    forall i | 0 <= i < |s| ensures !MatchAtFront(s[i..]) {
      if |s[i..]| >= 3 {
        assert s[i..][1] == s[i + 1] && s[i..][2] == s[i + 2];
      }
    }
    NoMatchUnchanged(s);
  }

  /** "My Song" keeps its single space. */
  lemma SingleSpaceExample()
    ensures ReplaceSpaceRuns("My Song") == "My Song"
  {
    SingleSpacesKept("My Song");
  }

  /** A character that starts no match is copied and the rest is processed on its own. */
  lemma KeptAtFront(c: char, rest: string)
    requires !MatchAtFront([c] + rest)
    ensures ReplaceSpaceRuns([c] + rest) == [c] + ReplaceSpaceRuns(rest)
  {
    assert ([c] + rest)[1..] == rest;
  }

  /** `k` space characters. */
  function Spaces(k: nat): (r: string)
    ensures |r| == k && forall i :: 0 <= i < k ==> r[i] == ' '
  {
    if k == 0 then [] else [' '] + Spaces(k - 1)
  }

  /** A run of `k` spaces followed by a non-space starts with exactly `k` spaces. */
  lemma {:induction false} LeadingSpacesOfRun(k: nat, rest: string)
    requires rest == [] || rest[0] != ' '
    ensures LeadingSpaces(Spaces(k) + rest) == k
  {
    if k > 0 {
      assert (Spaces(k) + rest)[1..] == Spaces(k - 1) + rest;
      LeadingSpacesOfRun(k - 1, rest);
    } else {
      assert Spaces(k) + rest == rest;
    }
  }

  /**
   * A whitespace character followed by a run of two or more spaces, then a
   * non-space, becomes one underscore, however long the run.
   */
  lemma RunAtFront(w: char, k: nat, rest: string)
    requires IsWhitespace(w) && k >= 2 && (rest == [] || rest[0] != ' ')
    ensures ReplaceSpaceRuns([w] + Spaces(k) + rest) == "_" + ReplaceSpaceRuns(rest)
  {
    var s := [w] + Spaces(k) + rest;
    assert s[1] == ' ' && s[2] == ' ';
    assert MatchAtFront(s);
    assert s[1..] == Spaces(k) + rest;
    LeadingSpacesOfRun(k, rest);
    assert s[1 + k..] == rest;
  }

  /** In "a   b" the first space and the two after it become one underscore. */
  lemma SpaceRunExample()
    ensures ReplaceSpaceRuns("a   b") == "a_b"
  {
    assert ReplaceSpaceRuns("b") == "b";
    RunAtFront(' ', 2, "b");
    assert [' '] + Spaces(2) + "b" == "   b";
    KeptAtFront('a', "   b");
    assert ['a'] + "   b" == "a   b";
  }

  /** A tab followed by two spaces is replaced too. */
  lemma TabRunExample()
    ensures ReplaceSpaceRuns("a\t  b") == "a_b"
  {
    assert ReplaceSpaceRuns("b") == "b";
    RunAtFront('\t', 2, "b");
    assert ['\t'] + Spaces(2) + "b" == "\t  b";
    KeptAtFront('a', "\t  b");
    assert ['a'] + "\t  b" == "a\t  b";
  }

  /** The file name: the first 50 characters of the replaced title, then `.txt`. */
  function Filename(title: string): (r: string)
    ensures 4 <= |r| <= 54
    ensures r[|r| - 4..] == ".txt"
    ensures r[..|r| - 4] == Prefix(ReplaceSpaceRuns(title), 50)
  {
    Prefix(ReplaceSpaceRuns(title), 50) + ".txt"
  }

  const DefaultFilename := "generated_lyrics.txt"

  /**
   * `${secure_url}?fl_attachement=${encodeURIComponent(filename || default)}`:
   * the uploaded file's URL followed by a query whose value is the encoded
   * name, which contains no `&`, `#` or `?` of its own.
   */
  function DownloadUrl(fileUrl: string, filename: string): (r: string)
    ensures |fileUrl| + 16 <= |r| && r[..|fileUrl|] == fileUrl
    ensures filename != "" ==> r[|fileUrl|..] == "?fl_attachement=" + UriComponent.Encode(filename)
    ensures UriComponent.AllEncoded(r[|fileUrl| + 16..])
  {
    var value := UriComponent.Encode(if filename != "" then filename else DefaultFilename);
    ConcatSlices(fileUrl, "?fl_attachement=", value);
    fileUrl + "?fl_attachement=" + value
  }

  /** Where the parts of a three-part concatenation sit. */
  lemma ConcatSlices(a: string, b: string, c: string)
    ensures |a + b + c| == |a| + |b| + |c|
    ensures (a + b + c)[..|a|] == a && (a + b + c)[|a|..] == b + c && (a + b + c)[|a| + |b|..] == c
  {
  }

  /** For a non-empty file name the link is the file URL, the key and the encoded name. */
  lemma DownloadUrlOfName(fileUrl: string, filename: string)
    requires filename != ""
    ensures DownloadUrl(fileUrl, filename) == fileUrl + "?fl_attachement=" + UriComponent.Encode(filename)
  {
    ConcatSlices(fileUrl, "?fl_attachement=", UriComponent.Encode(filename));
  }

  /** The fallback name is never used: a derived file name is never empty. */
  lemma DefaultNameUnused(fileUrl: string, title: string)
    ensures DownloadUrl(fileUrl, Filename(title)) == fileUrl + "?fl_attachement=" + UriComponent.Encode(Filename(title))
  {
    var f := Filename(title);
    assert |f| >= 4;
    DownloadUrlOfName(fileUrl, f);
  }

  /** The reference stored for a save: the upload's URLs and the body's id, title and date, not the text. */
  function EntryFor(body: LyricsBody, fileUrl: string): (e: Lyric)
    requires Complete(body) && body.title.value.JsonString?
    ensures e.id == ScalarText(body.id.value) && e.title == body.title.value.text && e.dateCreated == body.dateCreated.value
    ensures e.url == fileUrl && |fileUrl| <= |e.downloadUrl| && e.downloadUrl[..|fileUrl|] == fileUrl
  {
    Lyric(ScalarText(body.id.value), body.title.value.text, fileUrl, DownloadUrl(fileUrl, Filename(body.title.value.text)),
          body.dateCreated.value)
  }

  /**
   * `savelyrics` for user `userId`; `upload` is the outcome of the upload the
   * handler makes (`uploadRequest` says what it sent, `None` when it made none).
   */
  method SaveLyrics(db: Database, userId: UserId, body: LyricsBody, upload: UploadOutcome)
    returns (reply: LyricsReply, uploadRequest: Option<UploadRequest>, written: bool)
    modifies db`savedLyrics
    // validation comes before the upload and the store
    ensures !Complete(body) ==>
      reply == LyricsError(400, "Missing required fields") && uploadRequest.None? && !written
      && db.savedLyrics == old(db.savedLyrics)
    // a number title throws while the file name is derived: no upload, no write
    ensures Complete(body) && body.title.value.JsonNumber? ==>
      reply == LyricsError(500, "Failed to save lyric") && uploadRequest.None? && !written
      && db.savedLyrics == old(db.savedLyrics)
    // otherwise the body is always uploaded, under the lyric's id, even when the id is already saved
    ensures Complete(body) && body.title.value.JsonString? ==>
      uploadRequest == Some(UploadRequest(body.content.value, "lyrics/" + ScalarText(body.id.value), "lyrics", "raw", true))
    ensures Complete(body) && upload.UploadFailed? ==>
      reply == LyricsError(500, "Failed to save lyric") && !written && db.savedLyrics == old(db.savedLyrics)
    ensures Complete(body) && body.title.value.JsonString? && upload.Uploaded? ==>
      && var entry := EntryFor(body, upload.secureUrl);
      && (userId !in old(db.savedLyrics) ==> db.LyricsOf(userId) == [entry] && written)
      && (userId in old(db.savedLyrics) ==>
            && (written <==> !Registry.HasJsonId(old(db.LyricsOf(userId)), LyricId, body.id.value))
            && db.LyricsOf(userId) == (if written then [entry] + old(db.LyricsOf(userId)) else old(db.LyricsOf(userId))))
      && (body.id.value.JsonString? ==>
            && db.LyricsOf(userId) == Registry.PrependIfAbsent(old(db.LyricsOf(userId)), LyricId, entry)
            && (Registry.UniqueIds(old(db.LyricsOf(userId)), LyricId) ==> Registry.UniqueIds(db.LyricsOf(userId), LyricId)))
      && (body.id.value.JsonNumber? ==> written && db.LyricsOf(userId) == [entry] + old(db.LyricsOf(userId)))
      && reply == LyricsList(200, Some("Lyric saved succesfully"), db.LyricsOf(userId))
    ensures !written ==> db.savedLyrics == old(db.savedLyrics)
    ensures written ==> db.savedLyrics == old(db.savedLyrics)[userId := db.LyricsOf(userId)]
  {
    if !Complete(body) {
      return LyricsError(400, "Missing required fields"), None, false;
    }
    if body.title.value.JsonNumber? {
      // `title.replace` is not a function on a number
      return LyricsError(500, "Failed to save lyric"), None, false;
    }
    var filename := Filename(body.title.value.text);
    uploadRequest := Some(UploadRequest(body.content.value, "lyrics/" + ScalarText(body.id.value), "lyrics", "raw", true));
    if upload.UploadFailed? {
      return LyricsError(500, "Failed to save lyric"), uploadRequest, false;
    }
    var fileUrl := upload.secureUrl;
    var entry := Lyric(ScalarText(body.id.value), body.title.value.text, fileUrl, DownloadUrl(fileUrl, filename), body.dateCreated.value);
    if userId !in db.savedLyrics {
      db.savedLyrics := db.savedLyrics[userId := [entry]];
      written := true;
    } else {
      var list := db.savedLyrics[userId];
      written := !Registry.HasJsonId(list, LyricId, body.id.value);
      if body.id.value.JsonString? && Registry.UniqueIds(list, LyricId) {
        Registry.PrependIfAbsentKeepsUnique(list, LyricId, entry);
      }
      if written {
        db.savedLyrics := db.savedLyrics[userId := [entry] + list];
      }
    }
    reply := LyricsList(200, Some("Lyric saved succesfully"), db.LyricsOf(userId));
  }

  /** `listLyrics`: the stored list, or `[]` when the user has no document. */
  method ListLyrics(db: Database, userId: UserId) returns (reply: LyricsReply)
    ensures reply.LyricsList? && reply.status == 200 && reply.message.None?
    ensures userId in db.savedLyrics ==> reply.lyrics == db.savedLyrics[userId]
    ensures userId !in db.savedLyrics ==> reply.lyrics == []
  {
    reply := LyricsList(200, None, db.LyricsOf(userId));
  }

  /** `removeLyrics`: `$pull` every entry with this id from the user's document, if there is one. */
  method RemoveLyrics(db: Database, userId: UserId, id: string) returns (reply: LyricsReply)
    modifies db`savedLyrics
    ensures reply == LyricsList(200, Some("Lyric removed succesfully"), db.LyricsOf(userId))
    ensures userId !in old(db.savedLyrics) ==> db.savedLyrics == old(db.savedLyrics) && reply.lyrics == []
    ensures userId in old(db.savedLyrics) ==>
      db.savedLyrics == old(db.savedLyrics)[userId := Registry.RemoveById(old(db.savedLyrics[userId]), LyricId, id)]
    ensures !Registry.HasId(db.LyricsOf(userId), LyricId, id)
    ensures Registry.UniqueIds(old(db.LyricsOf(userId)), LyricId) ==> Registry.UniqueIds(db.LyricsOf(userId), LyricId)
  {
    if userId in db.savedLyrics {
      var list := db.savedLyrics[userId];
      if Registry.UniqueIds(list, LyricId) {
        Registry.RemoveByIdKeepsUnique(list, LyricId, id);
      }
      Registry.RemovedIdAbsent(list, LyricId, id);
      db.savedLyrics := db.savedLyrics[userId := Registry.RemoveById(list, LyricId, id)];
    }
    reply := LyricsList(200, Some("Lyric removed succesfully"), db.LyricsOf(userId));
  }
}
