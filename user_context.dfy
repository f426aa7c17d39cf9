/**
 * The client's user context: the signed-in user and the saved-track list,
 * held by the provider and replaced wholesale by each operation. The
 * updaters are pure functions of the previous state; the provider's
 * methods assign their results.
 */
module UserContext {
  import opened Wrappers
  import opened JsText
  import Registry

  /** The client-side user: `name` where the server says `username`. */
  datatype ClientUser = ClientUser(id: string, name: string, email: string, credits: int)

  datatype ClientTrack = ClientTrack(id: string, title: string, url: string, duration: int, dateCreated: string)

  function ClientTrackId(t: ClientTrack): string { t.id }

  /** The fields an `updateProfile` call supplies; `None` is a key left out of the object. */
  datatype ProfileUpdate = ProfileUpdate(name: Option<string>, email: Option<string>)

  /** The starting balance of the mock signup. */
  const MockSignupCredits: int := 50

  /** The balance of the mock login. */
  const MockLoginCredits: int := 120

  /** `deductCredits`' updater: `Math.max(0, credits - amount)`; signed out stays signed out. */
  function Deducted(prev: Option<ClientUser>, amount: int): (r: Option<ClientUser>)
    ensures r.Some? <==> prev.Some?
    ensures r.Some? ==>
      && r.value.credits >= 0
      && (prev.value.credits >= amount ==> r.value.credits == prev.value.credits - amount)
      && (prev.value.credits < amount ==> r.value.credits == 0)
      && r.value == prev.value.(credits := r.value.credits)
  {
    match prev
    case None => None
    case Some(u) => Some(u.(credits := if u.credits - amount > 0 then u.credits - amount else 0))
  }

  /** `addCredits`' updater: the balance grows by `amount`, nothing else changes. */
  function Added(prev: Option<ClientUser>, amount: int): (r: Option<ClientUser>)
    ensures r.Some? <==> prev.Some?
    ensures r.Some? ==> r.value.credits == prev.value.credits + amount && r.value == prev.value.(credits := r.value.credits)
  {
    match prev
    case None => None
    case Some(u) => Some(u.(credits := u.credits + amount))
  }

  /** `saveTrack`'s updater: the track goes last, whether or not its id is already there. */
  function Appended(tracks: seq<ClientTrack>, t: ClientTrack): (r: seq<ClientTrack>)
    ensures |r| == |tracks| + 1 && r[..|tracks|] == tracks && r[|tracks|] == t
  {
    tracks + [t]
  }

  /** `removeTrack`'s updater: `filter(track => track.id !== trackId)`. */
  function Filtered(tracks: seq<ClientTrack>, trackId: string): (r: seq<ClientTrack>)
    ensures |r| <= |tracks|
    ensures !Registry.HasId(r, ClientTrackId, trackId)
  {
    Registry.RemovedIdAbsent(tracks, ClientTrackId, trackId);
    Registry.RemoveById(tracks, ClientTrackId, trackId)
  }

  /** `updateProfile`'s updater: the spread `{ ...prev, ...updates }`. */
  function Merged(prev: Option<ClientUser>, updates: ProfileUpdate): (r: Option<ClientUser>)
    ensures r.Some? <==> prev.Some?
    ensures r.Some? ==>
      && r.value.id == prev.value.id && r.value.credits == prev.value.credits
      && r.value.name == (if updates.name.Some? then updates.name.value else prev.value.name)
      && r.value.email == (if updates.email.Some? then updates.email.value else prev.value.email)
  {
    match prev
    case None => None
    case Some(u) =>
      var withName := if updates.name.Some? then u.(name := updates.name.value) else u;
      Some(if updates.email.Some? then withName.(email := updates.email.value) else withName)
  }

  /** Taking `amount` and giving it back restores the user when the balance covered it. */
  lemma AddUndoesCoveredDeduct(prev: Option<ClientUser>, amount: int)
    requires prev.Some? ==> prev.value.credits >= amount
    ensures Added(Deducted(prev, amount), amount) == prev
  {
  }

  /** When the balance did not cover the deduction, giving it back leaves more than before: the clamp forgets the debt. */
  lemma ClampForgetsDebt(u: ClientUser, amount: int)
    requires 0 <= u.credits < amount
    ensures Added(Deducted(Some(u), amount), amount).value.credits == amount > u.credits
  {
  }

  /** Removing a track is idempotent. */
  lemma FilterIdempotent(tracks: seq<ClientTrack>, trackId: string)
    ensures Filtered(Filtered(tracks, trackId), trackId) == Filtered(tracks, trackId)
  {
    Registry.RemoveByIdIdempotent(tracks, ClientTrackId, trackId);
  }

  /** Removal keeps exactly the tracks with another id. */
  lemma FilterMembers(tracks: seq<ClientTrack>, trackId: string, t: ClientTrack)
    ensures t in Filtered(tracks, trackId) <==> t in tracks && t.id != trackId
  {
    Registry.RemoveByIdMembers(tracks, ClientTrackId, trackId, t);
  }

  /** Saving then removing by the saved id removes every copy, older ones included. */
  lemma SaveThenRemove(tracks: seq<ClientTrack>, t: ClientTrack)
    ensures Filtered(Appended(tracks, t), t.id) == Filtered(tracks, t.id)
  {
    Registry.RemoveByIdConcat(tracks, [t], ClientTrackId, t.id);
    assert Registry.RemoveById([t], ClientTrackId, t.id) == [];
    assert Filtered(tracks, t.id) + [] == Filtered(tracks, t.id);
  }

  /** An update that supplies nothing leaves the user as it was. */
  lemma EmptyUpdateIsIdentity(prev: Option<ClientUser>)
    ensures Merged(prev, ProfileUpdate(None, None)) == prev
  {
  }

  /** The provider's state. */
  class UserProvider {
    var user: Option<ClientUser>
    var savedTracks: seq<ClientTrack>

    constructor ()
      ensures user.None? && savedTracks == []
    {
      user := None;
      savedTracks := [];
    }

    /** `isLoggedIn: !!user`. */
    function IsLoggedIn(): (b: bool)
      reads this
      ensures b <==> user.Some?
    {
      user.Some?
    }

    /** The mock `login`: a fresh id from the clock, the email's local part as the name, 120 credits. */
    method Login(email: string, now: nat)
      modifies this`user
      ensures user == Some(ClientUser("user_" + Decimal(now), BeforeFirst(email, '@'), email, MockLoginCredits))
    {
      user := Some(ClientUser("user_" + Decimal(now), BeforeFirst(email, '@'), email, MockLoginCredits));
    }

    /** The mock `signup`: the given name and email and 50 credits. */
    method Signup(name: string, email: string, now: nat)
      modifies this`user
      ensures user == Some(ClientUser("user_" + Decimal(now), name, email, MockSignupCredits))
    {
      user := Some(ClientUser("user_" + Decimal(now), name, email, MockSignupCredits));
    }

    method Logout()
      modifies this
      ensures user.None? && savedTracks == []
      ensures !IsLoggedIn()
    {
      user := None;
      savedTracks := [];
    }

    method DeductCredits(amount: int)
      modifies this`user
      ensures user == Deducted(old(user), amount)
    {
      user := Deducted(user, amount);
    }

    method AddCredits(amount: int)
      modifies this`user
      ensures user == Added(old(user), amount)
    {
      user := Added(user, amount);
    }

    method SaveTrack(track: ClientTrack)
      modifies this`savedTracks
      ensures savedTracks == Appended(old(savedTracks), track)
    {
      savedTracks := Appended(savedTracks, track);
    }

    method RemoveTrack(trackId: string)
      modifies this`savedTracks
      ensures savedTracks == Filtered(old(savedTracks), trackId)
    {
      savedTracks := Filtered(savedTracks, trackId);
    }

    method UpdateProfile(updates: ProfileUpdate)
      modifies this`user
      ensures user == Merged(old(user), updates)
    {
      user := Merged(user, updates);
    }
  }

  /** Two mock logins in different milliseconds give the same person two different ids. */
  lemma MockLoginIdsDiffer(t1: nat, t2: nat)
    requires t1 != t2
    ensures "user_" + Decimal(t1) != "user_" + Decimal(t2)
  {
    if "user_" + Decimal(t1) == "user_" + Decimal(t2) {
      assert ("user_" + Decimal(t1))[5..] == Decimal(t1);
      assert ("user_" + Decimal(t2))[5..] == Decimal(t2);
      DecimalInjective(t1, t2);
    }
  }
}
