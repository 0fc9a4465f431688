/** The profile service (fastapi/profile_api.py): a module-level list
    `profiles_db` and the handlers that scan, append to, overwrite and pop
    from it. Generated ids (`uuid4`) and timestamps (`datetime.now()`) are
    parameters. */
module Profiles {
  import opened Common
  import opened Seqs
  import opened Text

  /** The body of POST /profiles/ (ProfileCreate). */
  datatype ProfileCreate = ProfileCreate(
    username: string, email: string, fullName: string, bio: Option<string>)

  /** The body of PUT /profiles/{id} (ProfileUpdate): each field was sent or
      not, and a sent field may be null. */
  datatype ProfileUpdate = ProfileUpdate(
    email: Field<Option<string>>, fullName: Field<Option<string>>, bio: Field<Option<string>>)

  /** A stored profile. `email` and `fullName` are strings when created;
      they are options because `copy(update=...)` does not validate, so an
      update that sends an explicit null stores None. */
  datatype Profile = Profile(
    id: string, username: string, email: Option<string>, fullName: Option<string>,
    bio: Option<string>, createdAt: string, updatedAt: string, links: map<string, string>)

  /** `ProfileBase.validate_email`, run on every create body. */
  function ValidateCreate(req: ProfileCreate): (r: Result<ProfileCreate>)
    ensures r.Err? <==> !(exists k :: 0 <= k < |req.email| && req.email[k] == '@')
    ensures r.Err? ==> r.error == ValidationError
    ensures r.Ok? ==> r.value == req
  {
    if '@' in req.email then Ok(req) else Err(ValidationError)
  }

  /** `ProfileUpdate.validate_email`: it runs only on a field the client sent
      and lets an explicit null through. */
  function ValidateUpdate(upd: ProfileUpdate): (r: Result<ProfileUpdate>)
    ensures r.Err? <==> upd.email.Set? && upd.email.value.Some? && '@' !in upd.email.value.value
    ensures r.Err? ==> r.error == ValidationError
    ensures r.Ok? ==> r.value == upd
  {
    match upd.email
    case Set(Some(e)) => if '@' in e then Ok(upd) else Err(ValidationError)
    case _ => Ok(upd)
  }

  /** The ids of a store, in store order. */
  function Ids(db: seq<Profile>): (ids: seq<string>)
    ensures |ids| == |db| && forall i :: 0 <= i < |db| ==> ids[i] == db[i].id
  {
    seq(|db|, i requires 0 <= i < |db| => db[i].id)
  }

  /** The lowercased usernames of a store, in store order: the keys that
      `get_profile_by_username` and the duplicate check compare. */
  function UsernameKeys(db: seq<Profile>): (keys: seq<string>)
    ensures |keys| == |db| && forall i :: 0 <= i < |db| ==> keys[i] == Lower(db[i].username)
  {
    seq(|db|, i requires 0 <= i < |db| => Lower(db[i].username))
  }

  /** What the service keeps true of `profiles_db`: ids are distinct, and no
      two usernames are equal ignoring case. */
  ghost predicate WellFormed(db: seq<Profile>) {
    Distinct(Ids(db)) && Distinct(UsernameKeys(db))
  }

  /** The record `create_profile` builds. */
  function NewProfile(req: ProfileCreate, id: string, now: string): (p: Profile)
    ensures p.id == id && p.username == req.username && p.bio == req.bio
    ensures p.email == Some(req.email) && p.fullName == Some(req.fullName)
    ensures p.createdAt == now && p.updatedAt == now
    ensures p.links == map["self" := "/profiles/" + req.username,
                           "messages" := "/messages/sender/" + req.username]
  {
    Profile(id, req.username, Some(req.email), Some(req.fullName), req.bio, now, now,
            map["self" := "/profiles/" + req.username,
                "messages" := "/messages/sender/" + req.username])
  }

  /** `profile.copy(update=update_data)` with `update_data` the sent fields
      plus `updated_at`. */
  function ApplyUpdate(p: Profile, upd: ProfileUpdate, now: string): (q: Profile)
    ensures q.id == p.id && q.username == p.username
    ensures q.createdAt == p.createdAt && q.links == p.links
    ensures q.updatedAt == now
    ensures q.email == (if upd.email.Set? then upd.email.value else p.email)
    ensures q.fullName == (if upd.fullName.Set? then upd.fullName.value else p.fullName)
    ensures q.bio == (if upd.bio.Set? then upd.bio.value else p.bio)
  {
    p.(email := Overlay(p.email, upd.email),
       fullName := Overlay(p.fullName, upd.fullName),
       bio := Overlay(p.bio, upd.bio),
       updatedAt := now)
  }

  /** Every stored email is present and contains `@`. */
  ghost predicate EmailsValid(db: seq<Profile>) {
    forall i :: 0 <= i < |db| ==> db[i].email.Some? && '@' in db[i].email.value
  }

  /** What the validators keep true of every step: a stored email that is
      present contains `@`. Only an explicit null update empties it. */
  ghost predicate PresentEmailsValid(db: seq<Profile>) {
    forall i :: 0 <= i < |db| ==> db[i].email.Some? ==> '@' in db[i].email.value
  }

  /** Every update the validator accepts, an explicit null email included,
      keeps every present email containing `@`. */
  lemma UpdateKeepsPresentEmailsValid(db: seq<Profile>, i: nat, upd: ProfileUpdate, now: string)
    requires PresentEmailsValid(db) && i < |db|
    requires ValidateUpdate(upd).Ok?
    ensures PresentEmailsValid(db[i := ApplyUpdate(db[i], upd, now)])
  {
  }

  /** Popping an entry keeps every present email containing `@`. */
  lemma RemoveAtKeepsPresentEmailsValid(db: seq<Profile>, i: nat)
    requires PresentEmailsValid(db) && i < |db|
    ensures PresentEmailsValid(RemoveAt(db, i))
  {
    var r := RemoveAt(db, i);
    forall j | 0 <= j < |r| && r[j].email.Some? ensures '@' in r[j].email.value {
      assert r[j] == if j < i then db[j] else db[j + 1];
    }
  }

  /** Replacing entry `i` by `q` leaves the id and username keys alone when
      `q` keeps that entry's id and username. */
  lemma ReplaceKeepsKeys(db: seq<Profile>, i: nat, q: Profile)
    requires i < |db| && q.id == db[i].id && q.username == db[i].username
    ensures Ids(db[i := q]) == Ids(db)
    ensures UsernameKeys(db[i := q]) == UsernameKeys(db)
  {
  }

  /** Popping entry `i` pops the same position from both key sequences. */
  lemma RemoveAtKeys(db: seq<Profile>, i: nat)
    requires i < |db|
    ensures Ids(RemoveAt(db, i)) == RemoveAt(Ids(db), i)
    ensures UsernameKeys(RemoveAt(db, i)) == RemoveAt(UsernameKeys(db), i)
  {
  }

  /** Appending `p` appends its id and lowercased username to the keys. */
  lemma AppendKeys(db: seq<Profile>, p: Profile)
    ensures Ids(db + [p]) == Ids(db) + [p.id]
    ensures UsernameKeys(db + [p]) == UsernameKeys(db) + [Lower(p.username)]
  {
  }

  /** In a well-formed store a username names at most one profile: a
      profile whose username matches ignoring case is the one
      `get_profile_by_username` returns. */
  lemma UsernameLookupIsUnique(db: seq<Profile>, i: nat, username: string)
    requires WellFormed(db) && i < |db|
    requires EqualsIgnoreCase(db[i].username, username)
    ensures IndexOf(UsernameKeys(db), Lower(username)) == Some(i)
  {
  }

  /** A profile that `create_profile` appended is found again by its id and
      by its username, in any case. */
  lemma CreatedProfileIsFound(db: seq<Profile>, req: ProfileCreate, id: string, now: string,
                              username: string)
    requires id !in Ids(db) && Lower(req.username) !in UsernameKeys(db)
    requires EqualsIgnoreCase(username, req.username)
    ensures IndexOf(Ids(db + [NewProfile(req, id, now)]), id) == Some(|db|)
    ensures IndexOf(UsernameKeys(db + [NewProfile(req, id, now)]), Lower(username)) == Some(|db|)
  {
  }

  /** In a well-formed store, once the profile with a given id is popped no
      entry carries that id any more: a second delete or get answers 404. */
  lemma DeletedProfileIsGone(db: seq<Profile>, id: string)
    requires WellFormed(db) && IndexOf(Ids(db), id).Some?
    ensures id !in Ids(RemoveAt(db, IndexOf(Ids(db), id).value))
  {
  }

  /** An update keeps every stored email valid, unless it sends an explicit
      null email, which the validator lets through. */
  lemma UpdateKeepsEmailsValid(db: seq<Profile>, i: nat, upd: ProfileUpdate, now: string)
    requires EmailsValid(db) && i < |db|
    requires ValidateUpdate(upd).Ok? && upd.email != Set(None)
    ensures EmailsValid(db[i := ApplyUpdate(db[i], upd, now)])
  {
  }

  /** An explicit null email passes validation and is stored as None. */
  lemma NullEmailIsStored(p: Profile, now: string)
    ensures ValidateUpdate(ProfileUpdate(Set(None), Unset, Unset)).Ok?
    ensures ApplyUpdate(p, ProfileUpdate(Set(None), Unset, Unset), now).email == None
  {
  }

  /** `profiles_db`, with one method per handler that touches it. */
  class ProfileStore {
    var profiles: seq<Profile>

    /** Distinct ids, usernames distinct ignoring case, and every present
        email containing `@`. */
    ghost predicate Valid()
      reads this
    {
      WellFormed(profiles) && PresentEmailsValid(profiles)
    }

    constructor ()
      ensures Valid() && profiles == []
    {
      profiles := [];
    }

    /** GET /profiles/{profile_id}: the first profile with that id, or 404. */
    method GetProfile(profileId: string) returns (r: Result<Profile>)
      ensures match IndexOf(Ids(profiles), profileId)
              case None => r == Err(NotFound)
              case Some(i) => r == Ok(profiles[i])
    {
      for i := 0 to |profiles|
        invariant forall j :: 0 <= j < i ==> profiles[j].id != profileId
      {
        if profiles[i].id == profileId {
          IndexOfIsFirst(Ids(profiles), profileId, i);
          return Ok(profiles[i]);
        }
      }
      return Err(NotFound);
    }

    /** GET /profiles/username/{username}: the first profile whose username
        equals `username` ignoring case, or 404. */
    method GetProfileByUsername(username: string) returns (r: Result<Profile>)
      ensures match IndexOf(UsernameKeys(profiles), Lower(username))
              case None => r == Err(NotFound)
              case Some(i) => r == Ok(profiles[i])
    {
      for i := 0 to |profiles|
        invariant forall j :: 0 <= j < i ==> Lower(profiles[j].username) != Lower(username)
      {
        if Lower(profiles[i].username) == Lower(username) {
          IndexOfIsFirst(UsernameKeys(profiles), Lower(username), i);
          return Ok(profiles[i]);
        }
      }
      return Err(NotFound);
    }

    /** POST /profiles/: rejects an email without `@` (422) and a username
        already present ignoring case (400); otherwise appends the new
        profile. `newId` stands for `uuid4()` and `now` for the creation time. */
    method CreateProfile(req: ProfileCreate, newId: string, now: string) returns (r: Result<Profile>)
      requires Valid()
      requires newId !in Ids(profiles)
      modifies this
      ensures Valid()
      ensures ValidateCreate(req).Err? ==>
                r == Err(ValidationError) && profiles == old(profiles)
      ensures ValidateCreate(req).Ok? && Lower(req.username) in UsernameKeys(old(profiles)) ==>
                r == Err(BadRequest) && profiles == old(profiles)
      ensures ValidateCreate(req).Ok? && Lower(req.username) !in UsernameKeys(old(profiles)) ==>
                r == Ok(NewProfile(req, newId, now)) && profiles == old(profiles) + [r.value]
    {
      var checked := ValidateCreate(req);
      if checked.Err? {
        return Err(checked.error);
      }
      for i := 0 to |profiles|
        invariant forall j :: 0 <= j < i ==> Lower(profiles[j].username) != Lower(req.username)
      {
        if Lower(profiles[i].username) == Lower(req.username) {
          return Err(BadRequest);
        }
      }
      var p := NewProfile(req, newId, now);
      AppendKeys(profiles, p);
      profiles := profiles + [p];
      return Ok(p);
    }

    /** PUT /profiles/{profile_id}: overlays the sent fields on the first
        profile with that id and stamps `updated_at`; 404 when no profile has
        that id. A sent email without `@` is rejected (422) first. */
    method UpdateProfile(profileId: string, upd: ProfileUpdate, now: string) returns (r: Result<Profile>)
      requires Valid()
      modifies this
      ensures Valid()
      ensures ValidateUpdate(upd).Err? ==>
                r == Err(ValidationError) && profiles == old(profiles)
      ensures ValidateUpdate(upd).Ok? ==>
                match IndexOf(Ids(old(profiles)), profileId)
                case None => r == Err(NotFound) && profiles == old(profiles)
                case Some(i) => r == Ok(ApplyUpdate(old(profiles)[i], upd, now)) &&
                                profiles == old(profiles)[i := r.value]
    {
      var checked := ValidateUpdate(upd);
      if checked.Err? {
        return Err(checked.error);
      }
      for i := 0 to |profiles|
        invariant forall j :: 0 <= j < i ==> profiles[j].id != profileId
      {
        if profiles[i].id == profileId {
          IndexOfIsFirst(Ids(profiles), profileId, i);
          var updated := ApplyUpdate(profiles[i], upd, now);
          ReplaceKeepsKeys(profiles, i, updated);
          profiles := profiles[i := updated];
          return Ok(updated);
        }
      }
      return Err(NotFound);
    }

    /** DELETE /profiles/{profile_id}: pops the first profile with that id and
        answers with its username; 404 when no profile has that id. */
    method DeleteProfile(profileId: string) returns (r: Result<string>)
      requires Valid()
      modifies this
      ensures Valid()
      ensures match IndexOf(Ids(old(profiles)), profileId)
              case None => r == Err(NotFound) && profiles == old(profiles)
              case Some(i) => r == Ok(old(profiles)[i].username) &&
                              profiles == RemoveAt(old(profiles), i)
    {
      for i := 0 to |profiles|
        invariant forall j :: 0 <= j < i ==> profiles[j].id != profileId
      {
        if profiles[i].id == profileId {
          IndexOfIsFirst(Ids(profiles), profileId, i);
          var deleted := profiles[i];
          RemoveAtKeys(profiles, i);
          RemoveAtKeepsPresentEmailsValid(profiles, i);
          RemoveAtKeepsDistinct(Ids(profiles), i);
          RemoveAtKeepsDistinct(UsernameKeys(profiles), i);
          profiles := RemoveAt(profiles, i);
          return Ok(deleted.username);
        }
      }
      return Err(NotFound);
    }
  }
}
