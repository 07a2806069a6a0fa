/** The handlers of the profile API as operations on one store: the
    profile collection keyed by owner, the user records and the posts. Each
    request runs to completion before the next one starts. The caller id of
    the authenticated routes is the id the auth middleware attaches. */
module ProfileRoutes {
  import opened Wrappers
  import opened Profiles
  import JsArray

  /** Builds the `$set` document of `POST /api/profile` field by field, as
      the handler does. */
  method BuildProfileFields(caller: UserId, body: ProfileBody) returns (fields: ProfileFields)
    ensures fields == FieldsOf(caller, body)
  {
    fields := ProfileFields(caller, None, None, None, None, None, None, None,
                            Social(None, None, None, None, None));
    if body.company != "" { fields := fields.(company := Some(body.company)); }
    if body.website != "" { fields := fields.(website := Some(body.website)); }
    if body.bio != "" { fields := fields.(bio := Some(body.bio)); }
    if body.status != "" { fields := fields.(status := Some(body.status)); }
    if body.location != "" { fields := fields.(location := Some(body.location)); }
    if body.githubusername != "" { fields := fields.(githubusername := Some(body.githubusername)); }
    if body.skills != "" {
      fields := fields.(skills := Some(ParseSkills(body.skills)));
    }
    var social := BuildSocial(body);
    fields := fields.(social := social);
  }

  /** Builds the `social` sub-object: only the truthy links. */
  method BuildSocial(body: ProfileBody) returns (social: Social)
    ensures social == SocialOf(body)
  {
    social := Social(None, None, None, None, None);
    if body.youtube != "" { social := social.(youtube := Some(body.youtube)); }
    if body.facebook != "" { social := social.(facebook := Some(body.facebook)); }
    if body.twitter != "" { social := social.(twitter := Some(body.twitter)); }
    if body.instagram != "" { social := social.(instagram := Some(body.instagram)); }
    if body.linkedin != "" { social := social.(linkedin := Some(body.linkedin)); }
  }

  class ProfileStore {
    var profiles: map<UserId, Profile>
    var users: set<UserId>
    var posts: seq<Post>

    /** The store invariant: each profile sits under its owner's id, so a
        user has at most one profile. */
    ghost predicate Valid()
      reads this
    {
      KeyedByOwner(profiles)
    }

    constructor (users: set<UserId>, posts: seq<Post>)
      ensures Valid()
      ensures this.profiles == map[] && this.users == users && this.posts == posts
    {
      this.profiles := map[];
      this.users := users;
      this.posts := posts;
    }

    /** `GET /api/profile/me`. */
    method GetMine(caller: UserId) returns (r: Response)
      requires Valid()
      ensures caller in profiles ==> r == ProfileJson(profiles[caller]) && r.profile.user == caller
      ensures caller !in profiles ==> r == MessageJson(400, NoProfileForUser)
    {
      if caller !in profiles {
        return MessageJson(400, NoProfileForUser);
      }
      r := ProfileJson(profiles[caller]);
    }

    /** `POST /api/profile`: validate, build the `$set` document, then
        update the caller's profile if there is one and insert one if not. */
    method CreateOrUpdate(caller: UserId, body: ProfileBody) returns (r: Response)
      requires Valid()
      modifies this
      ensures Valid()
      ensures users == old(users) && posts == old(posts)
      ensures Failed(ProfileChecks(body)) != [] ==>
        r == ValidationErrors(Failed(ProfileChecks(body))) && r.Status() == 400 && profiles == old(profiles)
      ensures Failed(ProfileChecks(body)) == [] ==>
        && profiles == Upserted(old(profiles), caller, FieldsOf(caller, body))
        && caller in profiles
        && r == ProfileJson(profiles[caller])
    {
      var errors := Failed(ProfileChecks(body));
      if errors != [] {
        return ValidationErrors(errors);
      }
      var fields := BuildProfileFields(caller, body);
      UpsertedKeyedByOwner(profiles, caller, fields);
      if caller in profiles {
        var updated := ApplySet(profiles[caller], fields);
        profiles := profiles[caller := updated];
        return ProfileJson(updated);
      }
      var created := NewProfile(fields);
      profiles := profiles[caller := created];
      r := ProfileJson(created);
    }

    /** `GET /api/profile/user/:user_id`: a malformed id fails the cast, and
        the handler answers that exactly as it answers an id with no
        profile. */
    method GetByUserId(param: UserIdParam) returns (r: Response)
      requires Valid()
      ensures param.Malformed? ==> r == MessageJson(400, ProfileNotFound)
      ensures param.WellFormed? && param.id !in profiles ==> r == MessageJson(400, ProfileNotFound)
      ensures param.WellFormed? && param.id in profiles ==>
        r == ProfileJson(profiles[param.id]) && r.profile.user == param.id
    {
      match param
      case Malformed(_) =>
        r := MessageJson(400, ProfileNotFound);
      case WellFormed(id) =>
        if id !in profiles {
          return MessageJson(400, ProfileNotFound);
        }
        r := ProfileJson(profiles[id]);
    }

    /** `DELETE /api/profile`: the caller's posts, then the caller's
        profile, then the caller's user record. */
    method DeleteAccount(caller: UserId) returns (r: Response)
      requires Valid()
      modifies this
      ensures Valid()
      ensures posts == WithoutPostsOf(old(posts), caller)
      ensures profiles == old(profiles) - {caller}
      ensures users == old(users) - {caller}
      ensures caller !in profiles && caller !in users && forall p :: p in posts ==> p.user != caller
      ensures r == MessageJson(200, UserDeleted)
    {
      posts := WithoutPostsOf(posts, caller);
      profiles := profiles - {caller};
      users := users - {caller};
      r := MessageJson(200, UserDeleted);
    }

    /** `PUT /api/profile/experience`: validate, then put the new entry in
        front of the caller's experience list. Without a profile the handler
        dereferences null, and the catch answers 500. */
    method AddExperience(caller: UserId, body: ExperienceBody, newId: EntryId) returns (r: Response)
      requires Valid()
      modifies this
      ensures Valid()
      ensures users == old(users) && posts == old(posts)
      ensures Failed(ExperienceChecks(body)) != [] ==>
        r == ValidationErrors(Failed(ExperienceChecks(body))) && profiles == old(profiles)
      ensures Failed(ExperienceChecks(body)) == [] && caller !in old(profiles) ==>
        r == ServerError && profiles == old(profiles)
      ensures Failed(ExperienceChecks(body)) == [] && caller in old(profiles) ==>
        && profiles == old(profiles)[caller := old(profiles)[caller].(
             experience := [NewExperience(newId, body)] + old(profiles)[caller].experience)]
        && r == ProfileJson(profiles[caller])
    {
      var errors := Failed(ExperienceChecks(body));
      if errors != [] {
        return ValidationErrors(errors);
      }
      if caller !in profiles {
        return ServerError;
      }
      var profile := profiles[caller];
      profile := profile.(experience := [NewExperience(newId, body)] + profile.experience);
      profiles := profiles[caller := profile];
      r := ProfileJson(profile);
    }

    /** `DELETE /api/profile/experience/:exp_id`: splice out the entry at
        the id's index in the caller's experience list. */
    method RemoveExperience(caller: UserId, expId: EntryId) returns (r: Response)
      requires Valid()
      modifies this
      ensures Valid()
      ensures users == old(users) && posts == old(posts)
      ensures caller !in old(profiles) ==> r == ServerError && profiles == old(profiles)
      ensures caller in old(profiles) ==>
        && profiles == old(profiles)[caller := old(profiles)[caller].(
             experience := RemoveById(old(profiles)[caller].experience,
                                      Ids(old(profiles)[caller].experience, ExperienceId), expId))]
        && r == ProfileJson(profiles[caller])
    {
      if caller !in profiles {
        return ServerError;
      }
      var profile := profiles[caller];
      var removeIndex := JsArray.IndexOf(Ids(profile.experience, ExperienceId), expId);
      profile := profile.(experience := JsArray.SpliceOne(profile.experience, removeIndex));
      profiles := profiles[caller := profile];
      r := ProfileJson(profile);
    }

    /** `PUT /api/profile/education`: validate, then put the new entry in
        front of the caller's education list; 500 without a profile. */
    method AddEducation(caller: UserId, body: EducationBody, newId: EntryId) returns (r: Response)
      requires Valid()
      modifies this
      ensures Valid()
      ensures users == old(users) && posts == old(posts)
      ensures Failed(EducationChecks(body)) != [] ==>
        r == ValidationErrors(Failed(EducationChecks(body))) && profiles == old(profiles)
      ensures Failed(EducationChecks(body)) == [] && caller !in old(profiles) ==>
        r == ServerError && profiles == old(profiles)
      ensures Failed(EducationChecks(body)) == [] && caller in old(profiles) ==>
        && profiles == old(profiles)[caller := old(profiles)[caller].(
             education := [NewEducation(newId, body)] + old(profiles)[caller].education)]
        && r == ProfileJson(profiles[caller])
    {
      var errors := Failed(EducationChecks(body));
      if errors != [] {
        return ValidationErrors(errors);
      }
      if caller !in profiles {
        return ServerError;
      }
      var profile := profiles[caller];
      profile := profile.(education := [NewEducation(newId, body)] + profile.education);
      profiles := profiles[caller := profile];
      r := ProfileJson(profile);
    }

    /** `DELETE /api/profile/education/:edu_id`: splice out the entry at
        the id's index in the caller's education list. */
    method RemoveEducation(caller: UserId, eduId: EntryId) returns (r: Response)
      requires Valid()
      modifies this
      ensures Valid()
      ensures users == old(users) && posts == old(posts)
      ensures caller !in old(profiles) ==> r == ServerError && profiles == old(profiles)
      ensures caller in old(profiles) ==>
        && profiles == old(profiles)[caller := old(profiles)[caller].(
             education := RemoveById(old(profiles)[caller].education,
                                     Ids(old(profiles)[caller].education, EducationId), eduId))]
        && r == ProfileJson(profiles[caller])
    {
      if caller !in profiles {
        return ServerError;
      }
      var profile := profiles[caller];
      var removeIndex := JsArray.IndexOf(Ids(profile.education, EducationId), eduId);
      profile := profile.(education := JsArray.SpliceOne(profile.education, removeIndex));
      profiles := profiles[caller := profile];
      r := ProfileJson(profile);
    }
  }

  /** A client of the store: a second submission of the same profile leaves
      the store as the first one left it, and the caller keeps exactly one
      profile throughout. */
  method SubmitTwice(store: ProfileStore, caller: UserId, body: ProfileBody)
    requires store.Valid()
    requires Failed(ProfileChecks(body)) == []
    modifies store
    ensures store.Valid()
    ensures store.profiles == Upserted(old(store.profiles), caller, FieldsOf(caller, body))
    ensures store.users == old(store.users) && store.posts == old(store.posts)
  {
    var _ := store.CreateOrUpdate(caller, body);
    var _ := store.CreateOrUpdate(caller, body);
    UpsertedIdempotent(old(store.profiles), caller, FieldsOf(caller, body));
  }
}
