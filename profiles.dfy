/** The documents of the profile API (profile, social links, experience and
    education entries, posts), the request bodies its handlers read, the
    request validation, and the update document built by `POST /api/profile`
    together with how the store applies it. */
module Profiles {
  import opened Wrappers
  import JsString
  import JsArray

  type UserId = string
  type EntryId = string

  /** The `social` sub-object: each link set or absent. */
  datatype Social = Social(
    youtube: Option<string>,
    facebook: Option<string>,
    twitter: Option<string>,
    instagram: Option<string>,
    linkedin: Option<string>)

  /** An embedded experience entry; `id` is its sub-document id. Dates are
      kept as opaque strings. */
  datatype Experience = Experience(
    id: EntryId,
    company: string,
    title: string,
    location: string,
    from: string,
    to: string,
    current: bool,
    description: string)

  /** An embedded education entry. */
  datatype Education = Education(
    id: EntryId,
    school: string,
    degree: string,
    fieldofstudy: string,
    from: string,
    to: string,
    current: bool,
    description: string)

  /** A stored profile document. */
  datatype Profile = Profile(
    user: UserId,
    company: Option<string>,
    website: Option<string>,
    location: Option<string>,
    status: Option<string>,
    bio: Option<string>,
    githubusername: Option<string>,
    skills: seq<string>,
    social: Social,
    experience: seq<Experience>,
    education: seq<Education>)

  /** A post, as far as the account delete sees it: its owner. */
  datatype Post = Post(id: string, user: UserId)

  /** Request bodies. A string field that the request leaves out is "".
      The required-field checks and the truthiness tests that build the
      update document treat an absent field and an empty one alike. */
  datatype ProfileBody = ProfileBody(
    company: string,
    website: string,
    youtube: string,
    facebook: string,
    instagram: string,
    twitter: string,
    linkedin: string,
    skills: string,
    bio: string,
    status: string,
    githubusername: string,
    location: string)

  datatype ExperienceBody = ExperienceBody(
    company: string,
    title: string,
    location: string,
    from: string,
    to: string,
    current: bool,
    description: string)

  datatype EducationBody = EducationBody(
    school: string,
    degree: string,
    fieldofstudy: string,
    from: string,
    to: string,
    current: bool,
    description: string)

  /** The `:user_id` route parameter: either it casts to an object id or
      the cast fails. */
  datatype UserIdParam = WellFormed(id: UserId) | Malformed(raw: string)

  /** One itemised validation error. */
  datatype FieldError = FieldError(param: string, msg: string)

  /** What a handler sends back. */
  datatype Response =
    | ProfileJson(profile: Profile)
    | MessageJson(status: nat, msg: string)
    | ValidationErrors(errors: seq<FieldError>)
    | ServerError
  {
    /** The HTTP status of the response. */
    function Status(): nat
    {
      match this
      case ProfileJson(_) => 200
      case MessageJson(status, _) => status
      case ValidationErrors(_) => 400
      case ServerError => 500
    }
  }

  const NoProfileForUser := "There is no profile for this user"
  const ProfileNotFound := "Profile not found!"
  const UserDeleted := "User deleted"

  // ---------------------------------------------------------------------
  // Validation: check(param, msg).not().isEmpty()

  /** One required-field check: the parameter, the value the request gives
      for it, and the message reported when it is empty. */
  datatype Check = Check(param: string, value: string, msg: string)

  /** The errors of a list of required-field checks, in the order the
      checks are declared: one for each check whose value is empty. */
  function Failed(checks: seq<Check>): (errors: seq<FieldError>)
    ensures |errors| <= |checks|
    ensures errors == [] <==> forall i :: 0 <= i < |checks| ==> checks[i].value != ""
    ensures forall i :: 0 <= i < |checks| && checks[i].value == "" ==>
      FieldError(checks[i].param, checks[i].msg) in errors
    ensures forall e :: e in errors ==>
      exists i :: 0 <= i < |checks| && checks[i].value == "" && e == FieldError(checks[i].param, checks[i].msg)
  {
    if checks == [] then []
    else
      var rest := Failed(checks[1..]);
      var errors := Reported(checks[0]) + rest;
      assert forall i :: 1 <= i < |checks| ==> checks[i] == checks[1..][i - 1];
      errors
  }

  /** The error one check reports: none when its value is non-empty. */
  function Reported(c: Check): (errors: seq<FieldError>)
    ensures errors == [] <==> c.value != ""
    ensures errors != [] ==> errors == [FieldError(c.param, c.msg)]
  {
    if c.value == "" then [FieldError(c.param, c.msg)] else []
  }

  /** The errors of a list of checks followed by more checks are the errors
      of the first list followed by those of the second: each failing check
      is reported once, at its place in the declaration order. */
  lemma {:induction false} FailedConcat(a: seq<Check>, b: seq<Check>)
    ensures Failed(a + b) == Failed(a) + Failed(b)
  {
    if a != [] {
      assert (a + b)[0] == a[0];
      assert (a + b)[1..] == a[1..] + b;
      FailedConcat(a[1..], b);
    } else {
      assert a + b == b;
    }
  }

  /** One check on its own reports its own error, if any. */
  lemma FailedSingle(c: Check)
    ensures Failed([c]) == Reported(c)
  {
    assert [c][1..] == [];
  }

  /** Three checks report their errors in their order. */
  lemma FailedOfThree(c0: Check, c1: Check, c2: Check)
    ensures Failed([c0, c1, c2]) == Reported(c0) + Reported(c1) + Reported(c2)
  {
    assert [c0, c1, c2] == [c0, c1] + [c2];
    assert [c0, c1] == [c0] + [c1];
    FailedConcat([c0, c1], [c2]);
    FailedConcat([c0], [c1]);
    FailedSingle(c0);
    FailedSingle(c1);
    FailedSingle(c2);
  }

  /** Four checks report their errors in their order. */
  lemma FailedOfFour(c0: Check, c1: Check, c2: Check, c3: Check)
    ensures Failed([c0, c1, c2, c3]) == Reported(c0) + Reported(c1) + Reported(c2) + Reported(c3)
  {
    assert [c0, c1, c2, c3] == [c0, c1, c2] + [c3];
    FailedConcat([c0, c1, c2], [c3]);
    FailedOfThree(c0, c1, c2);
    FailedSingle(c3);
  }

  /** `POST /api/profile` requires status, then skills; each check reads
      the body field its parameter names. */
  function ProfileChecks(body: ProfileBody): (checks: seq<Check>)
    ensures |checks| == 2
    ensures checks[0].param == "status" && checks[0].value == body.status
    ensures checks[1].param == "skills" && checks[1].value == body.skills
  {
    [ Check("status", body.status, "Status is required"),
      Check("skills", body.skills, "Skills is required") ]
  }

  /** `PUT /api/profile/experience` requires company, title and from, in
      that order. */
  function ExperienceChecks(body: ExperienceBody): (checks: seq<Check>)
    ensures |checks| == 3
    ensures checks[0].param == "company" && checks[0].value == body.company
    ensures checks[1].param == "title" && checks[1].value == body.title
    ensures checks[2].param == "from" && checks[2].value == body.from
  {
    [ Check("company", body.company, "Company is required"),
      Check("title", body.title, "Title is required"),
      Check("from", body.from, "From date is required") ]
  }

  /** `PUT /api/profile/education` requires school, degree, field of study
      and from, in that order. */
  function EducationChecks(body: EducationBody): (checks: seq<Check>)
    ensures |checks| == 4
    ensures checks[0].param == "school" && checks[0].value == body.school
    ensures checks[1].param == "degree" && checks[1].value == body.degree
    ensures checks[2].param == "fieldofstudy" && checks[2].value == body.fieldofstudy
    ensures checks[3].param == "from" && checks[3].value == body.from
  {
    [ Check("school", body.school, "School name is required"),
      Check("degree", body.degree, "The degree  is required"),
      Check("fieldofstudy", body.fieldofstudy, "Field of study is required"),
      Check("from", body.from, "From date is required") ]
  }

  /** A profile submission is rejected exactly when status or skills is
      empty, and each empty one is reported, status first. */
  lemma ProfileValidation(body: ProfileBody)
    ensures Failed(ProfileChecks(body)) == [] <==> body.status != "" && body.skills != ""
    ensures body.status == "" && body.skills == "" ==>
      Failed(ProfileChecks(body)) == [FieldError("status", "Status is required"), FieldError("skills", "Skills is required")]
    ensures body.status == "" && body.skills != "" ==>
      Failed(ProfileChecks(body)) == [FieldError("status", "Status is required")]
    ensures body.status != "" && body.skills == "" ==>
      Failed(ProfileChecks(body)) == [FieldError("skills", "Skills is required")]
  {
  }

  /** An experience entry is rejected exactly when company, title or from
      is empty; the errors are those of the empty fields, once each, in that
      order. */
  lemma ExperienceValidation(body: ExperienceBody)
    ensures Failed(ExperienceChecks(body)) == [] <==> body.company != "" && body.title != "" && body.from != ""
    ensures Failed(ExperienceChecks(body)) ==
      (if body.company == "" then [FieldError("company", "Company is required")] else []) +
      (if body.title == "" then [FieldError("title", "Title is required")] else []) +
      (if body.from == "" then [FieldError("from", "From date is required")] else [])
  {
    var checks := ExperienceChecks(body);
    FailedOfThree(checks[0], checks[1], checks[2]);
  }

  /** An education entry is rejected exactly when school, degree, field of
      study or from is empty; the errors are those of the empty fields, once
      each, in that order. */
  lemma EducationValidation(body: EducationBody)
    ensures Failed(EducationChecks(body)) == [] <==>
      body.school != "" && body.degree != "" && body.fieldofstudy != "" && body.from != ""
    ensures Failed(EducationChecks(body)) ==
      (if body.school == "" then [FieldError("school", "School name is required")] else []) +
      (if body.degree == "" then [FieldError("degree", "The degree  is required")] else []) +
      (if body.fieldofstudy == "" then [FieldError("fieldofstudy", "Field of study is required")] else []) +
      (if body.from == "" then [FieldError("from", "From date is required")] else [])
  {
    var checks := EducationChecks(body);
    FailedOfFour(checks[0], checks[1], checks[2], checks[3]);
  }

  // ---------------------------------------------------------------------
  // The skills list

  /** `skills.split(',').map((skill) => skill.trim())`: one entry more than
      the string has commas, each the comma-separated piece at its position
      with the whitespace at its two ends removed, so none has whitespace at
      either end and none holds a comma. */
  function ParseSkills(skills: string): (list: seq<string>)
    ensures |list| == JsString.Count(skills, ',') + 1
    ensures forall i :: 0 <= i < |list| ==> JsString.IsTrimOf(JsString.Split(skills, ',')[i], list[i])
    ensures forall i :: 0 <= i < |list| ==> JsString.IsTrimmed(list[i]) && ',' !in list[i]
  {
    var pieces := JsString.Split(skills, ',');
    seq(|pieces|, i requires 0 <= i < |pieces| => JsString.Trim(pieces[i]))
  }

  /** When no piece has whitespace at its ends, the skills list joins back
      into the submitted string. */
  lemma ParseSkillsJoin(skills: string)
    requires forall i :: 0 <= i < |JsString.Split(skills, ',')| ==> JsString.IsTrimmed(JsString.Split(skills, ',')[i])
    ensures JsString.Join(ParseSkills(skills), ',') == skills
  {
    var pieces := JsString.Split(skills, ',');
    forall i | 0 <= i < |pieces| ensures JsString.Trim(pieces[i]) == pieces[i] {
      JsString.TrimIdempotent(pieces[i]);
    }
    assert ParseSkills(skills) == pieces;
    JsString.JoinSplit(skills, ',');
  }

  /** The worked example: "js, node, react" gives ["js", "node", "react"]. */
  lemma ParseSkillsExample()
    ensures ParseSkills("js, node, react") == ["js", "node", "react"]
  {
    assert "js, node, react" == "js" + ", " + "node" + ", " + "react";
    ParseSkillsOfThree("js", "node", "react");
  }

  /** Three trimmed, comma-free words separated by ", " parse back into
      those three words. */
  lemma ParseSkillsOfThree(a: string, b: string, c: string)
    requires ',' !in a && ',' !in b && ',' !in c
    requires JsString.IsTrimmed(a) && JsString.IsTrimmed(b) && JsString.IsTrimmed(c)
    ensures ParseSkills(a + ", " + b + ", " + c) == [a, b, c]
  {
    var b', c' := [' '] + b, [' '] + c;
    var s := a + ", " + b + ", " + c;
    assert s == a + [','] + b' + [','] + c';
    SplitOfThree(a, b', c');
    var list := ParseSkills(s);
    assert |list| == 3;
    assert list[0] == a by { JsString.TrimIdempotent(a); }
    assert list[1] == b by { TrimsLeadingSpace(b); }
    assert list[2] == c by { TrimsLeadingSpace(c); }
    SeqOfThree(list, a, b, c);
  }

  /** Three comma-free pieces joined by commas split back into them. */
  lemma SplitOfThree(a: string, b: string, c: string)
    requires ',' !in a && ',' !in b && ',' !in c
    ensures JsString.Split(a + [','] + b + [','] + c, ',') == [a, b, c]
  {
    assert a + [','] + b + [','] + c == a + [','] + (b + [','] + c);
    JsString.SplitSeparatorFree(c, ',');
    JsString.SplitLeadingPiece(b, c, ',');
    JsString.SplitLeadingPiece(a, b + [','] + c, ',');
  }

  /** A sequence of length three is the display of its elements. */
  lemma SeqOfThree<T>(list: seq<T>, a: T, b: T, c: T)
    requires |list| == 3 && list[0] == a && list[1] == b && list[2] == c
    ensures list == [a, b, c]
  {
  }

  /** One leading space is trimmed off a word that has no whitespace at
      either end. */
  lemma TrimsLeadingSpace(word: string)
    requires JsString.IsTrimmed(word)
    ensures JsString.Trim([' '] + word) == word
  {
    var s := [' '] + word;
    assert s[1..] == word;
    assert JsString.IsWhitespace(s[0]);
    assert JsString.TrimStart(s) == JsString.TrimStart(word);
    assert JsString.TrimStart(word) == word;
    assert JsString.TrimEnd(word) == word;
  }

  // ---------------------------------------------------------------------
  // The update document

  /** The `$set` document of a profile submission: the caller's id, each
      top-level field only when truthy, the skills list when the skills
      string is non-empty, and the social sub-object always. */
  datatype ProfileFields = ProfileFields(
    user: UserId,
    company: Option<string>,
    website: Option<string>,
    bio: Option<string>,
    status: Option<string>,
    location: Option<string>,
    githubusername: Option<string>,
    skills: Option<seq<string>>,
    social: Social)

  /** A JavaScript string is truthy exactly when it is non-empty. */
  function Truthy(s: string): (o: Option<string>)
    ensures o == None <==> s == ""
    ensures o.Some? ==> o.value == s
  {
    if s != "" then Some(s) else None
  }

  /** The `$set` document a submission produces for `caller`. */
  function FieldsOf(caller: UserId, body: ProfileBody): (f: ProfileFields)
    ensures f.user == caller
    ensures f.company == Truthy(body.company) && f.website == Truthy(body.website)
    ensures f.bio == Truthy(body.bio) && f.status == Truthy(body.status)
    ensures f.location == Truthy(body.location) && f.githubusername == Truthy(body.githubusername)
    ensures f.skills == None <==> body.skills == ""
    ensures f.skills.Some? ==> f.skills.value == ParseSkills(body.skills)
    ensures f.social == SocialOf(body)
  {
    ProfileFields(
      caller,
      Truthy(body.company),
      Truthy(body.website),
      Truthy(body.bio),
      Truthy(body.status),
      Truthy(body.location),
      Truthy(body.githubusername),
      if body.skills != "" then Some(ParseSkills(body.skills)) else None,
      SocialOf(body))
  }

  /** The `social` sub-object of a submission: the truthy links only. */
  function SocialOf(body: ProfileBody): (social: Social)
    ensures social.youtube == Truthy(body.youtube) && social.facebook == Truthy(body.facebook)
    ensures social.twitter == Truthy(body.twitter) && social.instagram == Truthy(body.instagram)
    ensures social.linkedin == Truthy(body.linkedin)
  {
    Social(Truthy(body.youtube), Truthy(body.facebook), Truthy(body.twitter),
           Truthy(body.instagram), Truthy(body.linkedin))
  }

  /** `$set` of one optional field: set when present, kept otherwise. */
  function SetIfPresent(stored: Option<string>, given: Option<string>): Option<string>
  {
    if given.Some? then given else stored
  }

  /** `findOneAndUpdate(..., { $set: fields })` applied to a stored profile:
      every present field overwrites, absent fields keep their value,
      `social` is replaced as a whole, the entry lists are untouched. */
  function ApplySet(p: Profile, f: ProfileFields): (q: Profile)
    ensures q.user == f.user && q.social == f.social
    ensures f.company.Some? ==> q.company == f.company
    ensures f.company.None? ==> q.company == p.company
    ensures f.website.Some? ==> q.website == f.website
    ensures f.website.None? ==> q.website == p.website
    ensures f.bio.Some? ==> q.bio == f.bio
    ensures f.bio.None? ==> q.bio == p.bio
    ensures f.status.Some? ==> q.status == f.status
    ensures f.status.None? ==> q.status == p.status
    ensures f.location.Some? ==> q.location == f.location
    ensures f.location.None? ==> q.location == p.location
    ensures f.githubusername.Some? ==> q.githubusername == f.githubusername
    ensures f.githubusername.None? ==> q.githubusername == p.githubusername
    ensures f.skills.Some? ==> q.skills == f.skills.value
    ensures f.skills.None? ==> q.skills == p.skills
    ensures q.experience == p.experience && q.education == p.education
  {
    p.(user := f.user,
       company := SetIfPresent(p.company, f.company),
       website := SetIfPresent(p.website, f.website),
       bio := SetIfPresent(p.bio, f.bio),
       status := SetIfPresent(p.status, f.status),
       location := SetIfPresent(p.location, f.location),
       githubusername := SetIfPresent(p.githubusername, f.githubusername),
       skills := if f.skills.Some? then f.skills.value else p.skills,
       social := f.social)
  }

  /** `new Profile(fields)`: absent fields absent, no skills when none were
      given, empty entry lists. */
  function NewProfile(f: ProfileFields): (q: Profile)
    ensures q.user == f.user && q.social == f.social
    ensures q.company == f.company && q.website == f.website && q.bio == f.bio
    ensures q.status == f.status && q.location == f.location && q.githubusername == f.githubusername
    ensures q.skills == (if f.skills.Some? then f.skills.value else [])
    ensures q.experience == [] && q.education == []
  {
    Profile(f.user, f.company, f.website, f.location, f.status, f.bio, f.githubusername,
            if f.skills.Some? then f.skills.value else [], f.social, [], [])
  }

  /** On update, a field the submission leaves empty keeps its stored
      value and a truthy one replaces it; the owner becomes the caller; the
      social links are exactly the submitted ones (so a missing link is
      cleared); the experience and education lists are untouched. */
  lemma UpdateFromSubmission(p: Profile, caller: UserId, body: ProfileBody)
    ensures var q := ApplySet(p, FieldsOf(caller, body));
      && q.user == caller
      && q.company == (if body.company == "" then p.company else Some(body.company))
      && q.website == (if body.website == "" then p.website else Some(body.website))
      && q.bio == (if body.bio == "" then p.bio else Some(body.bio))
      && q.status == (if body.status == "" then p.status else Some(body.status))
      && q.location == (if body.location == "" then p.location else Some(body.location))
      && q.githubusername == (if body.githubusername == "" then p.githubusername else Some(body.githubusername))
      && q.skills == (if body.skills == "" then p.skills else ParseSkills(body.skills))
      && q.social.youtube == (if body.youtube == "" then None else Some(body.youtube))
      && q.social.facebook == (if body.facebook == "" then None else Some(body.facebook))
      && q.social.twitter == (if body.twitter == "" then None else Some(body.twitter))
      && q.social.instagram == (if body.instagram == "" then None else Some(body.instagram))
      && q.social.linkedin == (if body.linkedin == "" then None else Some(body.linkedin))
      && q.experience == p.experience
      && q.education == p.education
  {
  }

  /** On insert, the new profile belongs to the caller, holds exactly the
      truthy submitted fields and links with their submitted values, and
      starts with no entries. */
  lemma InsertFromSubmission(caller: UserId, body: ProfileBody)
    ensures var q := NewProfile(FieldsOf(caller, body));
      && q.user == caller
      && q.company == (if body.company == "" then None else Some(body.company))
      && q.website == (if body.website == "" then None else Some(body.website))
      && q.bio == (if body.bio == "" then None else Some(body.bio))
      && q.status == (if body.status == "" then None else Some(body.status))
      && q.location == (if body.location == "" then None else Some(body.location))
      && q.githubusername == (if body.githubusername == "" then None else Some(body.githubusername))
      && q.skills == (if body.skills == "" then [] else ParseSkills(body.skills))
      && q.social.youtube == (if body.youtube == "" then None else Some(body.youtube))
      && q.social.facebook == (if body.facebook == "" then None else Some(body.facebook))
      && q.social.twitter == (if body.twitter == "" then None else Some(body.twitter))
      && q.social.instagram == (if body.instagram == "" then None else Some(body.instagram))
      && q.social.linkedin == (if body.linkedin == "" then None else Some(body.linkedin))
      && q.experience == [] && q.education == []
  {
  }

  /** An update and an insert of the same document store the same values
      for everything the document sets; they differ only in the fields it
      leaves out (kept on update, absent on insert) and the entry lists. */
  lemma UpdateAgreesWithInsert(p: Profile, f: ProfileFields)
    ensures var u, n := ApplySet(p, f), NewProfile(f);
      && u.user == n.user && u.social == n.social
      && (f.company.Some? ==> u.company == n.company)
      && (f.website.Some? ==> u.website == n.website)
      && (f.bio.Some? ==> u.bio == n.bio)
      && (f.status.Some? ==> u.status == n.status)
      && (f.location.Some? ==> u.location == n.location)
      && (f.githubusername.Some? ==> u.githubusername == n.githubusername)
      && (f.skills.Some? ==> u.skills == n.skills)
  {
  }

  /** Submitting the same profile twice has the same effect as once. */
  lemma ApplySetIdempotent(p: Profile, f: ProfileFields)
    ensures ApplySet(ApplySet(p, f), f) == ApplySet(p, f)
    ensures ApplySet(NewProfile(f), f) == NewProfile(f)
  {
  }

  // ---------------------------------------------------------------------
  // The profile collection

  /** Every profile is stored under its owner's id. */
  ghost predicate KeyedByOwner(profiles: map<UserId, Profile>)
  {
    forall u :: u in profiles ==> profiles[u].user == u
  }

  /** Create-or-update of `caller`'s profile with the `$set` document `f`:
      the existing profile is updated, or else a new one is inserted. */
  function Upserted(profiles: map<UserId, Profile>, caller: UserId, f: ProfileFields): (r: map<UserId, Profile>)
    ensures caller in r
    ensures caller in profiles ==> r[caller] == ApplySet(profiles[caller], f)
    ensures caller !in profiles ==> r[caller] == NewProfile(f)
    ensures forall u :: u != caller ==> (u in r <==> u in profiles)
    ensures forall u :: u != caller && u in r ==> r[u] == profiles[u]
  {
    if caller in profiles then profiles[caller := ApplySet(profiles[caller], f)]
    else profiles[caller := NewProfile(f)]
  }

  /** After create-or-update the caller has a profile (one new key at most),
      and every other user's profile is unchanged. */
  lemma UpsertedShape(profiles: map<UserId, Profile>, caller: UserId, f: ProfileFields)
    ensures var r := Upserted(profiles, caller, f);
      && caller in r
      && r.Keys == profiles.Keys + {caller}
      && |r| == (if caller in profiles then |profiles| else |profiles| + 1)
      && (forall u :: u in profiles && u != caller ==> r[u] == profiles[u])
  {
  }

  /** Create-or-update keeps every profile under its owner's id, as long as
      the update document names the caller as owner. */
  lemma UpsertedKeyedByOwner(profiles: map<UserId, Profile>, caller: UserId, f: ProfileFields)
    requires KeyedByOwner(profiles) && f.user == caller
    ensures KeyedByOwner(Upserted(profiles, caller, f))
  {
  }

  /** Repeating a create-or-update changes nothing more. */
  lemma UpsertedIdempotent(profiles: map<UserId, Profile>, caller: UserId, f: ProfileFields)
    ensures Upserted(Upserted(profiles, caller, f), caller, f) == Upserted(profiles, caller, f)
  {
    ApplySetIdempotent(if caller in profiles then profiles[caller] else NewProfile(f), f);
  }

  // ---------------------------------------------------------------------
  // Posts

  /** `Post.deleteMany({ user })`: the posts of other users, in order. */
  function WithoutPostsOf(posts: seq<Post>, user: UserId): (kept: seq<Post>)
    ensures forall p :: p in kept ==> p in posts && p.user != user
    ensures forall p :: p in posts && p.user != user ==> p in kept
  {
    if posts == [] then []
    else if posts[0].user == user then WithoutPostsOf(posts[1..], user)
    else [posts[0]] + WithoutPostsOf(posts[1..], user)
  }

  /** The posts of `user`, in order. */
  function PostsOf(posts: seq<Post>, user: UserId): seq<Post>
  {
    if posts == [] then []
    else if posts[0].user == user then [posts[0]] + PostsOf(posts[1..], user)
    else PostsOf(posts[1..], user)
  }

  /** Deleting `user`'s posts leaves none of them, and leaves every other
      user's posts exactly as they were, in the same order. */
  lemma {:induction false} WithoutPostsOfKeepsOthers(posts: seq<Post>, user: UserId, other: UserId)
    ensures PostsOf(WithoutPostsOf(posts, user), user) == []
    ensures other != user ==> PostsOf(WithoutPostsOf(posts, user), other) == PostsOf(posts, other)
  {
    if posts != [] {
      WithoutPostsOfKeepsOthers(posts[1..], user, other);
      var rest := WithoutPostsOf(posts[1..], user);
      if posts[0].user != user {
        assert ([posts[0]] + rest)[1..] == rest;
      }
    }
  }

  // ---------------------------------------------------------------------
  // Embedded entry lists

  /** `list.map((item) => item.id)`: the ids of the entries, position by
      position. */
  function Ids<T>(entries: seq<T>, idOf: T -> EntryId): (ids: seq<EntryId>)
    ensures |ids| == |entries|
    ensures forall i :: 0 <= i < |entries| ==> ids[i] == idOf(entries[i])
  {
    seq(|entries|, i requires 0 <= i < |entries| => idOf(entries[i]))
  }

  function ExperienceId(e: Experience): EntryId
  {
    e.id
  }

  function EducationId(e: Education): EntryId
  {
    e.id
  }

  /** `list.splice(list.map((item) => item.id).indexOf(id), 1)`, where `ids`
      are the ids of `entries`, position by position. */
  function RemoveById<T>(entries: seq<T>, ids: seq<EntryId>, id: EntryId): (kept: seq<T>)
    requires |ids| == |entries|
    ensures |kept| == (if entries == [] then 0 else |entries| - 1)
    ensures multiset(kept) <= multiset(entries)
  {
    JsArray.SpliceOne(entries, JsArray.IndexOf(ids, id))
  }

  /** When the id is present, exactly the first entry carrying it is
      removed and the others keep their order. */
  lemma RemoveByIdPresent<T>(entries: seq<T>, ids: seq<EntryId>, id: EntryId)
    requires |ids| == |entries| && id in ids
    ensures var i := JsArray.IndexOf(ids, id);
      && 0 <= i < |entries| && ids[i] == id && id !in ids[..i]
      && RemoveById(entries, ids, id) == entries[..i] + entries[i + 1..]
      && |RemoveById(entries, ids, id)| == |entries| - 1
      && multiset(RemoveById(entries, ids, id)) + multiset{entries[i]} == multiset(entries)
  {
    JsArray.SpliceOneAt(entries, JsArray.IndexOf(ids, id));
  }

  /** When the id is absent from a non-empty list, `indexOf` gives -1 and
      `splice(-1, 1)` removes the LAST entry. */
  lemma RemoveByIdAbsent<T>(entries: seq<T>, ids: seq<EntryId>, id: EntryId)
    requires |ids| == |entries| && id !in ids && entries != []
    ensures RemoveById(entries, ids, id) == entries[..|entries| - 1]
  {
    JsArray.SpliceOneMinusOne(entries);
  }

  /** An empty list stays empty. */
  lemma RemoveByIdEmpty<T>(entries: seq<T>, ids: seq<EntryId>, id: EntryId)
    requires |ids| == |entries| && entries == []
    ensures RemoveById(entries, ids, id) == []
  {
  }

  /** The entry a valid experience submission adds: the new id and every
      submitted field as given. */
  function NewExperience(id: EntryId, body: ExperienceBody): (e: Experience)
    ensures e.id == id && e.company == body.company && e.title == body.title
    ensures e.location == body.location && e.from == body.from && e.to == body.to
    ensures e.current == body.current && e.description == body.description
  {
    Experience(id, body.company, body.title, body.location, body.from, body.to, body.current, body.description)
  }

  /** The entry a valid education submission adds: the new id and every
      submitted field as given. */
  function NewEducation(id: EntryId, body: EducationBody): (e: Education)
    ensures e.id == id && e.school == body.school && e.degree == body.degree
    ensures e.fieldofstudy == body.fieldofstudy && e.from == body.from && e.to == body.to
    ensures e.current == body.current && e.description == body.description
  {
    Education(id, body.school, body.degree, body.fieldofstudy, body.from, body.to, body.current, body.description)
  }
}
