# DevConnector profile API, modelled in Dafny

This project models the profile-management routes of DevConnector's REST API
(`routes/api/profile.js`, an Express router over Mongoose models). The
document store becomes plain state: a map from user id to profile document,
a set of user ids and a list of posts tagged with their owner. Each route
handler becomes one sequential operation on that state, and it returns a
response value (`Profiles.Response`) instead of writing to an HTTP response.

Files:

- `wrappers.dfy`: `Option`.
- `js_string.dfy` (module `JsString`): `String.prototype.split` with a
  one-character separator, with `join` as its inverse, and
  `String.prototype.trim` with the ECMAScript whitespace set.
- `js_array.dfy` (module `JsArray`): `Array.prototype.indexOf` and
  `Array.prototype.splice(start, 1)`, including the negative-start rule.
- `profiles.dfy` (module `Profiles`): the documents, the request bodies, the
  required-field validation, the skills parsing, the `$set` update document
  and how it is applied, create-or-update, the post cascade, and
  remove-by-id on the embedded lists.
- `profile_routes.dfy` (module `ProfileRoutes`): the class `ProfileStore`.
  Its fields are `profiles`, `users` and `posts`. It has one method per
  route, and each method's `modifies`/`ensures` clauses give the new state.
  `BuildProfileFields` builds the update document field by field, as the
  handler does.

Behaviour kept as written:

- The remove-by-id routes look up the index with
  `map((item) => item.id).indexOf(id)` and then call `splice(index, 1)`.
  When the id is not in the list, `indexOf` gives -1, and `splice(-1, 1)`
  removes the last entry of a non-empty list. The model keeps this, and
  `Profiles.RemoveByIdAbsent` proves it. Only the first entry carrying the
  id is removed, not every entry carrying it.
- The `social` sub-object is rebuilt from the request on every submission
  and written with `$set` as a whole. So an update clears every social link
  the request leaves out, while top-level fields that the request leaves
  empty keep their stored values.
- When the caller has no profile, adding or removing an entry dereferences
  null. The handler's catch turns that into a 500 and nothing changes.

## Model

| member | source | states |
|---|---|---|
| `JsString.Split` | routes/api/profile.js:68 | `split(',')` gives one piece more than the string has separators, and no piece contains the separator |
| `JsString.JoinSplit` | routes/api/profile.js:68 | joining the pieces of a split with the separator gives back the original string |
| `JsString.SplitJoin` | routes/api/profile.js:68 | splitting a join of separator-free pieces gives back exactly those pieces (the other half of the round trip) |
| `JsString.TrimStart` | routes/api/profile.js:68 | the result is a suffix of the input, what it drops is all whitespace, and it does not start with whitespace |
| `JsString.TrimEnd` | routes/api/profile.js:68 | the result is a prefix of the input, what it drops is all whitespace, and it does not end with whitespace |
| `JsString.Trim` | routes/api/profile.js:68 | `trim()` gives the input with only the whitespace at its two ends removed (an infix of the input with all-whitespace text before and after it), and the result has whitespace at neither end |
| `JsString.TrimUnique` | routes/api/profile.js:68 | two trimmed strings that are both the input with only end whitespace removed are equal, so the trim of a string is unique |
| `JsString.TrimIsTheTrimOf` | routes/api/profile.js:68 | every string that is a trim of the input is `trim()` of it |
| `JsString.TrimIdempotent` | routes/api/profile.js:68 | a string with no whitespace at its ends is left unchanged by `trim()` |
| `JsArray.IndexOf` | routes/api/profile.js:186-188 | `indexOf` is -1 exactly when the id is absent; otherwise it is the first position that holds the id |
| `JsArray.SpliceStart` | routes/api/profile.js:190 | `splice` starts at `start` when it lies in the array, counts a negative start back from the end, starts at 0 when that count goes below the front, and at the end when `start` is past it |
| `JsArray.SpliceOne` | routes/api/profile.js:190 | `splice(start, 1)` removes one element exactly when the array is non-empty and `start` is below its length, and never adds an element |
| `JsArray.SpliceOneAt` | routes/api/profile.js:190 | `splice(i, 1)` at an index inside the array removes exactly that element and keeps the rest in order (same multiset minus that element) |
| `JsArray.SpliceOneMinusOne` | routes/api/profile.js:190 | `splice(-1, 1)` on a non-empty array removes its last element |
| `JsArray.SpliceOneEmpty` | routes/api/profile.js:190 | `splice` on an empty array removes nothing |
| `Profiles.Failed` | routes/api/profile.js:37-41 | the itemised errors: no errors exactly when every required value is non-empty; each empty field is reported with its message; every error comes from an empty field |
| `Profiles.Reported` | routes/api/profile.js:37-41 | one check reports no error when its value is non-empty, and otherwise exactly its parameter and message |
| `Profiles.FailedConcat` | routes/api/profile.js:37-41 | the errors of two lists of checks in a row are the errors of the first followed by those of the second, so errors come once each, in declaration order |
| `Profiles.ProfileChecks` | routes/api/profile.js:32-33 | the profile route requires status, then skills; each check reads the body field its parameter names |
| `Profiles.ExperienceChecks` | routes/api/profile.js:146-148 | the experience route requires company, title and from, in that order |
| `Profiles.EducationChecks` | routes/api/profile.js:204-207 | the education route requires school, degree, field of study and from, in that order |
| `Profiles.ProfileValidation` | routes/api/profile.js:32-41 | a profile submission is rejected exactly when status or skills is empty; each empty one is listed, status before skills, with the source's messages |
| `Profiles.ExperienceValidation` | routes/api/profile.js:146-156 | an experience entry is rejected exactly when company, title or from is empty; the errors are those of the empty fields, once each, in that order, with the source's messages |
| `Profiles.EducationValidation` | routes/api/profile.js:204-215 | an education entry is rejected exactly when school, degree, field of study or from is empty; the errors are those of the empty fields, once each, in that order, with the source's messages |
| `Profiles.ParseSkills` | routes/api/profile.js:67-69 | the skills list has one entry more than the string has commas; entry i is the i-th comma-separated piece with only the whitespace at its ends removed, so no entry has whitespace at either end or contains a comma |
| `Profiles.ParseSkillsJoin` | routes/api/profile.js:68 | when no piece has whitespace at its ends, the skills list joined with commas is the submitted string |
| `Profiles.ParseSkillsExample` | routes/api/profile.js:67-69 | `"js, node, react"` becomes `["js", "node", "react"]` |
| `Profiles.ParseSkillsOfThree` | routes/api/profile.js:68 | three trimmed, comma-free words joined by `", "` parse back into those words |
| `Profiles.TrimsLeadingSpace` | routes/api/profile.js:68 | one leading space is trimmed off a word with no whitespace at either end |
| `Profiles.Truthy` | routes/api/profile.js:61-66 | a string is falsy exactly when it is empty; a truthy one is kept as given |
| `Profiles.FieldsOf` | routes/api/profile.js:58-69 | the update document names the caller as owner, carries each top-level field exactly when it is truthy, carries the parsed skills exactly when the skills string is non-empty, and always carries `social` |
| `Profiles.SocialOf` | routes/api/profile.js:71-76 | `social` carries each link exactly when it is truthy |
| `Profiles.ApplySet` | routes/api/profile.js:82-86 | `$set` overwrites every field the document carries, keeps every field it does not carry, replaces `social` and the owner, and leaves the entry lists alone |
| `Profiles.NewProfile` | routes/api/profile.js:91 | a new profile holds the document's fields and `social`, the skills list or an empty one, and no entries |
| `Profiles.UpdateAgreesWithInsert` | routes/api/profile.js:79-93 | update and insert of the same document store the same owner, `social` and value for every field the document carries |
| `Profiles.Upserted` | routes/api/profile.js:79-93 | after create-or-update the caller's profile is the updated stored one, or the new one when there was none; every other user's profile and presence are unchanged |
| `Profiles.UpdateFromSubmission` | routes/api/profile.js:58-86 | on update the owner is the caller; an empty top-level field keeps its stored value and a truthy one replaces it with the submitted value; each social link is the submitted value when truthy and absent otherwise, so a missing one is cleared; the experience and education lists are untouched |
| `Profiles.InsertFromSubmission` | routes/api/profile.js:58-91 | on insert the new profile belongs to the caller; each of the six top-level fields and five links is the submitted value when truthy and absent otherwise; skills are the parsed list (empty when none given); the entry lists are empty |
| `Profiles.ApplySetIdempotent` | routes/api/profile.js:82-92 | applying the same update document again changes nothing, to an updated profile and to a newly inserted one |
| `Profiles.UpsertedShape` | routes/api/profile.js:79-93 | after create-or-update the caller has a profile; the key set gains at most the caller; the count grows by one exactly when the caller had none; every other user's profile is unchanged |
| `Profiles.UpsertedKeyedByOwner` | routes/api/profile.js:79-93 | create-or-update keeps every profile under its owner's id, so no user ends with two profiles |
| `Profiles.UpsertedIdempotent` | routes/api/profile.js:79-93 | submitting the same profile twice leaves the collection as submitting it once does |
| `Profiles.WithoutPostsOf` | routes/api/profile.js:130 | `deleteMany({ user })` keeps exactly the posts of other users |
| `Profiles.WithoutPostsOfKeepsOthers` | routes/api/profile.js:130 | after the delete the user has no posts left, and every other user's posts are unchanged and in the same order |
| `Profiles.Ids` | routes/api/profile.js:186-187 | `list.map((item) => item.id)` (also at lines 245-246 for education): the ids of the entries, position by position |
| `Profiles.RemoveById` | routes/api/profile.js:186-190 | `splice(indexOf(id), 1)` removes exactly one entry of any non-empty list, whatever the id, and never adds one |
| `Profiles.RemoveByIdPresent` | routes/api/profile.js:186-190 | for an id in the list (experience, and the same at lines 245-248 for education), exactly the first entry with that id is removed and the others keep their order; the length drops by one |
| `Profiles.RemoveByIdAbsent` | routes/api/profile.js:186-190 | for an id not in a non-empty list, `splice(-1, 1)` removes the last entry |
| `Profiles.RemoveByIdEmpty` | routes/api/profile.js:245-248 | an empty list is left unchanged whatever the id |
| `Profiles.NewExperience` | routes/api/profile.js:161-169 | the new experience entry carries the new id and every submitted field as given |
| `Profiles.NewEducation` | routes/api/profile.js:220-228 | the new education entry carries the new id and every submitted field as given |
| `ProfileRoutes.BuildProfileFields` | routes/api/profile.js:58-76 | the step-by-step build equals the update document of the submission |
| `ProfileRoutes.BuildSocial` | routes/api/profile.js:71-76 | the step-by-step build of `social` holds exactly the truthy links |
| `ProfileRoutes.ProfileStore.GetMine` | routes/api/profile.js:9-25 | the caller's own profile, or 400 "There is no profile for this user" |
| `ProfileRoutes.ProfileStore.CreateOrUpdate` | routes/api/profile.js:27-99 | a failed validation answers 400 with the itemised errors and changes nothing; otherwise the caller's profile is updated or inserted, the store stays keyed by owner, users and posts are unchanged, and the response is the stored profile |
| `ProfileRoutes.ProfileStore.GetByUserId` | routes/api/profile.js:111-126 | a malformed id and an id with no profile both get 400 "Profile not found!"; otherwise the response is that user's profile |
| `ProfileRoutes.ProfileStore.DeleteAccount` | routes/api/profile.js:128-139 | removes the caller's posts, then the caller's profile, then the caller's user record; other users' records are unchanged; answers "User deleted" |
| `ProfileRoutes.ProfileStore.AddExperience` | routes/api/profile.js:141-181 | a failed validation answers 400 and changes nothing; with no profile the answer is 500 and nothing changes; otherwise the new entry is at index 0, followed by the old entries in order; only the caller's profile changes |
| `ProfileRoutes.ProfileStore.RemoveExperience` | routes/api/profile.js:183-197 | with no profile the answer is 500 and nothing changes; otherwise the caller's experience list becomes its remove-by-id result; only that list changes |
| `ProfileRoutes.ProfileStore.AddEducation` | routes/api/profile.js:199-240 | as `AddExperience`, for the education list and its four required fields |
| `ProfileRoutes.ProfileStore.RemoveEducation` | routes/api/profile.js:242-255 | as `RemoveExperience`, for the education list |
| `ProfileRoutes.SubmitTwice` | routes/api/profile.js:79-93 | two identical valid submissions in a row leave the profiles as one does, and the users and posts unchanged |

## Left out

- `GET /api/profile` (list all profiles, lines 101-109): a `find()` with a `populate` projection over the whole collection; there is no logic in it to model.
- The `populate('user', ['name', 'avatar'])` join on the read routes: a library projection. Responses carry the profile document only.
- The `auth` middleware is not part of this model. The authenticated routes take the caller's id as a parameter.
- express-validator also looks in params, query, cookies and headers, and it validates non-string bodies (arrays, numbers) element by element. The model validates string body fields only. Each error carries its parameter and message, not the value or location fields.
- A body field that is absent and one that is the empty string are the same value ("") in the model. The required-field checks and the truthiness tests at lines 61-66 and 72-76 treat them alike; the `skills + ''` test at line 67 does not (see the next line). This loses one distinction: the new experience and education entries (lines 161-169, 220-228) store `location`, `to` and `description` as given, so in the source an absent field is stored absent while "" is stored as "". The model stores "" for both.
- `skills` outside the body: the required-field checks also accept a value supplied in the query string, cookies, headers or route parameters, so a request whose body lacks `status` or `skills` can pass validation. When `skills` is then absent from the body, `skills + ''` is the truthy `"undefined"` and line 68 calls `split` on `undefined`. A non-string `skills` (an array) also reaches line 68 and fails, since arrays have no `split`. Either way the exception is thrown before the `try` at line 78, and the handler sends no response. The model takes every body field as a string, so it has neither case.
- ObjectId casting: the `:user_id` parameter is either `WellFormed` or `Malformed`. The model does not parse it.
- Sub-document id generation: `AddExperience` and `AddEducation` take the new entry's id as a parameter.
- Persistence failures: the store never fails. So the catch-all 500 for database errors is not modelled. Neither is the partial state a failure part-way through the account delete would leave. The 500 for a missing profile on the entry routes is modelled.
- The Mongoose schema (`models/Profile.js`, `models/User.js`, `models/Post.js`) is not part of this model. Schema defaults, required paths and casting of dates and booleans are not modelled. Dates are opaque strings.
- Concurrency: each request is atomic. The race between the find and the update or insert of `POST /api/profile` is not modelled.
- `console.error` logging.
- The React view components (Dashboard, Profiles list, PrivateRoute) are rendering logic and are not modelled.
