# Blog client state logic, modelled in Dafny

This project models the client-side state logic of a React/Redux blog that
stores its posts in Firestore and signs users in with Google. The model
covers four parts:

- **Blog slice** (`BlogThunks`, `BlogSlice`). These are the seven thunks and
  the reducer cases over `{blog, popularBlogs, isLoading, error}`:
  - `fetchBlogs` with its search filter, `fetchBlogById` and `fetchPopularBlogs`;
  - `likeBlog`, `addCommentToBlog`, `removeCommentFromBlog` and `updateBlogViews`.
- **Auth slice** (`AuthSlice`). It covers the sign-in, sign-out and
  auth-state-observer thunks, the `setLoading` reducer and the reducer cases
  over `{user, isLoading, error}`.
- **Create-blog slice** (`CreateBlogSlice`). It covers the `createBlog` thunk,
  which uploads the draft's image, rewrites the draft object in place and
  inserts it, and the three loading/error cases.
- **The create-post form's submit handler** (`CreateBlogForm`). It decides
  whether a draft is dispatched, builds it, and resets the form.

How the model is built:

- Every call into Firebase is a parameter of type `Outcome<T>`, either `Ok(data)`
  or `Err(msg)`. This covers reads, writes, the upload, the URL lookup, the
  popup and sign-out. A thunk that writes returns the write it issued next to
  its own outcome, so the contracts can say what reached the store.
- `state.blog` has two shapes: the list fetch stores an array, the by-id fetch
  one post. It is the sum type `BlogView = Many(seq<Post>) | One(Post)`. The
  per-post guard `blog && blog.id === id` is `Loaded`, which a list never
  passes.
- Reducers are methods of classes whose fields are the slice state. Each
  `Run…` method is one thunk taken as a single step: the pending case, the
  thunk body, then the fulfilled or rejected case.
- The JavaScript built-ins the logic relies on live in `Js`: `toLowerCase`
  (ASCII), `includes`, `filter`, `splice(start, 1)`, and the TypeError
  message text.

Module layout:

| file | module |
|---|---|
| `wrappers.dfy` | `Wrappers` |
| `js.dfy` | `Js` |
| `entities.dfy` | `Entities` |
| `auth_slice.dfy` | `AuthSlice` |
| `blog_thunks.dfy` | `BlogThunks` |
| `blog_slice.dfy` | `BlogSlice` |
| `create_blog_slice.dfy` | `CreateBlogSlice` |
| `create_blog_form.dfy` | `CreateBlogForm` |

Behaviours of the code that the model proves as they are:

- **Comment dates after a reload.** `addCommentToBlog` stores a comment whose
  date is already a string. `fetchBlogById` serializes every comment date
  again, and a string has no `toDate`, so a reloaded comment shows an empty
  date (`BlogThunks.ReloadedCommentDateIsBlank`).
- **Tags in search.** The search lower-cases the query, the title, the body
  and the category, but not the tags. Tags are compared as stored, so only
  their lower-case text can be found: the query "Dafny" misses the tags
  "Dafny" but finds the tags "dafny"
  (`BlogThunks.TagsAreComparedWithoutLowerCasing`).
- **Negative comment index.** The stored comment removal checks bounds. The
  reducer's `splice(index, 1)` does not, and a negative index counts from the
  end. For index -1 the loaded post loses its last comment while the stored
  list stays whole (`BlogSlice.SpliceAgainstStoredRemoval`).
- **Posting without an image.** The form does not require an image. A draft
  with `image: null` is dispatched, and `createBlog` then rejects it before
  any upload (`CreateBlogForm.SubmitWithoutImage`).
- **Failures of the per-post thunks.** `likeBlog`, `addCommentToBlog`,
  `removeCommentFromBlog` and `updateBlogViews` have no pending or rejected
  case. A failure of any of them, including `likeBlog` with nobody signed in,
  leaves the whole blog state as it was.

## Model

| member | source | states |
|---|---|---|
| `Wrappers.Settle` | src/redux/authSlice.js:16-18 | a thunk body's outcome becomes its fulfilled action exactly when it succeeded, carrying the payload; a failure becomes the rejected action carrying the error message |
| `Js.ToLowerCase` | src/redux/blogSlice.js:41-48 | `toLowerCase` keeps the length and maps each character to its lower-case form (ASCII letters) |
| `Js.Includes` | src/redux/blogSlice.js:45-48 | the empty string is included in every string, and nothing longer than the string is included in it |
| `Js.IncludesIffOccurs` | src/redux/blogSlice.js:45-48 | `includes` holds exactly when the needle occurs at some position of the string |
| `Js.Filter` | src/redux/blogSlice.js:42-50 | `filter` never returns more elements than it was given, and every element it returns is accepted by the callback |
| `Js.FilterCounts` | src/redux/blogSlice.js:42-50 | `filter` keeps each accepted element as often as it occurs and drops every rejected one |
| `Js.FilterIsSubsequence` | src/redux/blogSlice.js:42-50 | `filter` keeps the order of its input |
| `Js.FilterAppend` | src/redux/blogSlice.js:134 | filtering a concatenation is the concatenation of the filtered parts |
| `Js.FilterKeepsAll` | src/redux/blogSlice.js:134 | a filter that accepts every element returns the list unchanged |
| `Js.SpliceStart` | src/redux/blogSlice.js:263 | the position `splice` acts on is within the array; a non-negative start is used as is (clamped at the end), a negative one counts back from the end |
| `Js.SpliceOne` | src/redux/blogSlice.js:263 | `splice(start, 1)` deletes the element at an in-bounds start, nothing at or past the end, and counts a negative start from the end (the first element once it passes the front) |
| `Js.CannotRead` | src/redux/blogSlice.js:123 | the TypeError message opens with "Cannot read properties of" and the base value, and closes with the property read |
| `AuthSlice.ToIdentity` | src/redux/authSlice.js:10-15 | the identity record has `id = uid`, `name = displayName`, `email = email`, `photoUrl = photoURL`, the last three possibly null |
| `AuthSlice.SignInWithGoogle` | src/redux/authSlice.js:5-19 | sign-in succeeds exactly when the popup does, with the mapped identity; otherwise it rejects with the popup's message |
| `AuthSlice.ObservedAction` | src/redux/authSlice.js:31-44 | a present observed user yields the same fulfilled sign-in action the sign-in thunk would settle to, with the same mapping; an absent one yields the fulfilled sign-out |
| `AuthSlice.AuthStore.constructor` | src/redux/authSlice.js:50-54 | initial state: no user, loading, no error |
| `AuthSlice.AuthStore.Dispatch` | src/redux/authSlice.js:59-89 | `setLoading` sets only the flag; either pending sets loading and clears the error, keeping the user; sign-in fulfilled sets the user and keeps the error; sign-out fulfilled clears the user and keeps the error; either rejected records the error, keeping the user; `checkAuthState`'s own actions change nothing |
| `AuthSlice.AuthStore.RunSignIn` | src/redux/authSlice.js:66-77 | after a sign-in: not loading; on success the mapped identity with no error, on failure the old user with the popup's message |
| `AuthSlice.AuthStore.RunSignOut` | src/redux/authSlice.js:78-89 | after a sign-out: not loading; on success no user and no error, on failure the old user with the message |
| `AuthSlice.AuthStore.Observe` | src/redux/authSlice.js:31-44 | an observer event leaves the store not loading with the mapped user or no user, and the error untouched |
| `AuthSlice.SignInRetry` | src/redux/authSlice.js:66-77 | right after a failed sign-in nobody is signed in, the store is not loading and the message is recorded; a later successful sign-in signs the user in and clears that message |
| `BlogThunks.SerializeTimestamp` | src/redux/blogSlice.js:12-22 | the result is empty exactly when the value is not an object with a callable `toDate`; otherwise it is the formatted date |
| `BlogThunks.FromDoc` | src/redux/blogSlice.js:29-38 | a post built from a document has the document's id, both dates serialized, and every other stored field as stored |
| `BlogThunks.FromDocs` | src/redux/blogSlice.js:102-111 | the documents are mapped one to one, in order |
| `BlogThunks.SerializeComment` | src/redux/blogSlice.js:78-81 | a comment keeps its author and text, and its date becomes the serialized string |
| `BlogThunks.ReloadedCommentDateIsBlank` | src/redux/blogSlice.js:78-81 | a comment serialized once by `addCommentToBlog` and again by `fetchBlogById` has an empty date and the same text |
| `BlogThunks.Matches` | src/redux/blogSlice.js:44-49 | a post matches exactly when the lower-cased query occurs in its lower-cased title, body or category, or in its tags as stored |
| `BlogThunks.Searching` | src/redux/blogSlice.js:40 | the query filters exactly when it is present and not the empty string |
| `BlogThunks.FetchBlogs` | src/redux/blogSlice.js:25-58 | succeeds exactly when the read does; without a (non-empty) query it returns every mapped document in order; with one it returns an order-preserving subsequence holding each matching post as often as it occurs and no other post |
| `BlogThunks.TagsAreComparedWithoutLowerCasing` | src/redux/blogSlice.js:43-49 | with empty title, body and category, the query "Dafny" misses the tags "Dafny" but finds the tags "dafny", and finds "Dafny" in the category |
| `BlogThunks.FetchPopularBlogs` | src/redux/blogSlice.js:91-118 | the popular posts are mapped exactly as the unfiltered list fetch maps documents, with the same failure |
| `BlogThunks.FetchBlogById` | src/redux/blogSlice.js:60-89 | a failed read rejects with its message and a missing document with "Blog not found"; a found one is the list mapping of that document, with the same number of comments in the same order, each with only its date serialized |
| `BlogThunks.ToggleLike` | src/redux/blogSlice.js:130-140 | the user is in the result exactly when they were not in the list; other ids keep their counts; a present user is removed keeping the order, an absent one is appended |
| `BlogThunks.ToggleLikeTwiceRestores` | src/redux/blogSlice.js:130-140 | starting from not having liked, liking twice restores the list |
| `BlogThunks.ApplyLikeUpdate` | src/redux/blogSlice.js:131-138 | `arrayUnion` leaves the array unchanged if the id is there and otherwise appends it once; `arrayRemove` removes every copy of the id and keeps the rest in order (a subsequence with the same counts); both keep every other id's count |
| `BlogThunks.LikeBlog` | src/redux/blogSlice.js:120-144 | with nobody signed in it throws reading `id` of null before any read or write; a failed read issues no update; an update is issued exactly when the user and read are present, and applying it to the stored likes gives the toggled list; success carries that list |
| `BlogThunks.AddCommentToBlog` | src/redux/blogSlice.js:146-168 | after a successful read the stored comments with the serialized comment appended are written; success carries the serialized comment; each failure rejects with its message |
| `BlogThunks.RemovedAt` | src/redux/blogSlice.js:179-183 | an in-bounds index deletes exactly that entry, keeping prefix and suffix; any other index leaves the list unchanged |
| `BlogThunks.RemoveCommentAt` | src/redux/blogSlice.js:179-182 | copying the comments into a fresh array and splicing it in place yields the bounded removal |
| `BlogThunks.RemoveCommentFromBlog` | src/redux/blogSlice.js:170-190 | a failed read writes nothing; after a successful read the bounded removal is written; the result is `{id, index}` whenever read and write succeed, whether or not anything was removed; each failure rejects with its message |
| `BlogThunks.UpdateBlogViews` | src/redux/blogSlice.js:192-201 | the update sent is an increment by exactly one; success carries the id |
| `BlogSlice.Loaded` | src/redux/blogSlice.js:248 | the per-post guard passes exactly when a single post with that id is loaded; a list never passes |
| `BlogSlice.BlogStore.constructor` | src/redux/blogSlice.js:5-10 | initial state: an empty list, no popular posts, loading, no error |
| `BlogSlice.BlogStore.FetchPending` | src/redux/blogSlice.js:209-212 | pending sets loading and clears the error, keeping both post fields |
| `BlogSlice.BlogStore.FetchRejected` | src/redux/blogSlice.js:217-220 | rejected clears loading and records the message, keeping both post fields |
| `BlogSlice.BlogStore.FetchBlogsFulfilled` | src/redux/blogSlice.js:213-216 | the list replaces `blog`; the error and the popular posts are kept |
| `BlogSlice.BlogStore.FetchBlogByIdFulfilled` | src/redux/blogSlice.js:225-228 | the single post replaces `blog`; the error and the popular posts are kept |
| `BlogSlice.BlogStore.FetchPopularBlogsFulfilled` | src/redux/blogSlice.js:237-240 | the list replaces `popularBlogs`; the error and `blog` are kept |
| `BlogSlice.BlogStore.LikeBlogFulfilled` | src/redux/blogSlice.js:245-251 | the loaded post with the payload's id takes the new likes; otherwise nothing changes; loading and error never change |
| `BlogSlice.BlogStore.AddCommentFulfilled` | src/redux/blogSlice.js:252-258 | the loaded post with the payload's id gets the comment as its new last comment, every earlier comment and every other field kept; otherwise nothing changes |
| `BlogSlice.BlogStore.RemoveCommentFulfilled` | src/redux/blogSlice.js:259-265 | the loaded post with the payload's id has its comments spliced at the index, with no bounds check; otherwise nothing changes |
| `BlogSlice.BlogStore.UpdateViewsFulfilled` | src/redux/blogSlice.js:266-272 | the loaded post with the id counts exactly one more view (on an unbounded count), every other field kept; otherwise nothing changes |
| `BlogSlice.BlogStore.RunFetchBlogs` | src/redux/blogSlice.js:209-220 | afterwards not loading; success stores the fetched list and leaves the error cleared; failure keeps `blog` and records the message; `popularBlogs` is untouched |
| `BlogSlice.BlogStore.RunFetchBlogById` | src/redux/blogSlice.js:221-232 | afterwards not loading; a found post replaces `blog`; a missing one keeps `blog` and records "Blog not found" |
| `BlogSlice.BlogStore.RunFetchPopularBlogs` | src/redux/blogSlice.js:233-244 | afterwards not loading; success stores the popular list; `blog` is untouched |
| `BlogSlice.BlogStore.RunLikeBlog` | src/redux/blogSlice.js:120-144 | loading and error never change; with no signed-in user, or any failure, the whole state is unchanged; success gives the loaded post with that id the toggled likes; when no post with that id is loaded, `blog` is unchanged |
| `BlogSlice.BlogStore.RunAddComment` | src/redux/blogSlice.js:146-168 | loading and error never change; failure changes nothing; success appends the serialized comment to the loaded post with that id; when no post with that id is loaded, `blog` is unchanged |
| `BlogSlice.BlogStore.RunRemoveComment` | src/redux/blogSlice.js:170-190 | a failed read sends nothing; otherwise the store receives the bounded removal while the loaded post with that id is spliced at the index; a failure, or no post with that id loaded, leaves `blog` unchanged |
| `BlogSlice.BlogStore.RunUpdateViews` | src/redux/blogSlice.js:192-201 | success adds exactly one view (on an unbounded count) to the loaded post with that id; anything else changes nothing |
| `BlogSlice.AddThenRemoveRestores` | src/redux/blogSlice.js:160-181 | removing a comment at the position it was appended at restores the list, in the store and in the loaded post |
| `BlogSlice.SpliceAgainstStoredRemoval` | src/redux/blogSlice.js:179-185 | for a non-negative index the reducer's splice and the stored removal agree; for index -1 the reducer drops the last comment while the store keeps them all |
| `CreateBlogSlice.WithImageUrl` | src/redux/createBlogSlice.js:32-33 | the inserted record has no `image`, has `imageUrl` set to the URL, and every other member is as it was |
| `CreateBlogSlice.ImageNameError` | src/redux/createBlogSlice.js:14 | reading `name` of a null image throws the "null" TypeError, of a deleted one the "undefined" TypeError |
| `CreateBlogSlice.ImagePath` | src/redux/createBlogSlice.js:14 | the upload path is `images/` followed by the file's name |
| `CreateBlogSlice.DraftRecord.constructor` | src/components/CreateBlog.jsx:110-122 | the object built from a draft holds exactly that draft's members |
| `CreateBlogSlice.CreateBlog` | src/redux/createBlogSlice.js:11-42 | with no image file it throws reading `name` before uploading, inserting or changing the draft; otherwise it uploads the file under `images/<name>`; a failed upload or lookup rejects with its message and inserts nothing; after both succeed the draft is rewritten in place and that record is inserted; the result is the record or the insert's message |
| `CreateBlogSlice.CreateBlogStore.constructor` | src/redux/createBlogSlice.js:6-9 | initial state: not loading, no error |
| `CreateBlogSlice.CreateBlogStore.Pending` | src/redux/createBlogSlice.js:50-53 | pending sets loading and clears the error |
| `CreateBlogSlice.CreateBlogStore.Fulfilled` | src/redux/createBlogSlice.js:54-57 | fulfilled clears loading and the error, ignoring the payload |
| `CreateBlogSlice.CreateBlogStore.Rejected` | src/redux/createBlogSlice.js:58-61 | rejected clears loading and records the message |
| `CreateBlogSlice.CreateBlogStore.RunCreateBlog` | src/redux/createBlogSlice.js:11-61 | afterwards not loading; the error is cleared exactly when the record was inserted successfully; each failing step's message is recorded; a present image is uploaded under `images/<name>`; the draft is unchanged unless upload and lookup both succeed; when they do, the rewritten draft is inserted |
| `CreateBlogForm.CheckSubmit` | src/components/CreateBlog.jsx:99-108 | no user is refused first; a signed-in user is refused exactly when one of the four text fields is empty; a submit goes through exactly when there is a user and all four fields are non-empty |
| `CreateBlogForm.BuildDraft` | src/components/CreateBlog.jsx:110-122 | the draft has the user as author, no likes, no views, no comments, the four text fields unchanged, the image or null, and the two clock readings |
| `CreateBlogForm.Form.constructor` | src/components/CreateBlog.jsx:82-86 | the form starts with four empty text fields and no image |
| `CreateBlogForm.Form.HandleSubmit` | src/components/CreateBlog.jsx:96-131 | a refused submit dispatches nothing and leaves the form as it was; an accepted one dispatches a fresh draft built from the form and resets all five fields |
| `CreateBlogForm.SubmitWithoutImage` | src/components/CreateBlog.jsx:105-113 | a signed-in user who fills the four text fields but picks no image gets a draft dispatched, and `createBlog` rejects it, reading `name` of null, before any upload or insert |

## Left out

- Firebase itself is not modelled: Firestore reads and writes, `increment`, `arrayUnion`/`arrayRemove` (beyond their effect on a likes array), Storage uploads, `signInWithPopup`, `signOut` and `onAuthStateChanged`. Each call is an `Ok`/`Err` outcome given as a parameter.
- `BlogSlice.BlogStore.UpdateViewsFulfilled` and `BlogSlice.BlogStore.RunUpdateViews`: `views` is a JS number, a double. From 2^53 on, `views++` no longer changes it, and the store reads the count back with the same rounding. The model's `int` is unbounded, so there it always grows by one.
- `fetchPopularBlogs`' `orderBy('views', 'desc')` and `limit(3)` are not modelled. The store computes them, so the model takes the queried documents as given.
- `toLocaleDateString` is not modelled. A formatted date is an opaque non-empty string (`DateText`).
- `Js.ToLowerCase`: maps ASCII letters only, because full Unicode case mapping is out of scope.
- The upload progress percentage and the console logging in `createBlog` are diagnostics only and are not modelled.
- Scheduling is not modelled: each thunk runs as one atomic step from its pending action to its settling action. Overlapping dispatches are not modelled, and neither is the observer firing more than once per `checkAuthState` call.
- Store composition (`src/store.js`) is not part of this model. Each slice is its own class, and each action touches only its own slice.
- Rendering, routing, `alert` and `navigate` are not part of this model.
- `BlogThunks.FetchBlogs`, `BlogThunks.FetchBlogById` and `BlogThunks.FetchPopularBlogs`: each mapping puts `...restData` after `id`, so a stored field named `id` would override the document id. The model assumes stored documents have no such field.
- `BlogThunks.FetchBlogs`: a stored post missing `title`, `body`, `tags` or `category` makes the search throw. The model gives every post all four fields, so that rejection is not modelled.
- `BlogThunks.FetchBlogById`: a stored post with no `comments` array makes the comment mapping throw. The model gives every stored post a comment list.
- `BlogThunks.LikeBlog`: reading a document that does not exist, or one without a likes or comments array, throws inside the thunk. That failure is folded into the read's `Err` outcome. The same holds for `BlogThunks.AddCommentToBlog` and `BlogThunks.RemoveCommentFromBlog`.
- `Js.CannotRead`: the TypeError messages use the V8 engine's wording. Other engines word them differently.
- `CreateBlogForm.BuildDraft`: the two `Timestamp.fromDate(new Date())` clock readings are parameters, because the clock is not modelled.
