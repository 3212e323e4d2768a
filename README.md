# podcastor core, modelled in Dafny

podcastor is a podcast platform. It has a Convex backend and a Next.js front end. This project models four pieces of it:

- **The user handlers of the backend** (`convex/users.ts`). These are:
  - the query `getUserById`, which looks a user up by Clerk id with `.unique()`;
  - the query `getTopUserByPodcastCount`, which returns every user with their podcasts (most viewed first) and lists the users with the most podcasts first;
  - the internal mutations `createUser`, `updateUser` and `deleteUser`. `updateUser` also copies the new image onto every podcast of that author.

  The two queries are functions of a snapshot of the `users` and `podcasts` tables. The mutations are methods of a `Database` object that holds both tables and the next document id. Each mutation is proved against a specification function of the old tables. Those functions are related to the lookup by lemmas: create-then-get, update-then-get, delete-then-get, and delete removes exactly one user.
- **The active-link rule of the left sidebar and its entries** (`components/LeftSidebar.tsx`).
- **The navigation the search bar performs** for a debounced text and the current pathname (`components/Searchbar.tsx`).
- **The `generatePodcast` handler** (`components/GeneratePodcast.tsx`). It is a method of a `PodcastGenerator` object that holds:
  - the busy flag;
  - the parent's `audio` and `audioStorageId`;
  - the toasts shown;
  - the remote calls awaited.

  The outcome of each remote call (returned or threw) is a parameter. The method is proved equal to the function `Generate`, whose contract states the handler's behaviour on every path.

Modules:
- `Outcomes` (`outcomes.dfy`) holds `Option`, `Result` and `Outcome`.
- `Seqs` (`seqs.dfy`) holds the filter, map and stable descending sort the handlers are built from.
- `Users` (`users.dfy`), `Sidebar` (`sidebar.dfy`), `Search` (`search.dfy`) and `Generation` (`generation.dfy`) hold the four pieces above.

## Model

| member | source | states |
|---|---|---|
| Users.GetUserById | convex/users.ts:5-19 | The lookup fails with "User not found" exactly when no stored user has that `clerkId`. It fails with the `.unique()` error exactly when two different stored users have it. Otherwise it returns a stored user with that `clerkId`. |
| Users.MatchCount | convex/users.ts:8-11 | The filtered query is empty exactly when no user has the `clerkId`. It has two or more results exactly when two distinct positions have it. |
| Users.UniqueMatch | convex/users.ts:8-17 | A successful lookup returns the user at the only position whose `clerkId` matches. |
| Users.AuthorPodcasts | convex/users.ts:29-34 | A user's podcasts are exactly the podcasts with `authorId` equal to their `clerkId`, each with its multiplicity, ordered by views, largest first. |
| Users.Entry | convex/users.ts:36-43 | One report entry holds the user. `totalPodcasts` is both the length of `podcast` and the number of podcasts by that author. `podcast` holds the `{podcastTitle, podcastId}` of exactly those podcasts, in order of views. |
| Users.Entries | convex/users.ts:27-45 | One entry per user, in the order of the users table. |
| Users.TopUsers | convex/users.ts:22-49 | The report has one entry per stored user: the users in the entries are a permutation of the users table. Every entry is that user's entry, and the entries are ordered by `totalPodcasts`, largest first. |
| Users.TopUsersTiesKeepTableOrder | convex/users.ts:47 | The final sort is stable: users with equally many podcasts keep the order of the users table. |
| Users.TotalIsPodcastCount | convex/users.ts:29-38 | An entry's `totalPodcasts` is the number of podcasts whose `authorId` is the entry's user's `clerkId`, and that user is stored. |
| Users.WithProfile | convex/users.ts:84-87 | The users with that `clerkId` get the new `imageUrl` and `email`. Their `_id`, `clerkId` and `name` are kept, and every other user is unchanged. |
| Users.WithAuthorImage | convex/users.ts:89-100 | Every podcast whose `authorId` is that `clerkId` gets the new `authorImageUrl`. No other field of any podcast, and no other podcast, changes. |
| Users.CreateThenGet | convex/users.ts:51-66 | After inserting a user whose `clerkId` was not stored, the lookup of that `clerkId` returns that user. |
| Users.CreateDuplicateBreaksLookup | convex/users.ts:51-66 | `createUser` does not check for an existing `clerkId`. Inserting a second user with a stored `clerkId` makes every later lookup of it fail with the `.unique()` error. |
| Users.UpdateThenGet | convex/users.ts:68-88 | After `updateUser`, the lookup returns the same user with the new image and email. |
| Users.FoundUserOccursOnce | convex/users.ts:107-111 | The user a lookup finds occurs once in the table, and no other stored user has that `clerkId`. |
| Users.DeleteRemovesExactlyOne | convex/users.ts:104-118 | `deleteUser` removes exactly the found user: the table's multiset loses that one user and nothing else, so it is one shorter. |
| Users.DeleteThenGet | convex/users.ts:104-118 | After `deleteUser`, the lookup of that `clerkId` fails with "User not found". |
| Users.ProfilePatchIsByClerkId | convex/users.ts:75-87 | When document ids are distinct, patching the found user by `_id` is the profile update by `clerkId`. |
| Users.DeleteIsByClerkId | convex/users.ts:107-116 | When document ids are distinct, deleting the found user by `_id` removes exactly the users with that `clerkId`. |
| Users.AuthorIds | convex/users.ts:89-100 | When podcast ids are distinct, a podcast's `_id` is among the ids of the author's podcasts exactly when that podcast is by the author. |
| Users.PatchOneMore | convex/users.ts:95-99 | Each `ctx.db.patch(p._id, { authorImageUrl })` adds one id to the set of patched podcasts. Every other podcast stays as it was. |
| Users.PatchedAuthorsAreByClerkId | convex/users.ts:89-100 | Patching the ids of the author's podcasts is giving that author's podcasts the new image. |
| Users.PatchesKeepIds | convex/users.ts:84-99 | The patches of `updateUser` keep document ids distinct and below the next id. |
| Users.WithoutUser | convex/users.ts:116 | The users table after `deleteUser`: every user with that `clerkId` is gone, and every other user keeps its multiplicity. |
| Users.PatchProfile | convex/users.ts:84-87 | `ctx.db.patch(user._id, { imageUrl, email })`: the document with that `_id` gets the new image and email, keeping its `_id`, `clerkId` and `name`. Every other document is unchanged. |
| Users.PatchAuthorImage | convex/users.ts:96-98 | `ctx.db.patch(p._id, { authorImageUrl })`: the podcast with that `_id` gets the new author image, and no other field or podcast changes. |
| Users.FreshUserId | convex/users.ts:59-64 | The first id handed out is larger than every stored id. |
| Users.Database.constructor | convex/users.ts:25-32 | The database holds the `users` and `podcasts` tables the handlers query, given with distinct `_id`s. The next id is above every stored one, so the database starts valid. |
| Users.Database.CreateUser | convex/users.ts:51-66 | Appends one user document with the given fields and a fresh `_id`. The podcasts do not change, and ids stay distinct. |
| Users.Database.UpdateUser | convex/users.ts:68-102 | When the lookup fails, the method reports that error and changes nothing. Otherwise the new users table is `WithProfile` and the new podcasts table is `WithAuthorImage` of the old tables. It applies the podcast patches one at a time, with loop invariants. |
| Users.Database.DeleteUser | convex/users.ts:104-118 | When the lookup fails, the method reports that error and changes nothing. Otherwise the users table loses the users with that `clerkId`, and the podcasts do not change. |
| Seqs.Filter | convex/users.ts:8-10 | The kept elements come from the input and satisfy the selector. |
| Seqs.FilterMultiset | convex/users.ts:29-32 | Filtering keeps every selected element with its multiplicity and drops every other element. |
| Seqs.FilterLength | convex/users.ts:38 | The filter result is as long as the set of positions that match. |
| Seqs.SortDesc | convex/users.ts:34 | The comparator sort `(a, b) => key(b) - key(a)` yields a permutation of its input ordered by key, largest first. |
| Seqs.InsertDescSorted | convex/users.ts:47 | Inserting into a sequence sorted largest first keeps it sorted. |
| Seqs.SortDescStable | convex/users.ts:47 | Elements with equal keys keep their relative order. |
| Seqs.InsertDescStable | convex/users.ts:47 | An insertion keeps the inserted element in front of the other elements with its key. |
| Seqs.Map | convex/users.ts:39-42 | The map is as long as its input, and each element is the function applied to the element at the same position. |
| Seqs.MapPreservesMultiset | convex/users.ts:39-42 | Mapping two permutations of each other gives two permutations of each other. |
| Seqs.AtLeastTwo | convex/users.ts:11 | A set of positions has two or more members exactly when it holds two different ones. |
| Sidebar.IsActive | components/LeftSidebar.tsx:35-36 | A link is active exactly when the pathname is its route, or is its route followed by `/` and more. |
| Sidebar.NestedPageIsActive | components/LeftSidebar.tsx:35-36 | Every page nested under a route activates that route's link. |
| Sidebar.SiblingPrefixIsNotActive | components/LeftSidebar.tsx:35-36 | A pathname that extends the route with a character other than `/` does not activate it. |
| Sidebar.RootActiveOnlyOnHome | components/LeftSidebar.tsx:35-36 | For the root route, a pathname that does not start with `//` is active exactly when it is `/`. |
| Sidebar.NavEntries | components/LeftSidebar.tsx:34-50 | There is one entry per sidebar link, in order. Each entry has the link's route as `href`, its label as both React key and text, its icon, and the active flag given by `IsActive`. |
| Search.SearchNavigation | components/Searchbar.tsx:16-22 | The effect stays put exactly when the text is empty and the page is not `/discover`. An empty text on `/discover` pushes exactly `/discover`. Every push goes to the `/discover` page, and the pushed URL carries exactly the debounced text as its search term. |
| Search.PathOfQuery | components/Searchbar.tsx:18 | The pathname of `path?query` is `path`, so the pushed search URL is a `/discover` page. |
| Search.SearchNavigationInjective | components/Searchbar.tsx:16-22 | Different search texts push different URLs. |
| Search.NavigationSettles | components/Searchbar.tsx:16-22 | After a push, the effect run for the new pathname pushes the same URL again, so navigation comes to rest. |
| Generation.FileName | components/GeneratePodcast.tsx:55 | The file name is `podcast-`, the uuid and `.mp3`, and the uuid can be read back from it. |
| Generation.Generate | components/GeneratePodcast.tsx:30-74 | On every path, the run shows exactly one toast and clears the busy flag. An empty prompt, then an unset voice, each end the run with their own toast and no remote call. A remote call that throws ends the run with the destructive toast and an empty `audio`, and no later remote call is made: the log holds exactly the calls up to the one that threw. The storage id is set as soon as the upload returns, even when the URL lookup then throws. Once the upload returns, the three calls have happened in order with the busy flag set. On success `audio` becomes the returned URL, and the success toast is shown. |
| Generation.VoiceUnset | components/GeneratePodcast.tsx:41 | `!voiceType` for a `string` or `null` voice: a voice is set exactly when it is present and non-empty. |
| Generation.PodcastGenerator.constructor | components/GeneratePodcast.tsx:14-20 | A new generator is not busy, as `useState(false)` starts it. Its `audio` is empty and it has no storage id: these are the parent's initial `''` and `null` from the `useState` calls at lines 54 and 56 of the create-podcast page (`app/(root)/create-podcast/page.tsx`). It has no toasts or calls. |
| Generation.PodcastGenerator.Call | components/GeneratePodcast.tsx:49-61 | One awaited call is recorded with the current busy flag. |
| Generation.PodcastGenerator.Catch | components/GeneratePodcast.tsx:67-73 | The catch block shows the destructive toast, then clears the busy flag. |
| Generation.PodcastGenerator.GeneratePodcast | components/GeneratePodcast.tsx:30-74 | The handler runs step by step with early returns and the catch path. The state it leaves is `Generate` of the state before, for the given prompt, voice, uuid and remote outcomes. |

## Left out

- The Convex runtime is not modelled: the query planner, `_creationTime`, transactions, retries, access control, and how `.unique()` builds its error. A table is a sequence of documents in stored order, and `_id` is a natural number.
- `Promise.all` in `getTopUserByPodcastCount` and `updateUser` is not modelled. The per-user and per-podcast steps run one after another. Each step touches a different document, so the order does not change the result.
- Podcast fields that these handlers neither read nor write are not modelled. These include the description, audio, image, voice fields and audio duration.
- The users and podcasts tables start with distinct `_id`s. The `Database` constructor requires this, and every mutation keeps it.
- `createUser` assigns the next counter value as `_id`. Real Convex ids are opaque strings.
- React rendering, CSS classes, `useState`/`useEffect` scheduling, the 500 ms debounce of the search text, and Clerk's `signOut` are not modelled. The search effect is modelled as one run for given inputs.
- `constants/index.ts` (the contents of `sidebarLinks`) is not part of this model. `NavEntries` takes the links as a parameter.
- Search.SearchNavigation: the search text is put into the URL verbatim, as the source does, with no URL encoding. `SearchTerm` reads it back the same way and is not a general query-string parser.
- Generation.Generate: the OpenAI action, the upload, `getUrl` and `uuidv4()` are calls into code outside this model. Their outcomes (a value, or a throw) and the uuid are parameters. The bytes of the `Blob`/`File` are the returned bytes, and the MIME type `audio/mpeg` is not modelled.
- Generation.Generate: a `null` URL from `getUrl` (the `audioUrl!` assertion) is not modelled. `convex/podcasts.ts` is not part of this model, so a returned URL is always a string.
- Generation.Generate: an upload that returns no element, or no `storageId`, counts as a throw. A missing `storageId` that does not throw is not modelled.
- Toasts are recorded as their title and variant. Their display and dismissal are not modelled.
- Generation.Generate: models one run in isolation. The button at components/GeneratePodcast.tsx lines 100-103 is not disabled while busy, so a second click during an await starts an overlapping run. The run that finishes first clears `isGenerating` while the other's call is still pending. Such interleavings are not modelled, and "every call is awaited with the busy flag set" holds only for a run that is not overlapped.
- Users.AuthorPodcasts: `views` is taken as an integer count (`int`). The JavaScript number compared by `b.views - a.views` is not modelled as a float, so non-integer, `NaN` or very large view counts are left out.
- The audio element's `onLoadedMetadata` duration (floating point) is not modelled.
- Strings are Dafny character sequences. JavaScript's UTF-16 code units are not modelled.
