# LinguaSage content core, modelled in Dafny

LinguaSage is a trilingual (English, German, Persian) site for German courses and a blog, with
an admin CMS. Its content lives in a remote blob store as one JSON document per entity. Server
actions read a whole list, change it and write it back. Client components filter, edit and
validate that content. This project models that logic and proves what each piece promises.

The model has one Dafny module per source file:

- `CmsStore` (`src/lib/cms-store.ts`) is a `class Store`. Its fields are:
  - the blob map (path to JSON, empty body or unparsable text);
  - the `configured` flag, meaning the blob token is set;
  - the environment credentials;
  - the shared `EMPTY_DATA` object.

  Reads and writes are specified by pure functions (`ReadResult`, `ReadEffect`, `WriteEffect`,
  `AdminResult`). Network failures are the `Io` parameter.
- `EmptyData` (`src/lib/empty-data.ts`) is the seed. `Types` (`src/lib/types.ts`) holds the
  records. `TypeUtils` (`src/lib/type-utils.ts`) holds the total helpers.
- `ContentActions`, `Slugify`, `UserActions` and `AnalyticsActions` model the server actions as
  methods on a `Store`. Each is proved against the store's specification functions.
- `KeyedLists`, `LocalizedLists`, `Tally`, `Seqs` and `JsString` hold the list, dictionary and
  string operations those actions and forms share.
- `Middleware`, `AuthContext` (a `class AuthProvider`) and `MainSidebar` model access gating and
  the admin menu.
- Forms whose state changes step by step are classes:
  - `EditPostForm.Editor`, `EditClassForm.Editor` and `AboutContentForm.Editor`;
  - `RegistrationForm.Form` and `ContactForm.Form`.

  Their list-rewriting loop is `LocalizedLists.ApplyPieces`. `FormSchemas` holds the zod checks.
- The read-only views are functions with lemmas:
  - `ClassesPage`, `AdminClassesPage`, `BlogPage`, `AdminBlogPage`;
  - `BlogPost`, `ClassDetails`, `Metadata`.

  The admin classes table runs the same type/level filter as the public classes page
  (`src/components/admin/classes/admin-classes-page-content.tsx:122-126`). The model uses
  `ClassesPage.FilterClasses` for both.

## Model

| member | source | states |
|---|---|---|
| Types.Loc.With | src/lib/types.ts:4-6 | setting one language sets exactly that language and keeps the other two |
| Types.WithGetRoundTrip | src/lib/types.ts:4-6 | reading back a set language gives the value, and setting the old value back restores the text |
| TypeUtils.SafeArrayAccess | src/lib/type-utils.ts:18-20 | the element at the index when 0 <= index < length, and undefined for every other index |
| TypeUtils.WithDefault | src/lib/type-utils.ts:31-33 | the value itself unless it is undefined, which gives the default |
| TypeUtils.AccessWithDefault | src/lib/type-utils.ts:18-33 | withDefault over safeArrayAccess gives a defined element at a valid index, and the default out of range or for an undefined element; a stored null passes through; the result is undefined only when the default is |
| TypeUtils.EnsureNumber | src/lib/type-utils.ts:41-43 | a number (NaN included) is returned as is; any other value gives the default |
| TypeUtils.EnsureString | src/lib/type-utils.ts:46-48 | a string is returned as is; any other value gives the default |
| TypeUtils.EnsureIdempotent | src/lib/type-utils.ts:41-48 | applying either guard to its own result changes nothing |
| TypeUtils.FilterDefined | src/lib/type-utils.ts:51-53 | never longer than its input; no undefined element is left and every defined one is kept |
| TypeUtils.FilterDefinedIsFilter | src/lib/type-utils.ts:36-53 | filterDefined is exactly filter(isDefined): it removes exactly the undefined elements and keeps the order |
| TypeUtils.SafeArrayUpdate | src/lib/type-utils.ts:56-67 | the same length; with a valid index and a truthy item only that element changes, to updater(item); otherwise the array is returned as it was |
| TypeUtils.GetValidLocaleAsWritten | src/lib/type-utils.ts:12-15 | the `??` fallback means the written lookup is never undefined: an unknown code gives Persian, and an inherited member is returned as it is |
| TypeUtils.AsWrittenReturnsNonLocale | src/lib/type-utils.ts:12-15 | the code "toString" yields the inherited Object.prototype member, not a locale |
| TypeUtils.GetValidLocale | src/lib/type-utils.ts:6-15 | en gives en-US, de gives de, and every other code gives fa-IR |
| TypeUtils.GetValidLocaleAgrees | src/lib/type-utils.ts:6-15 | the corrected lookup agrees with the written one on every code that is not an Object.prototype member |
| EmptyData.SeedPosts | src/lib/empty-data.ts:190-299 | the seed has three posts and no two share a slug |
| EmptyData.SeedClasses | src/lib/empty-data.ts:300-451 | the seed has three classes, no two share a slug, and every one is active |
| EmptyData.GetEmptyCmsData | src/lib/empty-data.ts:29-523 | registrations, messages and analytics are empty; the admin is the environment pair or admin@example.com/password field by field; three posts and three classes with distinct slugs; every class active; five timeline events |
| EmptyData.SeedClassFacts | src/lib/empty-data.ts:352-437 | the private B2 class has no maxStudents, and the workshop's price is the number 0 |
| CmsStore.DataPath | src/lib/cms-store.ts:31-42 | every entity's path starts with "cms/" |
| CmsStore.DataPathsDistinct | src/lib/cms-store.ts:31-42 | different entities never share a path |
| CmsStore.DefaultOf | src/lib/cms-store.ts:91-150 | the fallback value of an entity has that entity's shape |
| CmsStore.WithDefault | src/lib/cms-store.ts:91 | changing one entity's part of the shared fallback object changes only that part |
| CmsStore.ReadResult | src/lib/cms-store.ts:45-69 | unconfigured gives the default; stored JSON gives that JSON; an error arises exactly on a 404 whose seeding write fails; a failed read, an empty or unparsable blob and a seeded 404 each give the default |
| CmsStore.ReadEffect | src/lib/cms-store.ts:45-69 | a read writes only on a 404 with a working store, and then it writes the default at that path |
| CmsStore.WriteEffect | src/lib/cms-store.ts:72-87 | a configured, successful save replaces the whole value at the path; no other path changes; unconfigured or failed saves change nothing |
| CmsStore.WriteOutcome | src/lib/cms-store.ts:72-87 | a save fails exactly when the store is configured and the put fails |
| CmsStore.AdminResult | src/lib/cms-store.ts:106-117 | both environment values set gives that pair; otherwise the result is the admin part of ReadResult for the admin blob: an error exactly when that read errs, and the default admin user on a failed read or without storage |
| CmsStore.AdminEffect | src/lib/cms-store.ts:110-112 | with both environment values set the store is not touched |
| CmsStore.SaveThenRead | src/lib/cms-store.ts:72-87 | a save followed by a read of the same entity returns the saved value |
| CmsStore.SaveIsolation | src/lib/cms-store.ts:31-42 | saving one entity leaves the read of every other entity as it was |
| CmsStore.SeedingIsStable | src/lib/cms-store.ts:60-64 | a 404 read returns the default, and the next read returns that same value from the store |
| CmsStore.UnconfiguredNeverWrites | src/lib/cms-store.ts:46-49 | without a blob token reads and writes never change the store, and saves report no failure |
| CmsStore.Store.constructor | src/lib/cms-store.ts:91 | EMPTY_DATA is getEmptyCMSData() under the environment at load time |
| CmsStore.Store.Get | src/lib/cms-store.ts:94-150 | every getter returns ReadResult and leaves the store as ReadEffect says; a result has the entity's shape |
| CmsStore.Store.Save | src/lib/cms-store.ts:94-151 | every setter reports WriteOutcome and leaves the store as WriteEffect says |
| CmsStore.Store.GetAdminUser | src/lib/cms-store.ts:106-117 | returns AdminResult and leaves the store as AdminEffect says |
| CmsStore.Store.SaveAdminUser | src/lib/cms-store.ts:118-127 | writes nothing while both environment values are set; otherwise it saves like any setter |
| CmsStore.Store.ChangeDefaultInPlace | src/lib/cms-store.ts:91 | a caller that changes a fallback object changes what later fallback reads of that entity return |
| CmsStore.EnvCredentialsWin | src/lib/cms-store.ts:110-125 | with environment credentials, saving an admin user and reading back gives the environment pair, and the store is unchanged |
| CmsStore.StoredCredentialsRoundTrip | src/lib/cms-store.ts:116-126 | with a configured store and no environment credentials, a saved admin user is what the next read returns |
| Slugify.Slugify | src/app/actions/content-actions.ts:25-33 | the slug holds only a-z, 0-9, '_' and '-', and never "--" |
| Slugify.SlugCharsOnly | src/app/actions/content-actions.ts:28-32 | the lower/trim/replace chain yields only slug characters and no double hyphen |
| Slugify.SlugifyIdempotent | src/app/actions/content-actions.ts:25-33 | slugifying a slug changes nothing |
| Slugify.SlugifyHelloWorld | src/app/actions/content-actions.ts:25-33 | "Hello, World!" becomes "hello-world" |
| Slugify.SymbolsSlugifyToEmpty | src/app/actions/content-actions.ts:31 | a title made only of symbols has the empty slug |
| Slugify.SlugifyKeepsLeadingHyphen | src/app/actions/content-actions.ts:30-32 | symbols, a space and a word give "-" followed by the word: a leading hyphen survives |
| Slugify.SeedSlugUnreachable | src/lib/empty-data.ts:228 | no text slugifies to the seed slug "german-culture-pünktlichkeit" |
| KeyedLists.IndexOfKey | src/app/actions/content-actions.ts:155 | findIndex gives the first position with the key, or -1 exactly when no record has it |
| KeyedLists.FindByKey | src/app/actions/content-actions.ts:136 | find gives a record exactly when one has the key, and then it is the first one |
| KeyedLists.ReplaceFirst | src/app/actions/content-actions.ts:155-158 | an unknown key gives nothing; otherwise only the first record with the key is replaced and the length is kept |
| KeyedLists.RemoveKey | src/app/actions/content-actions.ts:173 | removes every record with the key and keeps every other record |
| KeyedLists.RemoveKeyIsSubsequence | src/app/actions/content-actions.ts:173 | the remaining records keep their order |
| KeyedLists.RemoveAbsentKey | src/app/actions/content-actions.ts:170-178 | removing an absent key leaves the list unchanged |
| KeyedLists.RemoveKeyIdempotent | src/app/actions/content-actions.ts:173 | removing twice is removing once |
| KeyedLists.PrependThenRemove | src/app/actions/content-actions.ts:139-140 | creating a record with a fresh key and deleting it gives the list back |
| KeyedLists.PrependKeepsDistinct | src/app/actions/content-actions.ts:136-140 | the slug check before prepending keeps keys distinct |
| KeyedLists.ReplaceKeepsDistinct | src/app/actions/content-actions.ts:155-158 | replacing by slug keeps keys distinct |
| KeyedLists.RemoveKeepsDistinct | src/app/actions/content-actions.ts:173 | deleting keeps keys distinct |
| ContentActions.UpdateContentReply | src/app/actions/content-actions.ts:39-85 | a page update reports success exactly when its write goes through, with the entity's success or failure message |
| ContentActions.UpdateContent | src/app/actions/content-actions.ts:39-85 | the four page updates save the value whole and report success exactly when the save passes |
| ContentActions.FormLoc | src/app/actions/content-actions.ts:125-131 | each language of a localized field is the form field of that language |
| ContentActions.FillLoc | src/app/actions/content-actions.ts:125-131 | the forEach loop over the languages builds FormLoc |
| ContentActions.TrimAll | src/app/actions/content-actions.ts:111 | every piece is trimmed, one for one |
| ContentActions.ParseList | src/app/actions/content-actions.ts:110-114 | every entry is non-empty, trimmed and free of the separator |
| ContentActions.ParseJoin | src/app/actions/content-actions.ts:110-114 | parsing a joined list of clean entries gives the list back |
| ContentActions.Zip3 | src/app/actions/content-actions.ts:116-123 | as long as the longest list, entry i holding each language's i-th item or '' |
| ContentActions.ZipLists | src/app/actions/content-actions.ts:236-252 | the push loop builds Zip3 |
| ContentActions.ZipColumn | src/app/actions/content-actions.ts:116-123 | each language of the zipped list is that language's list padded with '' |
| ContentActions.ZipRoundTrip | src/app/actions/content-actions.ts:110-123 | dropping the blanks from one language of the zipped list gives that language's parsed list back |
| ContentActions.NumberOf | src/app/actions/content-actions.ts:223-224 | Number(text) is a number or NaN, and 0 for blank text |
| ContentActions.OptionalNumber | src/app/actions/content-actions.ts:223-224 | undefined exactly when the field is empty, and never null |
| ContentActions.ZeroPriceKept | src/app/actions/content-actions.ts:223 | a price of "0" is kept as the number 0 |
| ContentActions.CreatePost | src/app/actions/content-actions.ts:89-150 | an empty English title fails before any read; a failed read fails; an existing slug fails without saving; otherwise the new post goes first and the others keep their order |
| ContentActions.UpdatePost | src/app/actions/content-actions.ts:152-168 | an unknown slug fails with no write; otherwise exactly the first post with the slug is replaced; a fallback list is changed in place |
| ContentActions.DeletePost | src/app/actions/content-actions.ts:170-183 | every post with the slug is removed and the rest is written back; success even when none matched |
| ContentActions.CreateClass | src/app/actions/content-actions.ts:187-271 | the same checks and prepend as createPost, with zipped objectives and prerequisites and optional numbers |
| ContentActions.UpdateClass | src/app/actions/content-actions.ts:273-289 | an unknown slug fails with no write; otherwise exactly the first class with the slug is replaced |
| ContentActions.DeleteClass | src/app/actions/content-actions.ts:291-304 | every class with the slug is removed; success even when none matched |
| ContentActions.CheckCredentials | src/app/actions/content-actions.ts:320-331 | accepts exactly when the current password matches and the new password is empty or equals its confirmation; the email is always replaced; an empty new password keeps the old one |
| ContentActions.UpdateUserCredentials | src/app/actions/content-actions.ts:308-341 | the checks run in order (missing fields, wrong password, mismatch); a failed admin read escapes; with environment credentials it reports success without writing |
| UserActions.NewMessage | src/app/actions/user-actions.ts:23-27 | the stored message is the submitted fields plus the id and the time |
| UserActions.NewRegistration | src/app/actions/user-actions.ts:62-66 | the stored registration is the submitted fields plus the id and the time |
| UserActions.SaveContactMessage | src/app/actions/user-actions.ts:20-37 | the new message goes first and the rest keep their order; a failed read or save replies "An unknown error occurred."; a fallback list is changed in place |
| UserActions.GetContactMessages | src/app/actions/user-actions.ts:39-41 | the messages read from the store; a failed read is an error |
| UserActions.DeleteContactMessage | src/app/actions/user-actions.ts:43-55 | every message with the id is removed; success even when none matched |
| UserActions.SaveClassRegistration | src/app/actions/user-actions.ts:59-76 | the new registration goes first and the rest keep their order; a failed read or save replies "An unknown error occurred."; a fallback list is changed in place |
| UserActions.GetClassRegistrations | src/app/actions/user-actions.ts:78-80 | the registrations read from the store; a failed read is an error |
| UserActions.DeleteClassRegistration | src/app/actions/user-actions.ts:82-94 | every registration with the id is removed; success even when none matched |
| UserActions.UnconfiguredMessageIsListed | src/app/actions/user-actions.ts:28 | without a blob token a sent message still shows in the next listing, through the shared fallback list |
| UserActions.UnconfiguredDeleteIsLost | src/app/actions/user-actions.ts:46-47 | without a blob token a delete does not show in the next listing |
| UserActions.SaveThenDelete | src/app/actions/user-actions.ts:28-46 | saving a message under a fresh id and deleting that id gives the list back |
| AnalyticsActions.ReferrerType | src/app/actions/analytics-actions.ts:13-53 | always a known source label; a missing or empty referrer is Direct; an unparsable one is Other |
| AnalyticsActions.HostType | src/app/actions/analytics-actions.ts:24-48 | always a known source label |
| AnalyticsActions.ReferrerTypeIsFirstMatch | src/app/actions/analytics-actions.ts:21-48 | after the own-host test, the first rule whose substring the hostname contains decides, else Other |
| AnalyticsActions.HostTypeIsFirstMatch | src/app/actions/analytics-actions.ts:24-48 | the if-chain is the ordered rule table |
| AnalyticsActions.TwitterByLetters | src/app/actions/analytics-actions.ts:39-41 | a hostname containing "t.co" and none of the earlier rules is Twitter / X |
| AnalyticsActions.RedditIsTwitter | src/app/actions/analytics-actions.ts:39-41 | "reddit.com" is classed Twitter / X through its "t.co" substring |
| AnalyticsActions.NewView | src/app/actions/analytics-actions.ts:58-68 | the view records the path and time; a missing ip or user agent becomes "unknown"; a missing referer is null |
| AnalyticsActions.TrackPageView | src/app/actions/analytics-actions.ts:56-73 | appends exactly one view at the end and saves the list; earlier views are unchanged; a failed read or save reports failure; a fallback list is changed in place |
| AnalyticsActions.TrackAddsOne | src/app/actions/analytics-actions.ts:70-72 | tracking adds one to the total and one to the count of its path |
| AnalyticsActions.PathsOf | src/app/actions/analytics-actions.ts:99-102 | the path of every view, in order |
| AnalyticsActions.SourcesOf | src/app/actions/analytics-actions.ts:126-131 | the source label of every view, in order |
| AnalyticsActions.IpsBounded | src/app/actions/analytics-actions.ts:140 | there are never more distinct ips than views, and at least one when there is a view |
| AnalyticsActions.DailyChangePercent | src/app/actions/analytics-actions.ts:90-95 | 0 with no views on either day; 100 when only today has views; positive exactly when today beats yesterday |
| AnalyticsActions.SummaryTotals | src/app/actions/analytics-actions.ts:97-140 | totalViews is the number of views; unique visitors never exceed views; the per-path counts add up to totalViews |
| AnalyticsActions.TopPagesFacts | src/app/actions/analytics-actions.ts:99-107 | at most five top pages, non-increasing, each count the number of views of that path |
| AnalyticsActions.SourcesFacts | src/app/actions/analytics-actions.ts:126-131 | the traffic sources count every view once, under known labels |
| AnalyticsActions.CountPages | src/app/actions/analytics-actions.ts:99-102 | the per-path reduce builds the tally of the paths |
| AnalyticsActions.CountSources | src/app/actions/analytics-actions.ts:126-131 | the per-source reduce builds the tally of the source labels |
| AnalyticsActions.GetAnalyticsData | src/app/actions/analytics-actions.ts:75-148 | a failed read escapes; otherwise the summary of the stored views |
| Tally.KeysOf | src/app/actions/analytics-actions.ts:104 | the keys of the dictionary in insertion order |
| Tally.BumpLookup | src/app/actions/analytics-actions.ts:100 | acc[key] = (acc[key] or 0) + 1 adds one to that key only |
| Tally.BumpTotal | src/app/actions/analytics-actions.ts:100 | each bump adds one to the total |
| Tally.BumpKeys | src/app/actions/analytics-actions.ts:100 | keys keep their places and a new key goes last |
| Tally.TallyCounts | src/app/actions/analytics-actions.ts:99-102 | every count is the number of times its key was seen |
| Tally.TallyKeys | src/app/actions/analytics-actions.ts:99-102 | the keys are exactly the distinct keys seen, each once |
| Tally.TallyTotal | src/app/actions/analytics-actions.ts:99-102 | the counts add up to the number of keys folded in |
| Tally.EntryCounts | src/app/actions/analytics-actions.ts:104 | each entry's count is the number of occurrences of its key |
| Tally.Insert | src/app/actions/analytics-actions.ts:105 | inserting adds exactly that entry |
| Tally.SortByCount | src/app/actions/analytics-actions.ts:105 | sorting is a permutation of the entries |
| Tally.SortSorted | src/app/actions/analytics-actions.ts:105 | sorting yields non-increasing counts |
| Tally.InsertWithCount | src/app/actions/analytics-actions.ts:105 | inserting an entry puts it in front of the entries of its own count and moves no other entry of that count |
| Tally.SortStable | src/app/actions/analytics-actions.ts:105 | the sort is stable: the entries of each count come out in their first-seen order, so the top five are fully determined |
| Tally.TopFive | src/app/actions/analytics-actions.ts:106 | at most five entries, never more than the dictionary holds |
| Tally.TopFiveFacts | src/app/actions/analytics-actions.ts:104-107 | non-increasing, taken from the dictionary, min(5, size) long, and no entry left out beats an entry kept |
| Seqs.Filter | src/components/classes/classes-page-content.tsx:50 | filter keeps exactly the elements that pass |
| Seqs.FilterIsSubsequence | src/components/classes/classes-page-content.tsx:50 | filter keeps the input order |
| Seqs.FilterAll | src/components/classes/classes-page-content.tsx:47-54 | a filter every element passes is the identity |
| JsString.Lower | src/app/actions/content-actions.ts:28 | toLowerCase keeps the length and lowers each ASCII capital, character by character |
| JsString.TrimResult | src/app/actions/content-actions.ts:29 | the result of trim has no edge whitespace and holds only characters of its input |
| JsString.TrimTrimmed | src/app/actions/content-actions.ts:29 | trim leaves a trimmed string as it is |
| JsString.Split | src/app/actions/content-actions.ts:111 | split gives at least one piece, none holding the separator |
| JsString.SplitJoin | src/components/admin/classes/edit-class-form.tsx:347 | splitting a join gives the pieces back when none holds the separator |
| JsString.JoinSplit | src/components/admin/classes/edit-class-form.tsx:188 | joining a split gives the string back |
| LocalizedLists.Rewrite | src/components/admin/blog/edit-post-form.tsx:170-190 | one entry per piece; piece i is entry i's text in the edited language; other languages of surviving entries are kept; new entries have '' elsewhere; extra entries are dropped |
| LocalizedLists.ApplyPieces | src/components/admin/classes/edit-class-form.tsx:186-204 | the copy/assign/push/truncate loop computes Rewrite |
| LocalizedLists.RewriteOwnColumn | src/components/admin/classes/edit-class-form.tsx:186-204 | writing back a language's own texts leaves the list as it was |
| LocalizedLists.TagPieces | src/components/admin/blog/edit-post-form.tsx:172 | the box always hands over at least one piece, even when empty |
| LocalizedLists.TagsRoundTrip | src/components/admin/blog/edit-post-form.tsx:294 | typing back the displayed tags changes nothing when there is a tag and no tag text holds ',' or edge spaces |
| LocalizedLists.EmptyTagsBoxKeepsOneTag | src/components/admin/blog/edit-post-form.tsx:172-186 | an emptied tags box leaves one tag, empty in the edited language |
| LocalizedLists.LinesRoundTrip | src/components/admin/classes/edit-class-form.tsx:347 | typing back the displayed lines changes nothing when there is an entry and none holds a newline |
| EditPostForm.NormalizeTag | src/components/admin/blog/edit-post-form.tsx:126-128 | a legacy string tag becomes that string in every language; a localized tag is kept |
| EditPostForm.NormalizeSeo | src/components/admin/blog/edit-post-form.tsx:129 | a missing seo becomes empty localized texts |
| EditPostForm.Normalize | src/components/admin/blog/edit-post-form.tsx:124-130 | every tag normalized, seo present, and every other field (slug, texts, author, date, category, image) as stored |
| EditPostForm.NormalizeCurrent | src/components/admin/blog/edit-post-form.tsx:124-130 | a post already in current form loads unchanged |
| EditPostForm.Editor.constructor | src/components/admin/blog/edit-post-form.tsx:118 | no post loaded yet |
| EditPostForm.Editor.Load | src/components/admin/blog/edit-post-form.tsx:120-135 | loads the normalized first post with the slug exactly when one exists; otherwise the editor is left as it was |
| EditPostForm.Editor.SetText | src/components/admin/blog/edit-post-form.tsx:143-153 | changes one language of one text field and nothing else |
| EditPostForm.Editor.SetSeo | src/components/admin/blog/edit-post-form.tsx:155-168 | changes one language of one seo field and nothing else |
| EditPostForm.Editor.SetTags | src/components/admin/blog/edit-post-form.tsx:170-190 | the tags become Rewrite of the old tags with the trimmed comma pieces |
| EditPostForm.Editor.Submit | src/components/admin/blog/edit-post-form.tsx:192-208 | nothing happens without a post; otherwise, for every store and every failure, the reply and new store are those of updatePost: read failure, "Post not found.", or the ReplaceFirst list written back (and put into the shared default when that was read); with a working store and a stored slug the stored list is exactly the ReplaceFirst list and the reply is a success |
| EditPostForm.RetypeTagsKeepsThem | src/components/admin/blog/edit-post-form.tsx:294 | typing back the displayed tags leaves the post unchanged |
| EditClassForm.Normalize | src/components/admin/classes/edit-class-form.tsx:143-146 | the stored class with a seo block present, everything else kept |
| EditClassForm.InputNumber | src/components/admin/classes/edit-class-form.tsx:286 | an empty box is undefined; anything else is Number(text); "0" is the number 0 |
| EditClassForm.SaveNumber | src/components/admin/classes/edit-class-form.tsx:211-212 | undefined, null and NaN become undefined; numbers are kept |
| EditClassForm.InputSavedClean | src/components/admin/classes/edit-class-form.tsx:286-290 | an empty or non-numeric box is saved as undefined; any other box as Number(text) |
| EditClassForm.DataToSave | src/components/admin/classes/edit-class-form.tsx:209-213 | price and maxStudents cleaned; every other field kept |
| EditClassForm.DataToSaveIdempotent | src/components/admin/classes/edit-class-form.tsx:209-213 | cleaning twice is cleaning once |
| EditClassForm.Editor.constructor | src/components/admin/classes/edit-class-form.tsx:138 | no class loaded yet |
| EditClassForm.Editor.Load | src/components/admin/classes/edit-class-form.tsx:140-151 | loads the normalized first class with the slug exactly when one exists; otherwise the editor is left as it was |
| EditClassForm.Editor.SetText | src/components/admin/classes/edit-class-form.tsx:159-169 | changes one language of one text field and nothing else |
| EditClassForm.Editor.SetSeo | src/components/admin/classes/edit-class-form.tsx:171-184 | changes one language of one seo field and nothing else |
| EditClassForm.Editor.SetList | src/components/admin/classes/edit-class-form.tsx:186-204 | the list becomes Rewrite of the old list with the untrimmed newline pieces; the other list is kept |
| EditClassForm.Editor.SetPrice | src/components/admin/classes/edit-class-form.tsx:286 | the price becomes InputNumber of the box text |
| EditClassForm.Editor.SetMaxStudents | src/components/admin/classes/edit-class-form.tsx:290 | maxStudents becomes InputNumber of the box text |
| EditClassForm.Editor.Submit | src/components/admin/classes/edit-class-form.tsx:206-228 | nothing happens without a class; otherwise, for every store and every failure, the reply and new store are those of updateClass for the cleaned copy (DataToSave): read failure, "Class not found.", or the ReplaceFirst list written back (and put into the shared default when that was read); with a working store and a stored slug the stored list is exactly the ReplaceFirst list and the reply is a success |
| EditClassForm.RetypeListKeepsIt | src/components/admin/classes/edit-class-form.tsx:347-351 | typing back the displayed lines leaves the class unchanged |
| AboutContentForm.SetField | src/components/admin/content/about-content-form.tsx:136-142 | sets one page text and keeps the others and the seo |
| AboutContentForm.TimelineChanged | src/components/admin/content/about-content-form.tsx:157-170 | an index out of range changes nothing; a year edit sets that year only; a title or description edit without a language changes nothing |
| AboutContentForm.NewEvent | src/components/admin/content/about-content-form.tsx:172-179 | the new event has the current year and empty texts |
| AboutContentForm.RemoveAt | src/components/admin/content/about-content-form.tsx:181-184 | removes exactly the event at the index and shifts the rest; out of range changes nothing |
| AboutContentForm.AddThenRemove | src/components/admin/content/about-content-form.tsx:172-184 | adding an event and removing the last one restores the timeline |
| AboutContentForm.RemoveKeepsOrder | src/components/admin/content/about-content-form.tsx:181-184 | the remaining events keep their order |
| AboutContentForm.ErrorDescriptionAsWritten | src/components/admin/content/about-content-form.tsx:199 | the toast description as written: the page result's message whenever it is non-empty |
| AboutContentForm.TimelineFailureShowsAboutSuccess | src/components/admin/content/about-content-form.tsx:199 | when only the timeline save fails, the error toast shows the page's success message |
| AboutContentForm.ErrorDescription | src/components/admin/content/about-content-form.tsx:195-200 | the corrected description names the save that failed |
| AboutContentForm.ErrorDescriptionIsAFailure | src/components/admin/content/about-content-form.tsx:195-200 | the corrected description is always a failure message |
| AboutContentForm.Editor.constructor | src/components/admin/content/about-content-form.tsx:130-134 | copies of the props, with an empty seo block when none is stored |
| AboutContentForm.Editor.SetText | src/components/admin/content/about-content-form.tsx:136-142 | one language of one page text; the timeline is kept |
| AboutContentForm.Editor.SetSeo | src/components/admin/content/about-content-form.tsx:144-155 | one language of one seo text; the timeline is kept |
| AboutContentForm.Editor.ChangeEvent | src/components/admin/content/about-content-form.tsx:157-170 | the timeline becomes TimelineChanged |
| AboutContentForm.Editor.AddEvent | src/components/admin/content/about-content-form.tsx:172-179 | appends exactly one new event at the end |
| AboutContentForm.Editor.RemoveEvent | src/components/admin/content/about-content-form.tsx:181-184 | the timeline becomes RemoveAt |
| AboutContentForm.Editor.Submit | src/components/admin/content/about-content-form.tsx:186-201 | saves the page, then the timeline (the page stays saved if the timeline fails); refreshes exactly when both pass; the error toast's description is ErrorDescription of the two replies, so it always names a failed save; the environment and shared default are unchanged |
| FormSchemas.NoAtIsNotEmail | src/components/contact/contact-form.tsx:75 | an address without '@' is refused |
| FormSchemas.SimpleEmail | src/components/contact/contact-form.tsx:75 | local@host.tld is accepted when its parts are valid |
| FormSchemas.PlaceholderIsEmail | src/components/contact/contact-form.tsx:75 | the placeholder address passes |
| FormSchemas.DoubleDotIsNotEmail | src/components/contact/contact-form.tsx:75 | two dots in a row before the '@' are refused |
| RegistrationForm.DefaultsStayOnStepOne | src/components/classes/registration-form.tsx:132-145 | the untouched form passes neither the step check nor the schema |
| RegistrationForm.OfferedLevelsAreClassLevels | src/components/classes/registration-form.tsx:264 | the offered levels are exactly A1 to C2, each once |
| RegistrationForm.Payload | src/components/classes/registration-form.tsx:148-152 | the fields plus the class title in the page language and the class slug |
| RegistrationForm.Form.constructor | src/components/classes/registration-form.tsx:128-138 | step 1 with the default fields |
| RegistrationForm.Form.Next | src/components/classes/registration-form.tsx:140-145 | step 2 exactly when name, email and phone pass; fields kept |
| RegistrationForm.Form.Back | src/components/classes/registration-form.tsx:316 | always step 1; fields kept |
| RegistrationForm.Form.Submit | src/components/classes/registration-form.tsx:147-170 | nothing without a valid schema; success resets fields and step; failure keeps both; with a valid schema, for every store and failure: a failed read shows the error, otherwise the payload is put first in the list read, that list is written (and put into the shared default when that was read), and the outcome is Registered exactly when the write goes through, which it always does without storage |
| RegistrationForm.HappyPath | src/components/classes/registration-form.tsx:140-170 | valid details and a working store end in a registration |
| ContactForm.UntouchedFormInvalid | src/components/contact/contact-form.tsx:73-92 | a form with any empty field fails validation |
| ContactForm.Payload | src/components/contact/contact-form.tsx:96 | the payload is the four fields |
| ContactForm.Form.constructor | src/components/contact/contact-form.tsx:85-93 | all fields start empty |
| ContactForm.Form.Submit | src/components/contact/contact-form.tsx:95-111 | nothing without a valid schema; success resets the fields; failure keeps them; with a valid schema, for every store and failure: a failed read shows the error, otherwise the message is put first in the list read, that list is written (and put into the shared default when that was read), and the outcome is Sent exactly when the write goes through, which it always does without storage |
| ClassesPage.FilterClasses | src/components/classes/classes-page-content.tsx:50-54 | exactly the classes of the chosen type and level, 'all' admitting any |
| ClassesPage.FilterKeepsOrder | src/components/classes/classes-page-content.tsx:50-54 | the result keeps the input order |
| ClassesPage.InitialShowsAll | src/components/classes/classes-page-content.tsx:47-54 | with both selects at 'all' every class is shown |
| ClassesPage.EmptyMessageIff | src/components/classes/classes-page-content.tsx:95-99 | the empty message shows exactly when no class matches |
| AdminClassesPage.StatusBadge | src/components/admin/classes/admin-classes-page-content.tsx:95-108 | each status has its own badge variant |
| AdminClassesPage.StatusBadgeInjective | src/components/admin/classes/admin-classes-page-content.tsx:95-108 | no two statuses share a badge |
| AdminClassesPage.DeleteFeedback | src/components/admin/classes/admin-classes-page-content.tsx:128-140 | refresh exactly on success; otherwise the action's message is shown |
| AdminClassesPage.HandleDelete | src/components/admin/classes/admin-classes-page-content.tsx:128-140 | for every store and failure: a failed read or write shows "Failed to delete class.", otherwise the list read without the slug is written and the table refreshes; without storage it refreshes and nothing is stored; a configured refresh leaves no stored class with the slug |
| BlogPage.FilterPosts | src/components/blog/blog-page-content.tsx:49-55 | exactly the posts of the category whose title or content holds the term, case-insensitively; an empty term matches all |
| BlogPage.FilterKeepsOrder | src/components/blog/blog-page-content.tsx:49-55 | the result keeps the input order |
| BlogPage.InitialShowsAll | src/components/blog/blog-page-content.tsx:46-55 | before any choice every post is listed |
| BlogPage.FoundByOwnTitle | src/components/blog/blog-page-content.tsx:51-53 | searching a post's own title finds it |
| BlogPage.EmptyMessageIff | src/components/blog/blog-page-content.tsx:96-100 | the empty message shows exactly when no post matches |
| AdminBlogPage.FilterPosts | src/components/admin/blog/admin-blog-page-content.tsx:95-100 | exactly the posts of the category whose title holds the term, case-insensitively; an empty term matches all |
| AdminBlogPage.FilterKeepsOrder | src/components/admin/blog/admin-blog-page-content.tsx:95-100 | the result keeps the input order |
| AdminBlogPage.AdminFindsNoMore | src/components/admin/blog/admin-blog-page-content.tsx:97-98 | every post the admin search finds, the public search finds too |
| AdminBlogPage.ContentOnlyMatch | src/components/admin/blog/admin-blog-page-content.tsx:97-98 | a term only in the content shows the post publicly but not in the admin list |
| AdminBlogPage.EmptyMessageIff | src/components/admin/blog/admin-blog-page-content.tsx:207-211 | the empty message shows exactly when no post matches |
| AdminBlogPage.HandleDelete | src/components/admin/blog/admin-blog-page-content.tsx:102-114 | for every store and failure: a failed read or write shows "Failed to delete post.", otherwise the list read without the slug is written and the list refreshes; without storage it refreshes and nothing is stored; a configured refresh leaves no stored post with the slug |
| BlogPost.PostPage | src/components/blog/blog-post.tsx:43-47 | notFound exactly when no post has the slug; otherwise the first stored post with that slug, as find returns it |
| BlogPost.Take | src/components/blog/blog-post.tsx:51 | exactly the first min(n, length) elements |
| BlogPost.RelatedPosts | src/components/blog/blog-post.tsx:49-51 | exactly the first min(3, k) of the k stored posts of the same category and another slug, in stored order |
| BlogPost.AllWhenFew | src/components/blog/blog-post.tsx:49-51 | with three candidates or fewer, all of them are shown in order |
| BlogPost.NotRelatedToItself | src/components/blog/blog-post.tsx:50 | the current post is never among its related posts |
| BlogPost.ThreeWhenAvailable | src/components/blog/blog-post.tsx:49-51 | with three or more candidates exactly three are shown |
| BlogPost.BreakLines | src/components/blog/blog-post.tsx:84 | no newline is left, each one becoming the 6-character break tag |
| BlogPost.BreakLinesConcat | src/components/blog/blog-post.tsx:84 | the replacement is character by character: the result for a concatenation is the concatenation of the results |
| BlogPost.BreakLinesChar | src/components/blog/blog-post.tsx:84 | a newline becomes `<br />` and every other character is kept |
| ClassDetails.ClassPage | src/components/classes/class-details.tsx:78-82 | notFound exactly when no class has the slug; otherwise the first stored class with that slug, as find returns it |
| ClassDetails.VariantsAgree | src/components/classes/class-details.tsx:54-64 | the badge variant of each status is the admin table's |
| ClassDetails.PriceShownIffNumber | src/components/classes/class-details.tsx:146 | the price block shows exactly for a number, 0 included |
| ClassDetails.ZeroRendersStrayText | src/components/classes/class-details.tsx:161 | a maxStudents of 0 renders a stray "0" |
| ClassDetails.Capacity | src/components/classes/class-details.tsx:161-166 | the capacity line shows exactly for a non-zero number; otherwise nothing |
| ClassDetails.CapacityAgreesOnTruthy | src/components/classes/class-details.tsx:161-166 | the corrected rule agrees with the written one on every value except 0 and NaN |
| Metadata.Or | src/components/layout/metadata.tsx:45 | a \|\| b on strings: the empty string counts as missing |
| Metadata.BranchOf | src/components/layout/metadata.tsx:44-146 | a branch is taken exactly when its page type is given with its content |
| Metadata.Prefix | src/components/layout/metadata.tsx:112 | substring(0, n): a prefix of length min(n, length) |
| Metadata.Render | src/components/layout/metadata.tsx:151-170 | every URL tag is domain + path; og:type is article exactly for posts; og and twitter images agree; the default branch has a non-empty title and description |
| Metadata.DefaultsWithoutContent | src/components/layout/metadata.tsx:34-36 | without a matching type and content: the caller's title and description or the site defaults, and the default image |
| Metadata.PostTypeWithoutPost | src/components/layout/metadata.tsx:156 | a post page without its post is still an article, with default data |
| Metadata.SeoTitleWins | src/components/layout/metadata.tsx:59-62 | the non-empty SEO title wins, otherwise the post's title |
| Metadata.ClassTitleFallback | src/components/layout/metadata.tsx:87-90 | the non-empty SEO title wins, otherwise the class's title |
| Metadata.AboutDescriptionCut | src/components/layout/metadata.tsx:112 | without an SEO description the About description is the story cut to 160 characters |
| Metadata.ImageRule | src/components/layout/metadata.tsx:36-90 | only post and class pages use their own image |
| Metadata.OfferIffPrice | src/components/layout/metadata.tsx:101-108 | a course carries an offer exactly when its price is defined, 0 included |
| Metadata.PageDataMatchesHead | src/components/layout/metadata.tsx:110-145 | the About and Contact structured data use the head's title, description and URL |
| Middleware.Gate | src/middleware.ts:4-18 | a redirect to /login with the path exactly for an /admin path without the cookie |
| Middleware.Handle | src/middleware.ts:20-23 | the redirect happens exactly on matched paths without the cookie |
| Middleware.MatchedPathsAreAdmin | src/middleware.ts:9-22 | every matched path starts with /admin |
| Middleware.AnyTokenPasses | src/middleware.ts:6-10 | any cookie value lets the request through |
| Middleware.LoginTarget | src/app/login/page.tsx:98 | the redirect parameter when non-empty, else /admin |
| Middleware.RedirectRoundTrip | src/middleware.ts:11-13 | after logging in, a redirected request returns to the page it asked for |
| MainSidebar.DashboardActive | src/components/admin/main-sidebar.tsx:41 | Dashboard is active exactly on /admin |
| MainSidebar.OtherItemActive | src/components/admin/main-sidebar.tsx:41 | every other item is active exactly when the path starts with its href |
| MainSidebar.HrefShape | src/components/admin/main-sidebar.tsx:12-20 | every non-dashboard href is /admin/ plus a first letter no other href has |
| MainSidebar.AtMostOneActive | src/components/admin/main-sidebar.tsx:12-41 | no path makes two items active |
| MainSidebar.RawPrefixActivates | src/components/admin/main-sidebar.tsx:41 | "/admin/blogx" makes Blog Posts active |
| AuthContext.SyncedUser | src/context/auth-context.tsx:42-53 | a user exactly when authenticated, named Admin, with the cookie's email when there is one |
| AuthContext.Resolve | src/context/auth-context.tsx:57 | the admin user given at render, fetched only when there is none |
| AuthContext.AuthProvider.constructor | src/context/auth-context.tsx:37-40 | no user, loading, and the initial admin user |
| AuthContext.AuthProvider.Sync | src/context/auth-context.tsx:42-53 | the user becomes SyncedUser and loading ends |
| AuthContext.AuthProvider.Login | src/context/auth-context.tsx:55-68 | true exactly when email and password equal the resolved admin's; success sets the user and a one-day cookie; failure changes nothing |
| AuthContext.AuthProvider.Logout | src/context/auth-context.tsx:70-73 | no user and no cookie |
| AuthContext.TokenOf | src/middleware.ts:6 | the middleware sees a token exactly when the cookie exists |
| AuthContext.LoginThenLogout | src/context/auth-context.tsx:55-73 | a successful login opens the admin pages and a logout closes them |
| AuthContext.WrongPasswordKeepsGateClosed | src/context/auth-context.tsx:61-67 | a wrong password leaves the gate closed |

## Left out

- Blob I/O: the remote calls and the JSON text format. The store is a map from path to a parsed value. A network failure other than a 404 is the `readFails` flag; a failing `put` is `writeFails`.
- Cache revalidation, router refreshes and pushes, toasts, and all JSX rendering and text tables: these have no data contract.
- Concurrent admin requests: every operation is modelled as one sequential step.
- Time and randomness are parameters: timestamps, message ids, the current year of a new timeline event, and today's and yesterday's start times.
- AnalyticsActions.ReferrerType: URL parsing is the `hostname` parameter (`None` for an unparsable referrer).
- AnalyticsActions.GetAnalyticsData: the seven-day `dailyViews` series and its locale date labels are not modelled. Timestamps are parsed by the `timeOf` parameter.
- AnalyticsActions.DailyChangePercent: the general percentage is a `real`, not an IEEE double.
- JsString.Lower: lowers ASCII letters only. Other letters are kept, so the search and `slugify` are exact for ASCII text only.
- FormSchemas.IsEmail: approximates zod's email regular expression by its main rules. These are one '@', the local-part character set, no leading dot and no "..", letter/digit labels and a tld of two or more letters.
- FormSchemas.MinLength: counts characters, where zod counts UTF-16 code units.
- ContentActions.NumberOf: reads blank text as 0 and a run of decimal digits as its value. Signs, decimals and exponents are read as NaN.
- ContentActions.Field: a form field that was not sent reads as "", where the source stores `null`. Both are falsy in every test the actions make.
- The generic `handleInputChange` of the edit forms (any top-level field, any value) is left out. Only the price and capacity inputs are modelled, as `SetPrice` and `SetMaxStudents`.
- AboutContentForm.TimelineChanged: modelled on values. The source changes the selected event object in place, and that object is shared with the previous state.
- AboutContentForm.Editor.Submit: shows the corrected description (`ErrorDescription` of the two replies). The description as written is `ErrorDescriptionAsWritten`, under Findings.
- Metadata.Prefix: counts characters, where `substring(0, 160)` counts UTF-16 code units. A story with characters outside the Basic Multilingual Plane is cut at a different place, and the source can cut one in the middle of a surrogate pair.
- ContentActions.CreatePost: takes the category as a `PostCategory` value. The source casts the raw form string (`as PostCategory`) without a check, so a value outside the enumeration would be stored as it is.
- ContentActions.CreateClass: takes the type, level and status as enumeration values. The source casts the raw form strings (`as ClassType`, `as ClassLevel`, `as ClassStatus`) without a check, so a value outside an enumeration would be stored as it is.
- The `seo` field is required in `Types`. A stored record without one behaves like empty texts under `||`. The load-time normalisers take it as optional.
- Metadata.Render: the JSON-LD members that are constants (context, publisher and logo) are left implicit.
- CmsStore.Store: the environment credentials are read once, when the store is built. The source reads `process.env` on every admin-user call, so a change of the environment while the process runs is not modelled.
- Cookies are a value in `AuthProvider`. The browser cookie jar and the URL encoding of the redirect parameter are left out.
- src/lib/types.ts has no operations. Its enumerations and records are the datatypes in `Types`.

## Findings

| source | as written | input that shows it | evidently intended | confidence | as-written member | corrected member |
|---|---|---|---|---|---|---|
| src/lib/type-utils.ts:12-15 | `locales[language] ?? faIR` on an object literal | the code "toString" returns `Object.prototype.toString`, not a locale | any code other than fa, en or de gives Persian | not executed | TypeUtils.AsWrittenReturnsNonLocale | TypeUtils.GetValidLocale |
| src/components/classes/class-details.tsx:161 | `{classInfo.maxStudents && (...)}` | maxStudents 0 renders the text "0" in the sidebar | nothing is rendered for 0 | not executed | ClassDetails.ZeroRendersStrayText | ClassDetails.Capacity |
| src/components/admin/content/about-content-form.tsx:199 | `aboutResult.message \|\| timelineResult.message` | page save succeeds and timeline save fails: the error toast reads "About page content updated successfully!" | the message of the save that failed | not executed | AboutContentForm.TimelineFailureShowsAboutSuccess | AboutContentForm.ErrorDescriptionIsAFailure |
