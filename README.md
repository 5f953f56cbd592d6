# von AI marketing site — a Dafny model of its core

von AI's site is an Express server in front of a Supabase (PostgREST) database,
with a React front end. This project models the parts of it that make decisions:

- the bulk newsletter sender and the transactional mails (`server/email.ts`);
- the public API routes for the blog, newsletter subscription and the contact form (`server/routes.ts`);
- the table defaults and the zod insert/login schemas (`shared/schema.ts`);
- the admin credential check and the admin gate (`server/auth.ts`);
- the request-log middleware, the error handler and the session cookie (`server/index.ts`);
- the blog post editor's form state, including the slug derived from a title (`PostEditor.tsx`);
- the case-study facets and filter (`CaseStudies.tsx`);
- the testimonial initials and the client-logo strip (`Testimonials.tsx`);
- the newsletter composer's guards, labels and reset (`Newsletter.tsx`).

Every call into code that is not modelled is a parameter of the model:
- the mail provider (`Email.Provider`);
- each database query, lookup and write (`Routes.Query`, `Routes.Lookup`, `Routes.Write`, `Auth.Lookup`);
- bcrypt's comparison (`Auth.Comparison`);
- zod's `.email()` and `.url()` checks (`Schema.FormatCheck`);
- `JSON.stringify` (`ServerIndex.JsonBody`);
- the clock, which is passed as a `now: int`.

Each modelled call either answers or throws.

Where the source keeps mutable state, the model keeps it in a class:
- the three tables the routes touch (`Routes.Registry`);
- one request's logging state (`ServerIndex.RequestLog`);
- the post editor form (`PostEditor.PostForm`);
- the composer (`NewsletterComposer.Composer`).

Each of their methods is proved equal to a specification function of the old state. The properties are proved about those functions.

Modules:

| file | module | models |
|---|---|---|
| common.dfy | `Wrappers` | `Option`, `Result` |
| jstext.dfy | `JsText` | the string operations the source calls: ASCII `toLowerCase`/`toUpperCase`, `startsWith`, `includes`, `split`, `trim`, number formatting |
| email.dfy | `Email` | `server/email.ts` |
| schema.dfy | `Schema` | `shared/schema.ts` |
| routes.dfy | `Routes` | `server/routes.ts` |
| auth.dfy | `Auth` | `server/auth.ts` |
| server_index.dfy | `ServerIndex` | `server/index.ts` |
| slug.dfy | `Slug` | the slug derivation of `PostEditor.tsx` |
| post_editor.dfy | `PostEditor` | `PostEditor.tsx` |
| case_studies.dfy | `CaseStudies` | `CaseStudies.tsx` |
| testimonials.dfy | `Testimonials` | `Testimonials.tsx` |
| newsletter_composer.dfy | `NewsletterComposer` | `Newsletter.tsx` |

Behaviour of the code worth knowing:

- The subscribe route sends no welcome mail. `sendWelcomeEmail` is modelled on its own.
- The bounce test is a case-sensitive substring test. "Invalid address" is not a bounce.
- The source has no password-reset, unsubscribe, login, logout or newsletter-send route.

## Model

| member | source | states |
|---|---|---|
| Email.IsEmailServiceAvailable | server/email.ts:3-7 | definition: the service is available iff `RESEND_API_KEY` is set and non-empty |
| Email.OrElse | server/email.ts:25-26 | definition: `x \|\| fallback`: the given value when present and non-empty, otherwise the fallback |
| Email.Sender | server/email.ts:25-27 | definition: the `from` header `name <address>` built from the newsletter's sender fields |
| Email.SenderDefaults | server/email.ts:25-27 | the name and the address fall back to "von AI" and "hello@vonai.com" independently, each when absent or empty; with both missing the header is `von AI <hello@vonai.com>` |
| Email.ErrorMessage | server/email.ts:50 | definition: an `Error`'s message, or "Unknown error" for any other thrown value |
| Email.IsBounce | server/email.ts:54 | definition: the message includes "bounce", "invalid" or "not found", case-sensitively |
| Email.CapitalisedInvalidIsNotBounce | server/email.ts:54 | the bounce test is case-sensitive: "invalid" is a bounce, "Invalid" is not |
| Email.NoOccurrenceOfFirstChar | server/email.ts:54 | a pattern whose first character occurs at no possible start position is not included |
| Email.ErrorLine | server/email.ts:51 | definition: `Failed to send to <email>: <message>` |
| Email.Attempt | server/email.ts:39-61 | definition: the callback's effect on the tally for one recipient: `sent` up on success; otherwise `failed` up, an error line, and for a bounce message the recipient in `bounced` and an `onBounce` call when given |
| Email.TallyOf | server/email.ts:29-61 | definition: the tally after running the callback for each recipient in turn from the zero tally |
| Email.FailedOf | server/email.ts:48-51 | reference definition of the failed recipients: every entry is one whose send the provider rejected |
| Email.FailedMembers | server/email.ts:48-51 | an address is in the failed list iff it is a recipient whose send the provider rejected |
| Email.BouncedMembers | server/email.ts:53-55 | an address is in the bounced list iff it is a recipient whose rejection message is a bounce |
| Email.FailedOfAppend | server/email.ts:36-63 | the failed list of a longer recipient list extends the old one by the new recipient's entry |
| Email.BouncedOfAppend | server/email.ts:36-63 | the bounced list of a longer recipient list extends the old one by the new recipient's entry |
| Email.BounceCallsFor | server/email.ts:56-58 | definition: one `onBounce(email, message)` call per bounced recipient, in the model's send order, with that recipient's message |
| Email.TallySnoc | server/email.ts:39-61 | the tally of one more recipient is the old tally updated by that recipient's callback |
| Email.AttemptCounts | server/email.ts:40-51 | one send adds exactly one to `sent` or to `failed`, and one error line per failure |
| Email.TallyCounts | server/email.ts:29-71 | every recipient is counted once: `sent + failed` is the number of recipients, `failed` is the number of rejected recipients, and there is one error line per failure |
| Email.TallyErrors | server/email.ts:49-51 | the k-th error line is `Failed to send to <email>: <message>` for the k-th rejected recipient in the model's send order, with its message or "Unknown error" |
| Email.TallyBounced | server/email.ts:53-55 | the reported bounced list is exactly the rejected recipients with a bounce message, in the model's send order |
| Email.TallyBounceCalls | server/email.ts:56-58 | `onBounce` is called once per bounced recipient, with its message, when it is given, and never when it is not |
| Email.BouncedAreFailed | server/email.ts:48-59 | a recipient is reported bounced iff it bounced; every bounced recipient also failed; a delivered recipient never reaches `onBounce` |
| Email.ReportOf | server/email.ts:71 | definition: `success` is true iff nothing failed; the counts and lists are those accumulated |
| Email.BatchSlice | server/email.ts:35-37 | a batch holds at most ten recipients |
| Email.Batches | server/email.ts:36-37 | the first `k` batches of the loop, one slice per pass |
| Email.BatchesAt | server/email.ts:36-37 | the j-th batch is the slice of ten recipients from offset `10·j` |
| Email.FlattenBatches | server/email.ts:36-37 | the first `k` batches, concatenated, are the first `min(10·k, n)` recipients |
| Email.BatchesCover | server/email.ts:36-37 | the batches of the loop, concatenated, are the whole recipient list |
| Email.BatchSizes | server/email.ts:35-37 | every batch holds between one and ten recipients |
| Email.BatchArithmetic | server/email.ts:36 | offset `10·b` is below `n` iff `b < ceil(n / 10)`; the loop stops after exactly `ceil(n / 10)` passes |
| Email.DeliveriesFor | server/email.ts:41-46 | one send call per recipient |
| Email.DeliveriesAt | server/email.ts:41-46 | the k-th send call goes to the k-th recipient, with the shared sender and subject |
| Email.DeliveriesSnoc | server/email.ts:41-46 | one more recipient adds exactly its send call at the end |
| Email.DeliveriesAppend | server/email.ts:36-63 | the send calls of consecutive batches concatenate |
| Email.SendOne | server/email.ts:39-61 | the callback for one recipient makes one send call from the shared sender with the newsletter's subject, and updates the tally as the specification's step says |
| Email.SendBatch | server/email.ts:37-63 | after a batch, the tally is the specification tally of every recipient so far, and one send per batch recipient, in order, is appended |
| Email.SendRound | server/email.ts:36-68 | one pass of the loop appends the next slice of at most ten recipients as a batch, extends the tally and the send calls by exactly that batch, and pauses iff recipients remain |
| Email.SendAll | server/email.ts:29-71 | the tally is `TallyOf(recipients)`, one send per recipient in order, the batches are the consecutive slices of ten, and there is one pause between consecutive batches and none after the last |
| Email.SendNewsletter | server/email.ts:16-72 | fails with "Email service is not configured…" before any send when unconfigured. Otherwise it sends from `fromName <fromEmail>` (with defaults), reports `ReportOf(TallyOf(recipients))`, sends once to each recipient in order, cuts the recipients into the consecutive batches of ten and pauses between batches but not after the last |
| Email.SendWelcomeEmail | server/email.ts:74-105 | definition: never throws; one send when configured, none otherwise |
| Email.SendPasswordResetEmail | server/email.ts:107-151 | one send when configured, none otherwise; throws iff configured and the provider rejected, and rethrows the provider's value unchanged |
| JsText.ToLower | client/src/pages/admin/PostEditor.tsx:104 | definition: same length; each character is mapped by the ASCII lower-case map |
| JsText.ToLowerShape | client/src/pages/admin/PostEditor.tsx:104 | lower-casing leaves no ASCII upper-case letter, changes no other character, and is idempotent |
| JsText.StartsWithPrefix | server/index.ts:85 | `startsWith` holds iff the pattern is the prefix of its own length |
| JsText.IncludesAt | server/email.ts:54 | `includes` holds iff the pattern occurs at some position |
| JsText.SplitWhere | client/src/components/Testimonials.tsx:40 | `split` yields at least one piece |
| JsText.SplitPieces | client/src/components/Testimonials.tsx:40 | no piece of a split holds a separator |
| JsText.TrimStartShape | client/src/pages/admin/Newsletter.tsx:51 | trimming the start leaves a suffix that begins with no whitespace, and is empty iff the string is all whitespace |
| JsText.TrimEndShape | client/src/pages/admin/Newsletter.tsx:51 | trimming the end leaves a prefix, empty iff the string is all whitespace |
| JsText.TrimBlank | client/src/pages/admin/Newsletter.tsx:51 | `trim()` is no longer than its input and is empty iff the string is all whitespace |
| JsText.NatToString | client/src/pages/admin/Newsletter.tsx:92 | a number's decimal text is a non-empty run of digits |
| Schema.NewSubscriber | shared/schema.ts:20-25 | a subscriber inserted with only its email gets status "active" and `subscribed_at` = now |
| Schema.NewLead | shared/schema.ts:27-37 | an inserted lead keeps its fields and gets status "new" and `submitted_at` = now |
| Schema.NewTestimonial | shared/schema.ts:46-56 | a testimonial inserted without `featured` gets "false" |
| Schema.BlogPostIssues | shared/schema.ts:97-113 | definition: every failing rule of the blog post schema, in field order, with its message |
| Schema.ParseBlogPost | shared/schema.ts:97-113 | accepted iff every rule holds: title ≥ 5, slug ≥ 3 and only `[a-z0-9-]`, content ≥ 50, image URL absent, empty or a URL, status absent, "draft" or "published". A rejection lists at least one issue. An accepted post keeps its fields, with author default "von AI Team" and status default "draft" |
| Schema.SlugChecksBothReported | shared/schema.ts:107 | with every other field valid, a slug that is both shorter than three characters and not of `[a-z0-9-]+` is rejected with exactly the two slug issues, the length one first |
| Schema.ContactLeadIssues | shared/schema.ts:84-95 | definition: every failing rule of the contact lead schema, in field order, with its message |
| Schema.ParseContactLead | shared/schema.ts:84-95 | accepted iff name ≥ 2, email valid and message ≥ 10; the parsed lead is the input; every issue names one of those three fields |
| Schema.ParseSubscriber | shared/schema.ts:78-82 | accepted iff the email is valid; otherwise the one issue "Please enter a valid email address" |
| Schema.ParseLogin | shared/schema.ts:115-118 | accepted iff username ≥ 3 and password ≥ 6, with one or two issues otherwise |
| Routes.ComesBefore | server/routes.ts:18 | definition: the order of `published_date` descending, nulls first |
| Routes.PublishedOf | server/routes.ts:17 | a post is kept iff its status is "published" |
| Routes.InsertByDate | server/routes.ts:18 | inserting into a newest-first list keeps it newest-first and adds exactly that post |
| Routes.InsertFront | server/routes.ts:18 | a post that may precede the head keeps the list newest-first when put in front |
| Routes.InsertBehind | server/routes.ts:18 | a post that may not precede the head keeps the list newest-first when inserted behind it |
| Routes.NewestFirstOrder | server/routes.ts:18 | `ORDER BY published_date DESC` (nulls first) yields a newest-first permutation of its input |
| Routes.ListPostsSpec | server/routes.ts:9-30 | 503 without a database; 500 on a query error or throw; `[]` for a null answer. Otherwise 200 with exactly the published posts, newest first |
| Routes.MatchingPosts | server/routes.ts:44-45 | a post matches iff it has the slug and is published |
| Routes.PostBySlugSpec | server/routes.ts:33-61 | 503 without a database; a thrown query gives 500. PGRST116 gives 404, any other error 500. When answered, 404 iff not exactly one published post has the slug, and 200 with that post when exactly one has it. A 200 answer is a published post of the table with that slug |
| Routes.SubscribeSpec | server/routes.ts:64-119 | 503 without a database; 400 for an invalid email and for an already active address. An inactive address is reactivated and a new one inserted with the default row. Only a 200 answer changes the table. No key is ever removed, and at most one is added |
| Routes.SubscribeTwiceRefused | server/routes.ts:86-89 | once an address has been subscribed, subscribing it again is refused with "Email already subscribed" and changes nothing |
| Routes.SubscribeLeavesOthers | server/routes.ts:90-114 | a subscription never adds, removes or changes another address's row |
| Routes.NullIfEmpty | server/routes.ts:143-146 | definition: `value \|\| null`: null iff absent or empty, otherwise the value |
| Routes.SubmitContactSpec | server/routes.ts:122-160 | 503 without a database, 400 when the schema rejects. 200 iff valid and the insert succeeds, and then exactly one lead is appended: fields as given, empty optional fields stored as null, status "new", submitted now. Only a 200 answer changes the table |
| Routes.Registry.constructor | server/routes.ts:7 | the registry starts with the given tables |
| Routes.Registry.ListPosts | server/routes.ts:9-30 | the response is `ListPostsSpec` of the posts table |
| Routes.Registry.GetPostBySlug | server/routes.ts:33-61 | the response is `PostBySlugSpec` of the posts table |
| Routes.Registry.Subscribe | server/routes.ts:64-119 | response and new subscriber table are `SubscribeSpec` of the old table; the other tables are unchanged |
| Routes.Registry.SubmitContact | server/routes.ts:122-160 | response and new lead table are `SubmitContactSpec` of the old table; the other tables are unchanged |
| Auth.OrDefault | server/auth.ts:11-12 | definition: `process.env.X \|\| fallback`: the variable when set and non-empty, otherwise the fallback |
| Auth.EnvMatch | server/auth.ts:11-13 | definition: the pair equals `ADMIN_USERNAME \|\| "admin"` and `ADMIN_PASSWORD \|\| "admin123"` |
| Auth.VerifyAdminCredentials | server/auth.ts:4-53 | without a database, or when the lookup reports PGRST205, access is granted iff the pair equals the environment's (or default) pair. Any other lookup error, a missing row, a thrown lookup or a thrown comparison denies. Otherwise access is granted iff bcrypt says the password matches the row's hash |
| Auth.GrantedOnlyByEnvOrHash | server/auth.ts:8-48 | access is granted only by the environment's pair (no database or no admin table) or by a matching hash of an error-free lookup |
| Auth.DefaultFallbackPair | server/auth.ts:11-13 | with neither variable set and no database, exactly admin / admin123 is admitted |
| Auth.EmptyVariableIsUnset | server/auth.ts:11-12 | an empty `ADMIN_USERNAME`/`ADMIN_PASSWORD` behaves as an unset one |
| Auth.RequireAuth | server/auth.ts:55-60 | passes on iff the session exists and `isAdmin` is true; otherwise 401 "Unauthorized" |
| ServerIndex.Truncate | server/index.ts:91-93 | a line is at most 80 characters; a shorter line is kept; a longer one keeps its first 79 characters and ends in "…" |
| ServerIndex.TruncateIdempotent | server/index.ts:91-93 | truncating twice is truncating once |
| ServerIndex.FullLine | server/index.ts:86-89 | definition: `<method> <path> <status> in <duration>ms`, followed by ` :: <serialised body>` when the captured body is truthy; it starts with method, path and a space, and ends with the serialised body when there is one |
| ServerIndex.LogLine | server/index.ts:83-96 | a line is logged iff the path starts with "/api", and it is at most 80 characters |
| ServerIndex.RequestLog.constructor | server/index.ts:72-75 | nothing is captured or logged yet |
| ServerIndex.RequestLog.Json | server/index.ts:77-81 | the body passed to `res.json` replaces the captured one |
| ServerIndex.RequestLog.Finish | server/index.ts:83-97 | appends exactly `LogLine(...)` to the log for an "/api" path and nothing otherwise |
| ServerIndex.LastJsonWins | server/index.ts:75-89 | of two `res.json` calls, only the second body reaches the log line |
| ServerIndex.ErrorStatus | server/index.ts:112 | `err.status \|\| err.statusCode \|\| 500`: never 0, the first non-zero of the two, else 500 |
| ServerIndex.ErrorMessage | server/index.ts:113 | the error's message when non-empty, else "Internal Server Error" |
| ServerIndex.SessionCookie | server/index.ts:49-54 | secure iff production; sameSite "none" in production and "lax" otherwise; always httpOnly with a 24-hour maxAge; "none" only with secure |
| Slug.CollapseRuns | client/src/pages/admin/PostEditor.tsx:105 | replacing each run of non-`[a-z0-9]` by one "-" gives an empty result iff the input is empty; it starts or ends with "-" iff the input starts or ends with a non-alphanumeric |
| Slug.CollapseSlugChars | client/src/pages/admin/PostEditor.tsx:105 | the collapsed string holds only `[a-z0-9-]` |
| Slug.CollapseNoDoubleHyphen | client/src/pages/admin/PostEditor.tsx:105 | the collapsed string has no "--" |
| Slug.CollapseKeepsAlnum | client/src/pages/admin/PostEditor.tsx:105 | the collapse keeps every alphanumeric, in order, and adds none |
| Slug.AlnumOfAppend | client/src/pages/admin/PostEditor.tsx:105 | the alphanumerics of a concatenation concatenate |
| Slug.Slugify | client/src/pages/admin/PostEditor.tsx:103-106 | definition: lower-case, collapse each run of non-`[a-z0-9]` to "-", then drop one leading and one trailing "-" |
| Slug.StripShape | client/src/pages/admin/PostEditor.tsx:106 | stripping one leading and one trailing "-" from a collapsed string leaves slug characters with no "--" and no "-" at either end |
| Slug.SlugShape | client/src/pages/admin/PostEditor.tsx:103-106 | a derived slug holds only `[a-z0-9-]`, has no "--", and neither starts nor ends with "-" |
| Slug.SlugEmptyIffNoAlnum | client/src/pages/admin/PostEditor.tsx:103-106 | the slug is empty iff the lower-cased title has no ASCII letter or digit |
| Slug.SlugMatchesPatternIffNonEmpty | client/src/pages/admin/PostEditor.tsx:103-106 | a derived slug passes `/^[a-z0-9-]+$/` iff it is non-empty |
| Slug.CollapseAsJoin | client/src/pages/admin/PostEditor.tsx:105 | collapsing runs is: an optional leading "-", the non-empty words joined by "-", and an optional trailing "-" |
| Slug.SlugIsJoinedWords | client/src/pages/admin/PostEditor.tsx:103-106 | reference definition: the slug is the alphanumeric words of the lower-cased title joined by "-" |
| Slug.CollapseFixed | client/src/pages/admin/PostEditor.tsx:105 | a string already made of slug characters, with no "--" and no trailing "-", is left unchanged by the collapse |
| Slug.SlugIdempotent | client/src/pages/admin/PostEditor.tsx:103-106 | deriving a slug from a slug gives it back |
| PostEditor.DefaultValues | client/src/pages/admin/PostEditor.tsx:44-55 | the form opens empty, with author "von AI Team", status "draft", and empty excerpt and image URL |
| PostEditor.DefaultsRejected | client/src/pages/admin/PostEditor.tsx:44-55 | the form as it opens is rejected for its title, its slug (under both rules) and its content, in that order |
| PostEditor.SaveRequestFor | client/src/pages/admin/PostEditor.tsx:72-78 | PUT `/api/admin/posts/<id>` iff editing (a truthy id), otherwise POST `/api/admin/posts`; the body is the parsed post |
| PostEditor.UpdatePathNamesPost | client/src/pages/admin/PostEditor.tsx:74 | the update path is the collection path, a slash and the post's id |
| PostEditor.OrEmpty | client/src/pages/admin/PostEditor.tsx:63-65 | `x \|\| ""`: the value when truthy, else "" |
| PostEditor.SavedMessage | client/src/pages/admin/PostEditor.tsx:80-82 | "Post updated successfully" iff editing (a truthy id), "Post created successfully" otherwise |
| PostEditor.PostForm.constructor | client/src/pages/admin/PostEditor.tsx:44-55 | a new form holds the default values |
| PostEditor.PostForm.Load | client/src/pages/admin/PostEditor.tsx:57-69 | loading a post sets every field from it, with absent excerpt and image URL as "" |
| PostEditor.PostForm.HandleTitleChange | client/src/pages/admin/PostEditor.tsx:100-109 | sets the title; while creating, the slug becomes the slug of the new title; while editing it is kept; nothing else changes |
| PostEditor.PostForm.Submit | client/src/pages/admin/PostEditor.tsx:44-45 | a save request is made iff the values pass the insert schema. It carries the form's title, slug, content, author and status, and it is a PUT iff editing |
| PostEditor.CreatedSlugMatchesPattern | client/src/pages/admin/PostEditor.tsx:100-109 | while creating, a title with a letter or digit gives a slug that passes the slug pattern |
| CaseStudies.FirstIndex | client/src/pages/CaseStudies.tsx:20 | the first position of a value in a list |
| CaseStudies.Distinct | client/src/pages/CaseStudies.tsx:20-21 | `Array.from(new Set(xs))` has no duplicates and the same members as `xs` |
| CaseStudies.DistinctInFirstOccurrenceOrder | client/src/pages/CaseStudies.tsx:20-21 | the distinct values come in the order of their first occurrence |
| CaseStudies.FirstIndexOfPrefix | client/src/pages/CaseStudies.tsx:20-21 | appending to a list keeps the first position of a value already in it |
| CaseStudies.FirstIndexNotInPrefix | client/src/pages/CaseStudies.tsx:20-21 | a value first seen at the end has its first position there |
| CaseStudies.Industries | client/src/pages/CaseStudies.tsx:20 | definition: `cs.industry` of each study, in order |
| CaseStudies.SolutionTypes | client/src/pages/CaseStudies.tsx:21 | definition: `cs.solutionType` of each study, in order |
| CaseStudies.IndustryFacet | client/src/pages/CaseStudies.tsx:20 | the industry options have no duplicates, hold exactly the industries of the loaded studies, and are empty before data arrives |
| CaseStudies.SolutionFacet | client/src/pages/CaseStudies.tsx:21 | the solution options have no duplicates, hold exactly the solution types of the loaded studies, and are empty before data arrives |
| CaseStudies.FilterStudies | client/src/pages/CaseStudies.tsx:23-27 | a study is shown iff it is loaded and matches both selections ("all" matches everything) |
| CaseStudies.FilteredCaseStudies | client/src/pages/CaseStudies.tsx:23-27 | nothing before data arrives; otherwise the filtered list |
| CaseStudies.FilterIsSubsequence | client/src/pages/CaseStudies.tsx:23-27 | the shown studies keep their loaded order |
| CaseStudies.AllSelectsEverything | client/src/pages/CaseStudies.tsx:13-14 | with both selections at their initial "all", every loaded study is shown |
| CaseStudies.IndustryChoiceIsNeverEmpty | client/src/pages/CaseStudies.tsx:20-27 | choosing any offered industry shows at least one study |
| CaseStudies.SolutionChoiceIsNeverEmpty | client/src/pages/CaseStudies.tsx:21-27 | choosing any offered solution type shows at least one study |
| Testimonials.FirstChars | client/src/components/Testimonials.tsx:40 | `.map(n => n[0]).join('')` gives at most one character per word |
| Testimonials.Take | client/src/components/Testimonials.tsx:40 | `.slice(0, n)` is the prefix of length `min(n, length)` |
| Testimonials.Initials | client/src/components/Testimonials.tsx:40 | the avatar fallback has at most two characters |
| Testimonials.WordStartsFrom | client/src/components/Testimonials.tsx:40 | reference definition: the characters that begin a word, none of which is a space |
| Testimonials.FirstCharsOfSplit | client/src/components/Testimonials.tsx:40 | the first characters of the `split(' ')` pieces are exactly the word starts |
| Testimonials.InitialsAreWordStarts | client/src/components/Testimonials.tsx:40 | the initials are the first two word starts, upper-cased |
| Testimonials.WordStartsAppend | client/src/components/Testimonials.tsx:40 | word starts of a concatenation concatenate, given what precedes the second part |
| Testimonials.RepeatedSpaceIgnored | client/src/components/Testimonials.tsx:40 | a doubled space between words does not change the initials |
| Testimonials.LogosOf | client/src/components/Testimonials.tsx:63-68 | at most one logo per testimonial |
| Testimonials.ClientLogos | client/src/components/Testimonials.tsx:63-68 | no logos before data arrives; otherwise those of the loaded list |
| Testimonials.LogosAppend | client/src/components/Testimonials.tsx:63-68 | the logo strip of a concatenation concatenates |
| Testimonials.LogosMembership | client/src/components/Testimonials.tsx:63-68 | a logo appears iff some testimonial has a non-empty logo URL, with that company and URL |
| Testimonials.LogosEmptyIff | client/src/components/Testimonials.tsx:63-72 | the strip is empty iff no testimonial has a logo URL |
| Testimonials.TestimonialsRendered | client/src/components/Testimonials.tsx:12-14 | definition: the section renders iff the list has arrived and is non-empty |
| Testimonials.ClientLogosRendered | client/src/components/Testimonials.tsx:70-72 | definition: the strip renders iff it holds a logo |
| Testimonials.LogosOnlyWithTestimonials | client/src/components/Testimonials.tsx:12-14 | the logo strip shows only when the testimonial section does, and does show when some testimonial has a logo |
| NewsletterComposer.ActiveOf | client/src/pages/admin/Newsletter.tsx:24 | a subscriber is kept iff its status is "active" |
| NewsletterComposer.ActiveSubscribers | client/src/pages/admin/Newsletter.tsx:24 | no subscribers before data arrives; otherwise the active ones |
| NewsletterComposer.ActiveAppend | client/src/pages/admin/Newsletter.tsx:24 | the active filter distributes over concatenation |
| NewsletterComposer.ActiveKeepsActive | client/src/pages/admin/Newsletter.tsx:24 | a list of active subscribers is kept whole |
| NewsletterComposer.Plural | client/src/pages/admin/Newsletter.tsx:92 | the suffix is empty iff the count is 1, else "s" |
| NewsletterComposer.SendButtonLabel | client/src/pages/admin/Newsletter.tsx:143-145 | definition: "Sending..." while pending, else "Send to N Subscriber(s)" |
| NewsletterComposer.SubscriberCountLabel | client/src/pages/admin/Newsletter.tsx:92 | definition: `N active subscriber(s)` |
| NewsletterComposer.LabelsPluralIffNotOne | client/src/pages/admin/Newsletter.tsx:92 | both labels end in "s" iff the count is not 1 |
| NewsletterComposer.Decide | client/src/pages/admin/Newsletter.tsx:50-70 | definition: refuse a blank subject or content, then refuse an empty audience, otherwise send |
| NewsletterComposer.DecideGuards | client/src/pages/admin/Newsletter.tsx:50-70 | a blank subject or content is refused first; otherwise no active subscribers are refused; a send is issued iff both fields are non-blank and someone is active |
| NewsletterComposer.Composer.constructor | client/src/pages/admin/Newsletter.tsx:17-18 | subject and content start empty, with no toast and no send |
| NewsletterComposer.Composer.SetSubject | client/src/pages/admin/Newsletter.tsx:17 | sets the subject only |
| NewsletterComposer.Composer.SetContent | client/src/pages/admin/Newsletter.tsx:18 | sets the content only |
| NewsletterComposer.Composer.HandleSend | client/src/pages/admin/Newsletter.tsx:50-70 | exactly one of: the "Missing information" toast, the "No subscribers" toast, or one send request with the current subject and content, as `Decide` says; the fields are unchanged |
| NewsletterComposer.SentToast | client/src/pages/admin/Newsletter.tsx:34-37 | definition: "Newsletter sent successfully", "Sent to N subscribers" |
| NewsletterComposer.FailedToast | client/src/pages/admin/Newsletter.tsx:42-46 | definition: "Failed to send newsletter" with the error's message, destructive |
| NewsletterComposer.Composer.OnSendSuccess | client/src/pages/admin/Newsletter.tsx:33-40 | a success toast with the reported count, and subject and content cleared |
| NewsletterComposer.Composer.OnSendError | client/src/pages/admin/Newsletter.tsx:41-47 | a failure toast with the error's message; the form is kept |
| NewsletterComposer.SendTwice | client/src/pages/admin/Newsletter.tsx:33-58 | after a successful send, pressing send again issues nothing and shows "Missing information" |

## Left out

- Concurrency in `sendNewsletter`: the ten sends of a batch run concurrently under `Promise.all`, and `sent++`, `errors.push` and `bounced.push` interleave in completion order. The model sends in recipient order, so the order within a batch of `errors` and `bounced` is the recipient order.
- The one-second pause between batches is counted, not timed.
- `onBounce` is taken not to throw. If it threw, `sendNewsletter` would reject, which the model does not capture.
- HTML bodies of all mails (`generateNewsletterHTML`, the welcome and reset templates) and the reset URL are not modelled. A `Delivery` records only sender, recipient and subject.
- Logging through `console.*` is left out.
- Strings are sequences of characters with ASCII-only case mapping. `toLowerCase`/`toUpperCase` of non-ASCII letters are not modelled, and neither is UTF-16 length.
- `JSON.stringify` is an oracle: a captured body comes with its serialised text and its truthiness.
- zod's `.email()` and `.url()` are oracles. The text `fromError(...).toString()` builds is kept as the list of issues it renders.
- Inputs of the wrong JSON type (a number where a string is expected) are not modelled. Neither are zod's "Required" issues for missing keys.
- Post rows carry only title, slug, content, status and published date. The id, timestamps, excerpt, author and image URL of stored rows are not part of the routes model.
- Routes.NewestFirstOrder: ties between equal publication dates are kept in table order. PostgreSQL promises no order for ties, so the model fixes one of the orders the database may return.
- Routes.PostBySlugSpec: an answer without an error is computed from the table (`.single()` gives the one matching row). An answer without error and without data is not modelled.
- Auth.VerifyAdminCredentials: a row whose `password_hash` is null is not modelled, because the column is `notNull`.
- The session secret, the session store, `express.json`'s raw-body capture, the Vite or static set-up and the listening port are not modelled.
- The login, logout, admin CRUD, subscriber listing, newsletter-send, unsubscribe and password-reset endpoints are outside the modelled routes file. So are ROI calculations, `server/supabase.ts` (the client is given as `dbAvailable`) and `server/debug-env.ts`.
- Rendering (JSX layout, icons, loading states) is not modelled beyond the conditions that decide whether a section renders.
