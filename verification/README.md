# Product visualisation: subscription entitlement and usage, in Dafny

This project models the part of the product-visualisation service that decides
how many pictures a shop may generate, and how every screen reports that
number. It covers:

- the plan catalog (`SUBSCRIPTION_TIERS`: free, starter, business and
  enterprise, each with a price, a monthly quota and three features) and the
  scene templates;
- the two Flask servers over the same entitlement store:
  - the in-memory one (`app.py`, module `MemoryBackend`);
  - the database-backed one (`backend/app.py`, module `MongoBackend`).

  Each is a `Store` class whose methods follow the routes:
  - register, subscribe and read the subscription;
  - upload, where the quota gate sits;
  - generate, which counts usage;
  - list, read and download images;
  - on the database server, also delete an image and delete a generated picture.
- the administration routes (`backend/admin/routes.py`, module `Admin`):
  - the admin gate and the paged user list;
  - the update whitelist and activation;
  - the first-administrator setup with its address and password rules;
  - login and registration gated on activation;
- the image helpers (`image_utils.py` and its identical copy
  `backend/image_utils.py`, module `ImageProcessing`):
  - the prompt text;
  - the whitish-pixel transparency rules;
  - the processed file names;
  - the batch loop;
- the React screens that show and spend the quota: subscription, dashboard,
  gallery, image detail, scene selection, sign-up and upload, with the
  shared image-address helper.

Shared pieces are `Base` (the `Option`/`Response` datatypes and JavaScript
truthiness), `Text` (the string helpers the routes and screens use), `Records`
(the stored documents and the list operations on generated pictures),
`Ledger` (the bookkeeping relating usage counters to stored pictures) and
`Listing` (the newest-first sort). `QuotaDisplay` relates what the servers
answer to what the four screens show.

Both servers keep their books in the same terms. A store is `Valid` when
every image belongs to a known account and is listed once in insertion
order. It is also `Consistent`:

- on the in-memory server, every account's `images_generated` equals the
  number of generated pictures it holds;
- on the database server, the counter is at least that number, because
  deleting pictures gives no quota back.

Lemmas show that every route keeps the books this way.

Notes on the model:

- **Usage is never reset, never clamped and not checked at generation.**
  - Nothing resets `images_generated` or advances `next_billing_date`.
  - The quota is checked only at upload. Generation increments the counter
    by one without looking at it, so it neither refuses a generation once
    the quota is spent nor checks and consumes in one step.
  - Every screen shows `images_per_month - images_generated` unclamped.

  `MemoryBackend.QuotaOvershoot` shows a free account reaching
  `remaining_images == -1`. `QuotaDisplay.OverdrawnShownNegative` shows that
  the screens then display a negative number.
- **The plan catalog reaches the browser with its keys sorted.** Both servers
  answer `jsonify(SUBSCRIPTION_TIERS)`, and Flask's default JSON provider
  writes the keys in sorted order. The subscription page therefore offers
  business, enterprise and starter, in that order (`Catalog.PaidPlans`).
- **The admin user list is modelled as written.** `Admin.ListUsers`
  converts each user as routes.py lines 127-139 do, with the misplaced
  `last_reset` described under "## Findings". The corrected conversion is
  `Admin.ToUserDict`.
- **Subscribing to another tier keeps the usage counter.** It carries over
  because only the subscription record is replaced.
- **`getImageUrl` is modelled once, as `ImageUrls.GetImageUrl`.** It appears
  in `utils/imageUtils.js`, `pages/ImageGallery.js`, `pages/ImageDetail.js`
  and `pages/SceneSelection.js`, and the four copies have the same branches
  in the same order.
- **`image_utils.py` and `backend/image_utils.py` are modelled once.** They
  are the same text at the same line numbers. Each row below cites one of
  them.
- **Values outside the model become parameters or opaque values.**
  - Tokens and password hashes are values that remember what they were made
    from.
  - Clocks are integer parameters (`now`).
  - The picture generator is a parameter that may fail.
  - The database's choice of ids is a parameter, constrained to a fresh id.

## Model

| member | source | states |
|---|---|---|
| Catalog.Quota | backend/sub_config.py:2-23 | the quota of a catalog tier is its `images_per_month` and is positive |
| Catalog.CatalogKeys | backend/sub_config.py:2-23 | the catalog has exactly the keys free, starter, business, enterprise; the catalog order lists each once |
| Catalog.PlanShape | backend/sub_config.py:2-23 | only `free` costs 0; every tier has a positive quota and exactly three features |
| Catalog.TiersIncrease | app.py:54-75 | along free < starter < business < enterprise both price and quota strictly increase |
| Catalog.PaidPlanKeys | product-visualization-frontend/src/pages/Subscription.js:302 | the plans offered for checkout are exactly the listed keys other than `free` |
| Catalog.PaidPlans | product-visualization-frontend/src/pages/Subscription.js:302 | checkout offers business, enterprise and starter, in the served key order, each with a positive price |
| Catalog.ServedOrderSorted | app.py:139-141 | the catalog is served with exactly its four keys, each once, in ascending key order |
| Catalog.ScenePrompt | app.py:255 | a template scene yields its template sentence, any other scene the custom prompt |
| Records.ObjectIdKey | backend/app.py:325-329 | a well-formed id is keyed by its lower-case form, which is still a well-formed id of the same letters |
| Records.ObjectIdKeyIdempotent | backend/app.py:425-429 | normalising an id twice gives the key that normalising once gives |
| Records.ProcessedPath | app.py:361-365 | the processed copy lives in the processed folder under `processed_` plus the upload's base name, and that is its base name |
| Records.FindGenerated | app.py:322-329 | nothing is found exactly when no entry has the id; otherwise the first entry with the id |
| Records.RemoveKey | backend/app.py:584-587 | no entry with the key survives, every other entry does, and nothing new appears |
| Records.RemoveKeyAppend | backend/app.py:584-587 | removal distributes over concatenation, so the surviving entries keep their order |
| Records.RemoveKeyAbsent | backend/app.py:584-587 | the list comes back unchanged exactly when no entry carries the key |
| Ledger.OwnedIdsExact | app.py:292-299 | when the order lists every image once, the ids listed for a caller are exactly the stored images it owns, with no repeats |
| Ledger.OwnedIdsDistinct | app.py:292-299 | an insertion order without repeats yields an owned list without repeats |
| MemoryBackend.RegisterKeeps | app.py:102-114 | a new account with no usage keeps every counter equal to the pictures held |
| MemoryBackend.UploadKeeps | app.py:213-220 | a new image with no generated pictures keeps every counter equal to the pictures held |
| MemoryBackend.GenerateKeeps | app.py:266-274 | one entry appended to an image together with one more on its owner's counter keeps the counters equal to the pictures held |
| MemoryBackend.GenerationAnswer | app.py:276-283 | the reported remaining figure plus the counter before the call plus one is the quota; an owner without a subscription gets a 500 |
| MemoryBackend.Store.constructor | app.py:49-50 | the store starts with no users and no images |
| MemoryBackend.Store.Register | app.py:89-120 | 400 for a missing address or password or a taken address; otherwise a new account on the free tier with nothing used; images untouched |
| MemoryBackend.Store.Subscribe | app.py:143-161 | 400 for a tier outside the catalog; 500 for an unknown account; otherwise only the subscription is replaced and the usage counter carries over |
| MemoryBackend.Store.GetSubscription | app.py:163-176 | nothing for an account without a subscription; otherwise the tier, its start and next billing dates, the tier's catalog entry and the usage counter |
| MemoryBackend.Store.Upload | app.py:179-228 | the gate in the route's order (no subscription 403, quota reached 403, no file 400, empty name 400); nothing is stored on refusal; a readable file stores a record owned by the caller with no generated pictures |
| MemoryBackend.Store.GenerateRefusal | app.py:245-252 | the checks before generation in order: missing id or scene 400, missing or foreign image 404, unknown scene without a prompt 400 |
| MemoryBackend.Store.Record | app.py:265-280 | exactly one entry appended at the end of the image, the owner's counter up by exactly one, and the answer of `GenerationAnswer` |
| MemoryBackend.Store.Generate | app.py:235-283 | a refusal changes nothing; a failed generator answers 500 and changes nothing; otherwise the entry is recorded without any quota check |
| MemoryBackend.Store.GetImages | app.py:285-301 | the caller's images, exactly those it owns, in insertion order |
| MemoryBackend.Store.GetImage | app.py:303-311 | the record to its owner only, 404 otherwise |
| MemoryBackend.Store.Download | app.py:313-331 | 404 for a missing or foreign image or an absent entry; an owned image with an entry carrying the id is always answered 200, with the path of the first such entry |
| MemoryBackend.SignUp | app.py:102-114 | a registered address starts on the free tier with nothing used |
| MemoryBackend.SignUpAndUpload | app.py:213-220 | after one upload the new account owns the image and has used nothing |
| MemoryBackend.GenerateOnce | app.py:266-279 | one generation raises the counter by one and reports the free quota less the counter |
| MemoryBackend.QuotaOvershoot | app.py:274-279 | a free account that uploaded under its quota can generate eleven pictures, and the eleventh reports -1 remaining |
| MongoBackend.ToJsonSerializable | backend/app.py:89-94 | ids become their hex text, datetimes become text, other values are unchanged |
| MongoBackend.ToJsonSerializableIdempotent | backend/app.py:89-94 | serialising a serialised value changes nothing |
| MongoBackend.ServedUrlName | backend/app.py:457-461 | a served URL starts with its folder and ends in the stored file's base name |
| MongoBackend.WithUrlsAt | backend/app.py:469-472 | entry `j` of the answer is stored entry `j`, served from `/processed/` under its base name |
| MongoBackend.RegisterKeeps | backend/app.py:132-151 | a new account with no usage keeps every counter at least the pictures held |
| MongoBackend.UploadKeeps | backend/app.py:288-297 | a new image with no generated pictures keeps every counter at least the pictures held |
| MongoBackend.GenerateKeeps | backend/app.py:361-370 | `$push` of one entry with `$inc` of its owner's counter keeps the counters at least the pictures held |
| MongoBackend.DeleteImageKeeps | backend/app.py:542-545 | removing an image keeps the order a listing of the rest and the counters at least the pictures held |
| MongoBackend.DeleteGeneratedKeeps | backend/app.py:584-587 | `$pull` of entries keeps the counters at least the pictures held |
| MongoBackend.GenerationAnswer | backend/app.py:372-379 | the reported remaining figure plus the counter before the call plus one is the quota; no subscription gives a 500 |
| MongoBackend.Store.constructor | backend/app.py:55-56 | both collections start empty |
| MongoBackend.Store.Register | backend/app.py:115-159 | 400 for a missing address or password or a taken address; otherwise a free-tier account with nothing used and empty names by default, and a token for it |
| MongoBackend.Store.Subscribe | backend/app.py:184-211 | 400 for a tier outside the catalog; 500 when nothing was modified (unknown account, or the same subscription again); otherwise only the subscription changes and usage carries over |
| MongoBackend.Store.GetSubscription | backend/app.py:213-245 | 404 exactly for an unknown account; nothing without a subscription; otherwise the tier, its start and next billing dates, the catalog entry and the usage counter |
| MongoBackend.Store.Upload | backend/app.py:248-305 | 404 for an unknown account, then the same gate and file checks as the in-memory server; nothing is stored on refusal; an accepted image is stored under the fresh lower-case ObjectId the database assigns |
| MongoBackend.Store.OwnedImage | backend/app.py:425-435 | 400 for an id that is not 24 hex digits; 404 for a missing or foreign image; otherwise the normalised key of a stored image |
| MongoBackend.Store.GenerateRefusal | backend/app.py:322-338 | the in-memory checks plus 400 for a malformed id, in the route's order |
| MongoBackend.Store.Record | backend/app.py:360-379 | one entry pushed at the end, the owner's counter up by exactly one, the answer of `GenerationAnswer` |
| MongoBackend.Store.Generate | backend/app.py:312-382 | a refusal or a failed generator changes nothing; otherwise the entry is recorded without any quota check |
| MongoBackend.Store.AddUrls | backend/app.py:408-409 | every generated entry, in order, with its `/processed/` URL |
| MongoBackend.Store.GetImages | backend/app.py:384-418 | exactly the caller's images in the collection's order, each with its entries and their URLs |
| MongoBackend.Store.GetImage | backend/app.py:420-476 | the lookup's refusal, or the image with `/uploads/` and `/processed/` URLs built from the stored base names |
| MongoBackend.Store.Download | backend/app.py:478-505 | the lookup's refusal, 404 for an absent entry; an owned image with an entry carrying the id is always answered 200, with the path of the first such entry |
| MongoBackend.Store.Forget | backend/app.py:542-545 | the image leaves the collection and its order; users untouched |
| MongoBackend.Store.Prune | backend/app.py:584-587 | exactly the entries with the id leave the image, the rest stay in order |
| MongoBackend.Store.DeleteImage | backend/app.py:507-547 | the lookup's refusal, or the image removed; the usage counter is not given back |
| MongoBackend.Store.DeleteGenerated | backend/app.py:549-592 | the lookup's refusal, 404 when no entry has the id, otherwise exactly those entries removed |
| Admin.FirstWith | backend/admin/routes.py:68-69 | the lookup by address finds a stored document with that address, or finds nothing only when no document has it |
| Admin.FirstWithExact | backend/admin/routes.py:68-69 | with addresses unique, the lookup finds the one document with the address, and nothing exactly when there is none |
| Admin.AdminRequiredExact | backend/admin/routes.py:64-75 | the gate admits exactly the callers whose own document has the role `admin` |
| Admin.FloorDiv | backend/admin/routes.py:149 | Python's `//`: the floor of the quotient for divisors of either sign |
| Admin.TotalPagesIsCeiling | backend/admin/routes.py:149 | for a positive page size the page count is the ceiling of total over page size: enough pages, none of them empty |
| Admin.LastResetMisplaced | backend/admin/routes.py:138-139 | as written, each listed subscription gains a `last_reset` and the usage keeps its raw datetime |
| Admin.UserDictSerialised | backend/admin/routes.py:127-139 | corrected: the usage's `last_reset` becomes text inside the usage and the subscription keeps its own three fields |
| Admin.ListUsers | backend/admin/routes.py:82-150 | 403 for a non-admin; 500 for a negative skip or a zero page size; otherwise the page of the ranked users, each converted as the route writes it, with the total and page count |
| Admin.Whitelist | backend/admin/routes.py:193-199 | the update keeps exactly the requested fields that are among the six allowed ones |
| Admin.UpdateRefusal | backend/admin/routes.py:184-206 | refusal for an id that is not an ObjectId, a role other than admin or user, or nothing left after the whitelist |
| Admin.UpdateKeepsRoles | backend/admin/routes.py:193-212 | an accepted update leaves the old role or one of `admin` and `user` |
| Admin.AddressMatches | backend/admin/routes.py:341-342 | an address the computed check accepts matches the address pattern |
| Admin.DomainMatches | backend/admin/routes.py:341-342 | the domain of a match ends in a dot and at least two letters, found by its last dot |
| Admin.MatchIsAddress | backend/admin/routes.py:341-342 | every match of the pattern passes the computed check |
| Admin.EmailCheckIsPattern | backend/admin/routes.py:341-342 | the computed address check accepts exactly what the regular expression matches |
| Admin.SetupRefusal | backend/admin/routes.py:328-353 | setup refused while any admin exists, then for missing credentials, a bad address, a taken address, a weak password, in that order; accepted otherwise |
| Admin.Profile | backend/admin/routes.py:356-375 | a new document has exactly the six allowed profile fields, with the given role and flags |
| Admin.LoginGrantedExactly | backend/admin/routes.py:390-431 | a login succeeds exactly for matching credentials of an active, non-pending document, and pending is checked before inactive |
| Admin.InsertKeeps | backend/admin/routes.py:377-378 | inserting a document with a new id and an unused address keeps addresses unique |
| Admin.ReplaceKeeps | backend/admin/routes.py:209-212 | changing a document without changing its address keeps addresses unique |
| Admin.RegisteredLogin | backend/admin/routes.py:454-473 | a member registered while activation is required is refused as pending; otherwise it logs in as a `user` |
| Admin.ActivatedLogin | backend/admin/routes.py:230-244 | after activation the pending flag no longer matters: the account logs in when activated and is refused as inactive otherwise |
| Admin.FirstAdminLogin | backend/admin/routes.py:356-386 | the first administrator is active, on enterprise with no usage, logs in as `admin`, passes the gate, and blocks a second setup |
| Admin.RegisterRefusal | backend/admin/routes.py:443-451 | registration refused for missing credentials, then for a taken address, and accepted otherwise |
| Admin.Welcome | backend/admin/routes.py:479-489 | a token only when no activation is required, otherwise the pending notice without one |
| Admin.Store.constructor | backend/admin/routes.py:30 | the collection starts empty |
| Admin.Store.Insert | backend/admin/routes.py:377-378 | the document is added at the end of the natural order |
| Admin.Store.UpdateUser | backend/admin/routes.py:183-217 | the gate, then the refusals, then 404 for an unknown id, otherwise only the whitelisted fields change |
| Admin.Store.SetActivation | backend/admin/routes.py:222-252 | the gate, 400 for a bad id, 404 for an unknown one, otherwise `is_active` takes the request's value and pending is cleared |
| Admin.Store.AdminSetup | backend/admin/routes.py:324-386 | refused as `SetupRefusal` says and nothing stored; otherwise the first administrator is inserted and answered with a token |
| Admin.Store.Register | backend/admin/routes.py:435-489 | refused as `RegisterRefusal` says; otherwise a free-tier member, active and not pending only when no activation is required |
| ImageProcessing.CreatePrompt | image_utils.py:237-271 | the prompt built with `+=` is the base text followed by the truthy option sentences |
| ImageProcessing.PromptStartsWithScene | image_utils.py:249-255 | every prompt starts with the base text, which contains the scene sentence |
| ImageProcessing.PromptIsBaseExactly | backend/image_utils.py:258-271 | the prompt is exactly the base text when no option is truthy, and only then |
| ImageProcessing.SimpleBackgroundRemoval | image_utils.py:141-176 | the same shape; every pixel keeps its colour and becomes transparent exactly when all three channels exceed 240, opaque otherwise |
| ImageProcessing.SimpleBackgroundRemovalIdempotent | backend/image_utils.py:167-171 | removing the background of the result changes nothing |
| ImageProcessing.ClearWhitish | app.py:352-357 | the `newData` loop turns each whitish pixel into transparent white and keeps every other pixel |
| ImageProcessing.ClearingAgreesWithMask | backend/app.py:614-619 | the servers' rule and the helper's mask clear the same pixels, agree on opaque pictures, and clearing twice is clearing once |
| ImageProcessing.ProcessedFilename | image_utils.py:94-97 | the processed folder joined with `processed_`, the base name up to its first dot, and `.png` |
| ImageProcessing.PathJoinName | backend/image_utils.py:94-97 | the file name part of a joined path is the joined name |
| ImageProcessing.BatchProcess | image_utils.py:317-346 | one result per zipped pair, so the shorter length, in input order, with `None` for a failed pair |
| ImageUrls.BaseUrl | product-visualization-frontend/src/utils/imageUtils.js:13-18 | the configured base with its first `/api` cut out, wherever it occurs; the base unchanged without `/api`; the local default when nothing is left; never empty |
| Text.ReplaceFirst | product-visualization-frontend/src/utils/imageUtils.js:13-18 | `replace` with a string pattern: a string without the pattern comes back unchanged; otherwise exactly the first occurrence is replaced |
| ImageUrls.UsualBase | product-visualization-frontend/src/utils/imageUtils.js:13-18 | the usual configuration `http://localhost:5000/api` serves pictures from `http://localhost:5000` |
| ImageUrls.GetImageUrl | product-visualization-frontend/src/utils/imageUtils.js:10-35 | a URL wins; otherwise `/uploads/` is tested before `/processed/`, and any other path is put below `/processed/`; nothing gives the placeholder |
| ImageUrls.ContainsSlash | product-visualization-frontend/src/utils/imageUtils.js:21-30 | a path holding either marker holds a `/` |
| ImageUrls.GetImageUrlHost | product-visualization-frontend/src/utils/imageUtils.js:10-35 | every address built from a URL or a path starts with the base |
| ImageUrls.ServedUrlResolves | product-visualization-frontend/src/utils/imageUtils.js:12-15 | a URL the database server attaches is fetched from the base plus that URL, whatever the path says |
| ImageUrls.UploadsTestedFirst | product-visualization-frontend/src/utils/imageUtils.js:21-25 | a path below an `uploads` directory is served from `/uploads/` under its last segment |
| ImageUrls.ProductFallback | product-visualization-frontend/src/utils/imageUtils.js:56-63 | the fallback prefers the original URL, then the original path, then the not-found picture |
| ImageUrls.ImgElement.constructor | product-visualization-frontend/src/utils/imageUtils.js:52 | an element starts with its address and no fallback handler |
| ImageUrls.ImgElement.HandleProductImageError | product-visualization-frontend/src/utils/imageUtils.js:52-70 | the element switches to the fallback and arms the last handler |
| ImageUrls.ImgElement.LoadFailed | product-visualization-frontend/src/utils/imageUtils.js:66-69 | an armed element shows the not-found picture once and disarms; an unarmed one keeps its address |
| Listing.InsertByDate | product-visualization-frontend/src/pages/ImageGallery.js:35-37 | inserting into a newest-first list keeps it newest first and adds exactly the one card |
| Listing.SortNewest | product-visualization-frontend/src/pages/ImageGallery.js:35-37 | the sorted list is newest first and a permutation of the fetched one |
| Listing.InsertStable | product-visualization-frontend/src/pages/ImageGallery.js:35-37 | an inserted card goes after every card of its own moment |
| Listing.SortNewestStable | product-visualization-frontend/src/pages/ImageGallery.js:35-37 | the sort is stable: the cards of any one moment keep their fetched order |
| ImageGallery.TotalPages | product-visualization-frontend/src/pages/ImageGallery.js:105 | the ceiling of the count over 12: zero only for no images, enough pages, none empty |
| ImageGallery.PagerShownExactly | product-visualization-frontend/src/pages/ImageGallery.js:279 | the pager shows exactly when there are more than 12 images |
| ImageGallery.Slice | product-visualization-frontend/src/pages/ImageGallery.js:107 | JavaScript `slice` with both ends cut to the list |
| ImageGallery.PageItems | product-visualization-frontend/src/pages/ImageGallery.js:106-107 | a page is the contiguous run of at most 12 images from its start index |
| ImageGallery.PageFollows | product-visualization-frontend/src/pages/ImageGallery.js:105-107 | page `k` starts exactly where pages before it stopped |
| ImageGallery.PagesUpToPrefix | product-visualization-frontend/src/pages/ImageGallery.js:105-107 | pages 1 to `k` together are the first `12k` images |
| ImageGallery.PagesCoverList | product-visualization-frontend/src/pages/ImageGallery.js:105-107 | pages 1 to `totalPages` together are the whole list, each image once, in order |
| ImageGallery.RemoveKeyKeepsOrder | product-visualization-frontend/src/pages/ImageGallery.js:74-75 | deleting an image keeps the rest newest first |
| ImageGallery.DownloadTarget | product-visualization-frontend/src/pages/ImageGallery.js:256-259 | a download is offered exactly when the card has a generated picture, and it is the first one |
| ImageGallery.Gallery.constructor | product-visualization-frontend/src/pages/ImageGallery.js:20-27 | no images, page 1, no delete dialog |
| ImageGallery.Gallery.Visible | product-visualization-frontend/src/pages/ImageGallery.js:105-107 | at most 12 images, all from the list |
| ImageGallery.Gallery.Loaded | product-visualization-frontend/src/pages/ImageGallery.js:31-48 | the fetched images, newest first, nothing lost or added |
| ImageGallery.Gallery.PageChange | product-visualization-frontend/src/pages/ImageGallery.js:50-53 | only the page changes |
| ImageGallery.Gallery.DeleteClick | product-visualization-frontend/src/pages/ImageGallery.js:64-67 | the dialog opens on the clicked image |
| ImageGallery.Gallery.ConfirmDelete | product-visualization-frontend/src/pages/ImageGallery.js:69-83 | the dialog closes; a deletion removes exactly the images with the id; a failure keeps the list and the target |
| Dashboard.EntryScenes | product-visualization-frontend/src/pages/Dashboard.js:63-64 | the scene of every generated picture of an image, in order |
| Dashboard.FirstSeenMembers | product-visualization-frontend/src/pages/Dashboard.js:61-67 | the tally's keys are each scene that occurs, once |
| Dashboard.CountPositive | product-visualization-frontend/src/pages/Dashboard.js:65 | a scene has a positive count exactly when it occurs |
| Dashboard.SumCountsSnoc | product-visualization-frontend/src/pages/Dashboard.js:65 | one more occurrence raises the sum over the keys by one exactly when its scene is a key |
| Dashboard.TallyTotal | product-visualization-frontend/src/pages/Dashboard.js:61-67 | the counts add up to the number of generated pictures |
| Dashboard.CountScene | product-visualization-frontend/src/pages/Dashboard.js:65 | one step of the tally keeps every count equal to the occurrences so far and the keys in first-seen order |
| Dashboard.TallyEntries | product-visualization-frontend/src/pages/Dashboard.js:63-66 | the inner loop adds one image's scenes to the tally |
| Dashboard.TallyScenes | product-visualization-frontend/src/pages/Dashboard.js:61-67 | every scene maps to its number of generated pictures; the keys are the scenes in first-seen order |
| Dashboard.MostUsed | product-visualization-frontend/src/pages/Dashboard.js:70-78 | no count exceeds the one picked; nothing is picked when no count is positive; otherwise the first key with the largest count |
| Dashboard.RecentAreNewest | product-visualization-frontend/src/pages/Dashboard.js:44-47 | at most five images, newest first, drawn from the fetched ones, and none left out is newer |
| Dashboard.TopOfSorted | product-visualization-frontend/src/pages/Dashboard.js:45-47 | a prefix of the sorted list is newest first, drawn from the list, and nothing outside it is newer than its last |
| Dashboard.LeftOutIsOlder | product-visualization-frontend/src/pages/Dashboard.js:45-47 | an image after a newest-first prefix is no newer than the prefix's last |
| Dashboard.CountSince | product-visualization-frontend/src/pages/Dashboard.js:54-58 | images this month are at most all images, and all of them exactly when all are that new |
| Dashboard.RemainingImages | product-visualization-frontend/src/pages/Dashboard.js:81-83 | 0 without a subscription, otherwise quota less usage, unclamped |
| Dashboard.SceneLabel | product-visualization-frontend/src/pages/Dashboard.js:277-280 | `Custom` for the custom scene; otherwise the same length with underscores as spaces and each word's first letter capitalised |
| Dashboard.MostUsedIsFavourite | product-visualization-frontend/src/pages/Dashboard.js:69-78 | the scene picked has the largest count and comes first among ties; nothing for no pictures |
| Dashboard.FetchDashboardData | product-visualization-frontend/src/pages/Dashboard.js:37-97 | the five statistics: total, this month, remaining, the favourite scene or `None`, and the recent newest five |
| SubscriptionPage.NextDigitPlace | product-visualization-frontend/src/pages/Subscription.js:102-107 | the position of the next digit after `k` grouped digits |
| SubscriptionPage.GroupedAt | product-visualization-frontend/src/pages/Subscription.js:102-107 | every fifth character is the space before digit `4m`; the others are the digits in order; no space first or last |
| SubscriptionPage.DigitsSnoc | product-visualization-frontend/src/pages/Subscription.js:100 | the digit filter of one more character |
| SubscriptionPage.DigitsOfGrouped | product-visualization-frontend/src/pages/Subscription.js:98-109 | taking the spaces out of a grouped number gives back its digits |
| SubscriptionPage.GroupDigits | product-visualization-frontend/src/pages/Subscription.js:101-107 | the loop builds the grouped number, from which the digits come back |
| SubscriptionPage.FormatCardNumberIdempotent | product-visualization-frontend/src/pages/Subscription.js:98-109 | formatting a formatted number leaves it as it is |
| SubscriptionPage.FormatExpiry | product-visualization-frontend/src/pages/Subscription.js:111-119 | up to two digits as typed; otherwise two digits, `/`, then the rest; never more than five characters |
| SubscriptionPage.FormatExpiryDigits | product-visualization-frontend/src/pages/Subscription.js:113-118 | an expiry keeps the first four digits typed |
| SubscriptionPage.DigitsSeparated | product-visualization-frontend/src/pages/Subscription.js:113 | the filter drops the separator between two digit runs |
| SubscriptionPage.FormatExpiryIdempotent | product-visualization-frontend/src/pages/Subscription.js:111-119 | formatting an expiry again changes nothing |
| SubscriptionPage.FormatCurrency | product-visualization-frontend/src/pages/Subscription.js:48-55 | `FREE` for zero, otherwise the browser's currency text |
| SubscriptionPage.FreeLabelOnlyOnFreePlan | product-visualization-frontend/src/pages/Subscription.js:49 | among catalog plans only `free` shows as `FREE` |
| SubscriptionPage.RemainingShown | product-visualization-frontend/src/pages/Subscription.js:207-212 | 0 for an unknown plan, otherwise quota less usage, unclamped |
| SubscriptionPage.FailureMessage | product-visualization-frontend/src/pages/Subscription.js:83-90 | the server's error if it sent one, else the fixed failure text, else the network text |
| SubscriptionPage.PaidSuccess | product-visualization-frontend/src/pages/Subscription.js:148 | the confirmation names the plan taken |
| SubscriptionPage.Checkout.constructor | product-visualization-frontend/src/pages/Subscription.js:19-31 | no plan, closed dialog, empty payment fields |
| SubscriptionPage.Checkout.PlanSelect | product-visualization-frontend/src/pages/Subscription.js:57-66 | free is requested at once without the dialog; any other plan opens the checkout dialog |
| SubscriptionPage.Checkout.CheckoutClose | product-visualization-frontend/src/pages/Subscription.js:93-96 | the dialog closes and the error clears |
| SubscriptionPage.Checkout.CardNumberChange | product-visualization-frontend/src/pages/Subscription.js:98-109 | the field holds the grouped digits of the input, and its digits are the input's |
| SubscriptionPage.Checkout.CardNameChange | product-visualization-frontend/src/pages/Subscription.js:483 | the name field takes the input |
| SubscriptionPage.Checkout.ExpiryChange | product-visualization-frontend/src/pages/Subscription.js:111-119 | the field holds the formatted expiry |
| SubscriptionPage.Checkout.CvcChange | product-visualization-frontend/src/pages/Subscription.js:121-127 | up to four digits replace the field; more leave it as it was |
| SubscriptionPage.Checkout.Subscribe | product-visualization-frontend/src/pages/Subscription.js:129-144 | the request is sent exactly when all four payment fields are filled; otherwise the fixed error |
| SubscriptionPage.Checkout.FreeAnswered | product-visualization-frontend/src/pages/Subscription.js:68-91 | the spinner stops; the free confirmation or the failure message |
| SubscriptionPage.Checkout.PaidAnswered | product-visualization-frontend/src/pages/Subscription.js:146-160 | the spinner stops; success closes the dialog and names the plan; a failure keeps it open with the message |
| ImageDetail.FormatSceneName | product-visualization-frontend/src/pages/ImageDetail.js:269-275 | `Custom Scene` for the custom scene; otherwise the dashboard's label, underscores as spaces and capitalised words |
| ImageDetail.SceneNamesAgree | product-visualization-frontend/src/pages/ImageDetail.js:269-275 | the detail screen and the dashboard label every non-custom scene alike, and the custom one differently |
| ImageDetail.InitialSelection | product-visualization-frontend/src/pages/ImageDetail.js:91-93 | the first generated picture exactly when there is one |
| ImageDetail.Reselect | product-visualization-frontend/src/pages/ImageDetail.js:179-181 | a deleted selection moves to the first remaining picture or none; any other selection stays |
| ImageDetail.ReselectShown | product-visualization-frontend/src/pages/ImageDetail.js:169-181 | after a deletion the selection is still a remaining picture, or none |
| ImageDetail.DetailPage.constructor | product-visualization-frontend/src/pages/ImageDetail.js:29-39 | nothing loaded, nothing selected, no dialogs |
| ImageDetail.DetailPage.Loaded | product-visualization-frontend/src/pages/ImageDetail.js:82-104 | the entry is shown and its first generated picture selected when it has one |
| ImageDetail.DetailPage.ImageSelect | product-visualization-frontend/src/pages/ImageDetail.js:112-114 | the clicked picture of the entry is selected |
| ImageDetail.DetailPage.OpenPreview | product-visualization-frontend/src/pages/ImageDetail.js:117-121 | the preview opens only on a selection |
| ImageDetail.DetailPage.ClosePreview | product-visualization-frontend/src/pages/ImageDetail.js:124-126 | the preview closes |
| ImageDetail.DetailPage.DeleteGeneratedImage | product-visualization-frontend/src/pages/ImageDetail.js:139-144 | the dialog opens on the picture, typed `generated` |
| ImageDetail.DetailPage.DeleteProduct | product-visualization-frontend/src/pages/ImageDetail.js:147-152 | the dialog opens on the product, typed `product` |
| ImageDetail.DetailPage.CancelDelete | product-visualization-frontend/src/pages/ImageDetail.js:155-159 | the dialog closes and forgets its target and type |
| ImageDetail.DetailPage.DropGenerated | product-visualization-frontend/src/pages/ImageDetail.js:169-183 | exactly the pictures with the id leave the entry, the rest in order, and the selection moves as `Reselect` says |
| ImageDetail.DetailPage.ConfirmDelete | product-visualization-frontend/src/pages/ImageDetail.js:162-203 | with nothing to delete the dialog just closes; a deleted picture is dropped locally; a deleted product leaves for the gallery; a failure reports; the dialog closes in every case but the gallery exit |
| SceneSelection.PayloadFor | product-visualization-frontend/src/pages/SceneSelection.js:111-115 | the prompt travels only with the custom scene, empty otherwise |
| SceneSelection.ConfirmEnabled | product-visualization-frontend/src/pages/SceneSelection.js:378 | Confirm is enabled exactly when the prompt has a character outside JavaScript's white space and line terminators |
| SceneSelection.PayloadPassesSceneRule | product-visualization-frontend/src/pages/SceneSelection.js:104-117 | every payload the screen sends passes the server's scene check, and the server's prompt is the template or the typed text |
| SceneSelection.BlankPromptSurvivesCancel | product-visualization-frontend/src/pages/SceneSelection.js:97-102 | a prompt of blanks, which Confirm refuses (as it refuses an ideographic space), survives Cancel and is sent as a truthy prompt |
| SceneSelection.RemainingShown | product-visualization-frontend/src/pages/SceneSelection.js:256 | quota less usage, unclamped |
| SceneSelection.FailureMessage | product-visualization-frontend/src/pages/SceneSelection.js:127-134 | the server's error if it sent one, else the fixed failure text, else the network text |
| SceneSelection.ScenePicker.constructor | product-visualization-frontend/src/pages/SceneSelection.js:52-60 | no scenes, no selection, dialog closed, empty prompt |
| SceneSelection.ScenePicker.Loaded | product-visualization-frontend/src/pages/SceneSelection.js:62-67 | the scenes the server listed |
| SceneSelection.ScenePicker.SceneSelect | product-visualization-frontend/src/pages/SceneSelection.js:87-95 | the card is selected; the dialog is open exactly for the custom card |
| SceneSelection.ScenePicker.PromptChange | product-visualization-frontend/src/pages/SceneSelection.js:365 | the prompt takes the typed text |
| SceneSelection.ScenePicker.CustomPromptClose | product-visualization-frontend/src/pages/SceneSelection.js:97-102 | the dialog closes; the selection is dropped exactly when the prompt is empty |
| SceneSelection.ScenePicker.Generate | product-visualization-frontend/src/pages/SceneSelection.js:104-117 | nothing without a selection; otherwise the payload for the selection goes out and the spinner starts |
| SceneSelection.ScenePicker.GenerateAnswered | product-visualization-frontend/src/pages/SceneSelection.js:119-134 | the spinner stops; the reported remaining pictures or the failure message |
| RegisterWizard.MismatchNotice | product-visualization-frontend/src/pages/Register.js:33-40 | the notice is set exactly when a confirmation was typed and differs from the password |
| RegisterWizard.AccountError | product-visualization-frontend/src/pages/Register.js:43-60 | the first failing account check in order: address, password, a length of at least 8 UTF-16 code units, match |
| RegisterWizard.LengthCountsCodeUnits | product-visualization-frontend/src/pages/Register.js:53 | four characters outside the Basic Multilingual Plane pass the length check; seven ASCII characters do not |
| Text.Utf16Length | product-visualization-frontend/src/pages/Register.js:53 | `password.length` counts between one and two units per character, and exactly one each only when every character is in the Basic Multilingual Plane |
| RegisterWizard.NamesError | product-visualization-frontend/src/pages/Register.js:61-67 | refused exactly when the first or last name is empty |
| RegisterWizard.AccountStepClearsNotice | product-visualization-frontend/src/pages/Register.js:33-60 | a password that passes the account step shows no mismatch notice |
| RegisterWizard.SentRequestRefusedOnlyIfTaken | product-visualization-frontend/src/pages/Register.js:90-96 | the server refuses a request the form sends only when the address is taken |
| RegisterWizard.FailureMessage | product-visualization-frontend/src/pages/Register.js:110-117 | the server's error if it sent one, else the fixed failure text, else the network text |
| RegisterWizard.Wizard.constructor | product-visualization-frontend/src/pages/Register.js:17-29 | the first step, with the address passed along, if any |
| RegisterWizard.Wizard.EditEmail | product-visualization-frontend/src/pages/Register.js:179 | the address takes the input |
| RegisterWizard.Wizard.EditPassword | product-visualization-frontend/src/pages/Register.js:191 | the password takes the input and the notice follows it |
| RegisterWizard.Wizard.EditConfirmPassword | product-visualization-frontend/src/pages/Register.js:203 | the confirmation takes the input and the notice follows it |
| RegisterWizard.Wizard.EditNames | product-visualization-frontend/src/pages/Register.js:221-242 | the three names take the input |
| RegisterWizard.Wizard.EditAgreeTerms | product-visualization-frontend/src/pages/Register.js:270 | the terms box takes the input |
| RegisterWizard.Wizard.NextStep | product-visualization-frontend/src/pages/Register.js:42-71 | the first failing check of the step is reported and the step stays; otherwise the error clears and the step goes up by one |
| RegisterWizard.Wizard.BackStep | product-visualization-frontend/src/pages/Register.js:73-76 | the step goes down by one and the error clears |
| RegisterWizard.Wizard.Submit | product-visualization-frontend/src/pages/Register.js:78-96 | refused until the terms are agreed; otherwise the collected request, which passed both steps' checks |
| RegisterWizard.Wizard.SubmitAnswered | product-visualization-frontend/src/pages/Register.js:98-117 | a new account goes on to login with its address; a failure is reported |
| ProductUpload.HasSubscription | product-visualization-frontend/src/pages/ProductUpload.js:19 | false only for a subscription that is exactly `null` |
| ProductUpload.ImagesRemaining | product-visualization-frontend/src/pages/ProductUpload.js:20-22 | 0 without a subscription, quota less usage with one, and no value where the expression would throw |
| ProductUpload.FileRefusal | product-visualization-frontend/src/pages/ProductUpload.js:32-43 | accepted exactly for a JPEG, PNG or WEBP of at most 10 MB; the type is checked before the size |
| ProductUpload.FailureMessage | product-visualization-frontend/src/pages/ProductUpload.js:79-86 | the server's error if it sent one, else the fixed failure text, else the network text |
| ProductUpload.UploadPage.constructor | product-visualization-frontend/src/pages/ProductUpload.js:11-15 | no file, no spinner, no messages |
| ProductUpload.UploadPage.FileSelect | product-visualization-frontend/src/pages/ProductUpload.js:24-53 | no file changes nothing; a refused file is reported and not selected; an accepted one is selected |
| ProductUpload.UploadPage.Upload | product-visualization-frontend/src/pages/ProductUpload.js:55-69 | nothing without a selected file; otherwise that file is sent |
| ProductUpload.UploadPage.UploadAnswered | product-visualization-frontend/src/pages/ProductUpload.js:71-86 | an accepted upload moves to the scenes of the new image; a failure is reported |
| QuotaDisplay.ViewerOf | backend/app.py:226-243 | the subscription answer as the screens receive it: `null` exactly when there is none |
| QuotaDisplay.ScreensShowServerQuota | backend/app.py:236-243 | dashboard, plans, scenes and upload screens all show the tier's quota less the server's usage counter |
| QuotaDisplay.NoSubscriptionShownAsZero | product-visualization-frontend/src/pages/Dashboard.js:81-83 | without a subscription the dashboard shows 0 and the upload screen offers nothing and shows 0 |
| QuotaDisplay.UploadFigureMatchesGate | product-visualization-frontend/src/pages/ProductUpload.js:20-22 | the upload screen's figure is positive exactly when the server's gate admits the account |
| QuotaDisplay.GenerationReportMatchesScreens | backend/app.py:372-379 | the figure a generation reports is what every screen shows afterwards |
| QuotaDisplay.OverdrawnShownNegative | product-visualization-frontend/src/pages/Dashboard.js:81-83 | usage past the quota is shown as a negative number on every screen |

## Left out

- The picture generators are not modelled. Gemini and Imagen (`generate_visualization`, `generate_scene`, `generate_with_gemini`, `generate_with_imagen`) are network calls. Each server's `Generate` and `BatchProcess` take the generator's outcome as a parameter, which may be a failure.
- Pixel I/O and resizing are not modelled: opening, saving and resizing pictures with PIL, `_resize_image` (floating-point scale factors) and numpy array handling. Only the pixel rules and the file names are kept.
- File-system work is not modelled: `file.save`, `send_file` and `os.remove`. Each upload's file is readable or not, as a parameter.
- JWT tokens and werkzeug password hashing are library calls. They are opaque values that remember their input.
- `login` of `app.py` and of `backend/app.py` is not modelled. It only compares a hash and issues a token. The activation-aware `login` of the admin module is modelled.
- `get_subscription_tiers` and `get_scenes` only return the constants `Catalog.SubscriptionTiers` and `Catalog.SceneTemplates`.
- `get_user_by_id` is not modelled. It is a read of one document through the same conversion as the list.
- `get_admin_stats` is not modelled. It aggregates through the database pipeline with 30-day date windows.
- The admin module's wiring at `backend/admin/routes.py:21-50` is not modelled. That is the blueprint configuration and the stub gate that the one at line 64 shadows.
- Admin.ListUsers: the search regex and the `sort_by`/`sort_order` ordering are not modelled. The sorted, filtered result is the parameter `ranked`.
- Concurrency is not modelled. Neither server locks, and upload's quota check is not atomic with generation's increment. Each route is modelled as one sequential step.
- There is no billing-cycle reset. No code resets the counter or advances `next_billing_date`, so none is modelled.
- MongoBackend.ToJsonSerializable: a datetime becomes text tagged with its integer time, not the calendar text of `isoformat()`. Dates are integers throughout.
- SubscriptionPage.FormatCurrency: the `Intl.NumberFormat` currency text is a function parameter.
- Dashboard.CountSince: the first day of the month is a parameter, because `Date` arithmetic is left out.
- Dashboard.MostUsed: the scenes are visited in first-seen order. `Object.entries` would list integer-like keys first; scene keys are words.
- React rendering, navigation delays (`setTimeout`), the `FileReader` preview and scrolling are not modelled. Nor are the gallery's preview handlers, Blob downloads, or the share and action menus of the detail screen. They set display flags with no stated logic.
- `Text.Upper` and `Text.Lower` change only ASCII letters. Scene keys and hexadecimal ids are ASCII.

## Findings

| source | as written | input that shows it | evidently intended | confidence | as-written member | corrected member |
|---|---|---|---|---|---|---|
| backend/admin/routes.py:138-139 | the `last_reset` of the usage is written into the listed user's `subscription` dictionary, and the usage keeps its raw datetime | any listed user whose document has a usage with `last_reset` | the usage's `last_reset` serialised in place, as text inside `usage` | not executed | Admin.LastResetMisplaced | Admin.UserDictSerialised |
