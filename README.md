# GrimoireELK Bugzilla and Gerrit enrichment, modelled in Dafny

This project models the enrichment core of two GrimoireELK connectors,
`BugzillaEnrich` and `GerritEnrich`, and proves properties of the model.
Each connector turns raw items fetched by Perceval into enriched
documents and uploads them to Elasticsearch in bulk batches. The modelled
parts are:

- **SortingHat identities.** `get_sh_identity` in each connector; Bugzilla's
  goes through `fill_list_identity`.
- **`get_identities`.** The list of identities an item mentions.
- **`get_item_sh`.** The SortingHat fields of an enriched document.
- **`get_item_project`.** Builds a repository key and looks it up in the
  projects map.
- **Enriched documents.** Bugzilla's `enrich_issue` and Gerrit's
  `review_item`, with Gerrit's `_fix_review_dates`.
- **Bulk upload.** Bugzilla's `issues_to_es` and Gerrit's `enrich_items`
  with its `send_bulk_json`.

Records are a JSON datatype (`PyJson.Json`). Dicts are `map<string, Json>`.
Every Python lookup the code performs (`d[k]`, `l[0]`, `k in v`, `len`,
`for`, `+`, `split`) is a function returning a `Result`. A `Result` is a
value or the Python exception the lookup raises on the wrong shape
(`KeyError`, `IndexError`, `TypeError`, `AttributeError`). So every
operation is total, and malformed items are modelled, not excluded.

The bulk loop is shared by both connectors (module `Bulk`). It is a class
`Elastic` whose `requests` field logs every `requests.put`. The loop
flushes the buffer *before* appending the item that finds the counter at
`max_items_bulk`, and flushes once more, unconditionally, after the loop.
The loop method is proved equal to a recursive specification `Run`. The
batch properties are proved about `Flushes`, the batches `Run` sends when
nothing fails.

The modules are:

- `PyJson`: Python values and lookups.
- `Enrich`: the SortingHat oracles and the projects map.
- `Bulk`: the batching loop.
- `Bugzilla`: `grimoire/elk/bugzilla.py`.
- `Gerrit`: `grimoire/elk/gerrit.py`.

Behaviour of the code that the model keeps as written:

- **Bugzilla presence tests.** `get_item_sh`, `get_identities` and
  `enrich_issue` test the key on the raw item (`'assigned_to' in item`)
  but read the value from `item["data"]`.
- **Gerrit domain.** The domain is the text between the first and the
  second `'@'` of the email (`split("@")[1]`).
- **Gerrit retry log.** The retry handler of `send_bulk_json` builds its log
  message from `review['id']`, read from the loop variable of
  `enrich_items`. So for a body that is not ASCII:
  - it raises `KeyError` when the review has no `id`;
  - it would raise `NameError` before the loop has visited any review.
    That case cannot happen: the only put before the loop binds `review`
    is the final one for an empty `items`, whose body `""` is ASCII
    (`Bulk.EmptyRunSendsEmptyBody`). The model keeps the branch in
    `Deliver` only so that `Deliver` is total;
  - it retries only when that message can be built.
- **Gerrit `bot`.** SortingHat's profile is read, but `bot` is always 0.
- **Gerrit name and domain.** In `review_item`, the SortingHat `name` and
  `domain` override the owner's ones.
- **Bugzilla url.** `enrich_issue` builds the link as
  `scheme + "//" + netloc + "show_bug.cgi?id=" + bug_id`: there is no ':'
  after the scheme and no '/' before `show_bug.cgi`. `FixedFields` keeps
  that string as written.
- **Enrollments.** Both connectors take the organisation of the first
  enrollment, or None.

## Model

| member | source | states |
|---|---|---|
| Enrich.EmptyIdentity | grimoire/elk/gerrit.py:58-60 | the starting identity has exactly the keys name, email, username, each None |
| Enrich.NoneIdentity | grimoire/elk/bugzilla.py:70-73 | the initialisation loop over name, email, username yields the all-None identity |
| Bugzilla.FillListIdentity | grimoire/elk/bugzilla.py:62-68 | filling an identity from a user list keeps its key set |
| Bugzilla.FillFirstUser | grimoire/elk/bugzilla.py:62-68 | on the empty identity: username is the first entry's `__text__`, email is that text only when it contains '@', name is the entry's `name` only when it has one |
| Bugzilla.ShIdentity | grimoire/elk/bugzilla.py:58-87 | the result has exactly name, email and username; all None for a user with no recognised key; `changed_by`, read last, decides name; `Who` decides username unless `qa_contact` follows |
| Bugzilla.ShIdentityOfListRole | grimoire/elk/bugzilla.py:74-83 | a user with a single list role is identified by the first entry of that list alone |
| Bugzilla.GetShIdentity | grimoire/elk/bugzilla.py:58-87 | the statement-by-statement body computes exactly `ShIdentity`, exceptions included |
| Bugzilla.RoleIdentity | grimoire/elk/bugzilla.py:95 | the identity built from `{role: data[role]}` has the three identity keys |
| Bugzilla.RoleSh | grimoire/elk/bugzilla.py:94-102 | fails exactly when the role's identity cannot be built; otherwise exactly the three role keys: the uuid of the identity, its name, and the first enrollment's organisation or None |
| Bugzilla.ItemSh | grimoire/elk/bugzilla.py:89-114 | `*_uuid`, `*_name` and `*_org_name` appear for assigned_to and for reporter exactly when the raw item has that role, each resolved as `RoleSh` states |
| Bugzilla.Text | grimoire/elk/bugzilla.py:176 | `data[key][0]['__text__']` succeeds only on a dict that has `key` |
| Bugzilla.ItemProject | grimoire/elk/bugzilla.py:116-128 | succeeds exactly when origin and the product's text are strings; then the one-key dict of `prjs_map["its"][origin + "/buglist.cgi?product=" + product]`, None on a miss |
| Bugzilla.ProjectMissIsNotFatal | grimoire/elk/bugzilla.py:123-127 | the projects map never decides success; with an empty map the project is None |
| Bugzilla.IdentitiesOf | grimoire/elk/bugzilla.py:136-140 | one identity per user, in order, each `ShIdentity` of that user |
| Bugzilla.IdentitiesLayout | grimoire/elk/bugzilla.py:130-150 | one identity per activity event, then one per comment; without comments exactly one identity for the first of assigned_to, reporter, qa_contact present, or none |
| Bugzilla.IdentitiesLead | grimoire/elk/bugzilla.py:135-137 | the activity events' identities lead the list, in order |
| Bugzilla.IdentitiesComments | grimoire/elk/bugzilla.py:138-140 | with comments, the list ends with one identity per comment, in order, right after the events' ones |
| Bugzilla.IdentitiesFallback | grimoire/elk/bugzilla.py:141-149 | without comments, the events' identities are followed by the fallback role's identity, or by nothing |
| Bugzilla.ActivityLayout | grimoire/elk/bugzilla.py:135-137 | the activity part holds one identity per event, in order |
| Bugzilla.LaterLayout | grimoire/elk/bugzilla.py:138-149 | the comment part holds one identity per comment, or else at most the fallback role's identity |
| Bugzilla.IdentitiesStep | grimoire/elk/bugzilla.py:136-137 | one loop iteration appends the next user's identity or ends with its exception |
| Bugzilla.CollectIdentities | grimoire/elk/bugzilla.py:136-140 | the append loop computes `IdentitiesOf` |
| Bugzilla.GetIdentities | grimoire/elk/bugzilla.py:130-150 | the method with its loops computes `Identities`, exceptions included |
| Bugzilla.OptionalName | grimoire/elk/bugzilla.py:168-174 | the assigned_to or reporter field is set only under its own key, exactly when the raw item has the role and `data[role][0]` has a `name`, and then holds `data[role][0]["name"]` |
| Bugzilla.OptionalSummary | grimoire/elk/bugzilla.py:178-180 | `summary` is set only under its own key, exactly when the raw item has short_desc and `data['short_desc'][0]` has a `__text__`, and then holds that text |
| Bugzilla.CommentCount | grimoire/elk/bugzilla.py:194-199 | `len(data['long_desc'])` when the raw item has long_desc, else 0 |
| Bugzilla.FixedFields | grimoire/elk/bugzilla.py:176-200 | exactly the fixed fields; ocean-unique-id, bug_id, status, component, product and comment count as given; creation_ts, delta_ts and changeddate_date the formatted dates; time_to_last_update_days from the two formatted dates; url is scheme + "//" + netloc + "show_bug.cgi?id=" + bug text |
| Bugzilla.Assemble | grimoire/elk/bugzilla.py:158-200 | all fixed fields present with the values given (`Assembled`), no field outside the fixed and optional ones; each optional field is present and valued exactly as in the optional dict |
| Bugzilla.BaseIssue | grimoire/elk/bugzilla.py:158-201 | ocean-unique-id copied from data or None; number_of_comments per long_desc presence; bug_id, status, component and product are the first entry's `__text__` of bug_id, bug_status, component, product; the dates formatted from creation_ts and delta_ts; url built from bug_id; assigned_to, reporter and summary copied as `OptionalName`/`OptionalSummary` state; keys are only the base fields |
| Bugzilla.BaseIssueRest | grimoire/elk/bugzilla.py:182-200 | from the component read on, with the earlier values given: the same base facts, optional copies and key bound as `BaseIssue` |
| Bugzilla.AssembledIssue | grimoire/elk/bugzilla.py:158-201 | the document assembled from the values read from `data` holds all the base facts and the optional copies |
| Bugzilla.BasicsKept | grimoire/elk/bugzilla.py:204-208 | updates under other keys keep the base facts |
| Bugzilla.OptionalKept | grimoire/elk/bugzilla.py:204-208 | updates under other keys keep the optional copies |
| Bugzilla.SortingHatUpdate | grimoire/elk/bugzilla.py:204-205 | exactly the three fields of each role the raw item has, and only when sortinghat is on, resolved as `RoleSh` states |
| Bugzilla.ProjectUpdate | grimoire/elk/bugzilla.py:207-208 | `project` appears exactly when the projects map is non-empty, with `get_item_project`'s value |
| Bugzilla.IssueUpdates | grimoire/elk/bugzilla.py:204-208 | the two updates together: exactly the SortingHat fields of the roles on the raw item when sortinghat is on, plus project iff a map is set, with their values |
| Bugzilla.EnrichIssue | grimoire/elk/bugzilla.py:152-210 | the base facts and optional copies hold; no key outside the base, SortingHat and project fields; the SortingHat fields present are exactly the three of each role on the raw item when sortinghat is on, and none when it is off, with their resolved values; `project` present iff prjs_map is set, with its looked-up value |
| Bugzilla.UpdatedIssue | grimoire/elk/bugzilla.py:204-210 | the base document updated with the SortingHat and project updates keeps its base facts and gains exactly those fields |
| Bugzilla.IssueParts | grimoire/elk/bugzilla.py:271-274 | an issue contributes the directive with `_id` = `%s` of `data["bug_id"]` and the serialised enriched issue; fails exactly when enrichment or that lookup fails |
| Bugzilla.IssueText | grimoire/elk/bugzilla.py:271-274 | the buffer text of one issue is the directive line and the document line, each newline-terminated |
| Bugzilla.IssueTexts | grimoire/elk/bugzilla.py:266-275 | one text or exception per issue, in order |
| Bugzilla.IssuesToEs | grimoire/elk/bugzilla.py:254-276 | the store receives exactly the bodies of `Run` with no retry, at `<index_url>/issues/_bulk`, and the loop ends as `Run` does |
| Bugzilla.IssueLines | grimoire/elk/bugzilla.py:271-274 | the texts of issues that all enrich, one per issue |
| Bugzilla.IssuesDelivered | grimoire/elk/bugzilla.py:266-276 | when every issue enriches to ASCII text, exactly the `Flushes` batches are sent, in order, and the run completes |
| Bugzilla.IssueBatchLines | grimoire/elk/bugzilla.py:273-274 | a batch body splits into directive, document per issue, in order, then a trailing empty string |
| Gerrit.Identity | grimoire/elk/gerrit.py:58-63 | a dict user's identity has exactly the three identity keys |
| Gerrit.CopyIfPresent | grimoire/elk/gerrit.py:61-63 | copying one field adds at most that key |
| Gerrit.ShIdentity | grimoire/elk/gerrit.py:56-64 | the result has exactly name, email, username; a value that is not a dict, string or list raises |
| Gerrit.GetShIdentity | grimoire/elk/gerrit.py:56-64 | the statement-by-statement body computes exactly `ShIdentity` |
| Gerrit.ShIdentityOfDict | grimoire/elk/gerrit.py:56-64 | a dict user's identity copies each of name, email, username when present and None otherwise; other keys do not matter |
| Gerrit.ShIdentityIdempotent | grimoire/elk/gerrit.py:56-64 | applying `get_sh_identity` to its own result gives the same identity |
| Gerrit.EmailDomain | grimoire/elk/gerrit.py:90-97 | None for a falsy email; for a string, the text between its first and second '@', None without '@'; a truthy non-string raises |
| Gerrit.OwnerIdentity | grimoire/elk/gerrit.py:70-72 | the owner's identity has the three identity keys |
| Gerrit.ShDocument | grimoire/elk/gerrit.py:73-103 | exactly the SortingHat fields; bot is 0; each author_* field equals its unprefixed field |
| Gerrit.ItemSh | grimoire/elk/gerrit.py:66-105 | fails exactly when the owner identity fails, the uuid has no unique identity, or the email has no split; else the SortingHat fields of the owner's identity, first-enrollment organisation |
| Gerrit.RepositoryKey | grimoire/elk/gerrit.py:110-111 | the key is origin + "_" + data["project"], both strings, and fails exactly otherwise; a missing origin raises KeyError, a non-string origin TypeError before `data` is read, a missing `data` after a string origin KeyError |
| Gerrit.ItemProject | grimoire/elk/gerrit.py:107-117 | succeeds exactly when the key can be built, else raises the key's exception; then `{"project": prjs_map["scr"][key]}`, None on a miss |
| Gerrit.UserIdentity | grimoire/elk/gerrit.py:127-128 | `get_sh_identity(x[key])` succeeds only on a dict with that key |
| Gerrit.RoleIdentities | grimoire/elk/gerrit.py:140-147 | one identity per entry, in order, each that of its `by` or `reviewer` |
| Gerrit.AuthorIdentity | grimoire/elk/gerrit.py:135-137 | one identity when the patch set has an author, none otherwise |
| Gerrit.PatchCount | grimoire/elk/gerrit.py:133-142 | a patch set contributes 1 + [author] + number of approvals identities |
| Gerrit.PatchHead | grimoire/elk/gerrit.py:133-137 | the uploader's identity first, the author's right after it when there is one |
| Gerrit.PatchApprovers | grimoire/elk/gerrit.py:138-142 | after uploader and author, exactly the approvers' identities in order |
| Gerrit.PatchSetCount | grimoire/elk/gerrit.py:131-142 | the patch sets contribute the sum over them of 1 + [author] + approvals |
| Gerrit.IdentitiesLayout | grimoire/elk/gerrit.py:119-149 | the owner first; length 1 + the patch-set sum + number of comments; the comments' reviewers last, in order |
| Gerrit.RoleIdentitiesStep | grimoire/elk/gerrit.py:140-142 | one loop iteration appends the next identity or ends with its exception |
| Gerrit.ConcatenatedStep | grimoire/elk/gerrit.py:132-142 | one patch-set iteration appends that patch set's identities |
| Gerrit.CollectRoleIdentities | grimoire/elk/gerrit.py:140-147 | the approvals and comments loops compute `RoleIdentities` |
| Gerrit.CollectPatchIdentities | grimoire/elk/gerrit.py:133-142 | the patch-set loop body computes `PatchIdentities` |
| Gerrit.CollectPatchSetIdentities | grimoire/elk/gerrit.py:131-142 | the patch-set loop computes `PatchSetIdentities` |
| Gerrit.GetIdentities | grimoire/elk/gerrit.py:119-149 | the method computes `Identities`, exceptions included |
| Gerrit.DatedEntry | grimoire/elk/gerrit.py:168-176 | rewriting one key keeps the entry's keys, rewrites that key with the date routine, and leaves the rest alone |
| Gerrit.Mapped | grimoire/elk/gerrit.py:167-181 | succeeds iff every entry does; same length; each entry rewritten |
| Gerrit.ListRewritten | grimoire/elk/gerrit.py:167-181 | a list's entries are rewritten one by one, in place, same length |
| Gerrit.DatedPatch | grimoire/elk/gerrit.py:168-176 | a patch set keeps its keys; createdOn rewritten; approvals' grantedOn rewritten when it has approvals |
| Gerrit.DatedField | grimoire/elk/gerrit.py:162-165 | a top-level date key is rewritten when present; other keys kept |
| Gerrit.DatedTop | grimoire/elk/gerrit.py:161-165 | the review's own date loop keeps the key set and every key outside the list |
| Gerrit.DatedTopRewrites | grimoire/elk/gerrit.py:161-165 | each of the distinct date keys present is rewritten exactly once |
| Gerrit.RewrittenKey | grimoire/elk/gerrit.py:166-181 | a nested list under a key is rewritten, the other keys kept |
| Gerrit.DatedReview | grimoire/elk/gerrit.py:157-181 | the review keeps its keys and every field other than timestamp, createdOn, lastUpdated, patchSets, comments; a non-dict review raises AttributeError |
| Gerrit.DatedReviewRewrites | grimoire/elk/gerrit.py:157-181 | top dates present are rewritten; patchSets and comments are rewritten entry by entry, same lengths |
| Gerrit.MappedOk | grimoire/elk/gerrit.py:167-181 | entry-wise success gives the rewritten list |
| Gerrit.MappedErr | grimoire/elk/gerrit.py:167-181 | the first failing entry's exception is raised |
| Gerrit.RewriteDates | grimoire/elk/gerrit.py:172-181 | the approvals and comments loops compute `ListRewritten` |
| Gerrit.FixPatchDates | grimoire/elk/gerrit.py:168-176 | the patch-set loop body computes `DatedPatch` |
| Gerrit.RewritePatches | grimoire/elk/gerrit.py:166-176 | the patch-set loop computes `ListRewritten` |
| Gerrit.FixReviewDates | grimoire/elk/gerrit.py:157-181 | the method computes `DatedReview` |
| Gerrit.ReviewHead | grimoire/elk/gerrit.py:206-213 | fails iff metadata__updated_on is missing; exactly the metadata fields plus `closed`; each copied or None; closed = metadata__updated_on |
| Gerrit.CopyFields | grimoire/elk/gerrit.py:219-230 | succeeds iff every source field exists; adds exactly the targets; keeps other fields |
| Gerrit.CopyFieldsCopies | grimoire/elk/gerrit.py:219-230 | with distinct targets each target holds its source's review value |
| Gerrit.ReviewCopiesFields | grimoire/elk/gerrit.py:219-230 | status, branch, url copied; subject, id, createdOn, project, number renamed to summary, githash, opened, repository, number |
| Gerrit.OwnerNameDomain | grimoire/elk/gerrit.py:232-238 | name only when the owner has one; domain only when it also has an email containing '@', the second split field |
| Gerrit.ReviewCopies | grimoire/elk/gerrit.py:219-230 | the copy loops add exactly the copied and renamed keys |
| Gerrit.ReviewBody | grimoire/elk/gerrit.py:219-240 | adds exactly the copied, renamed and summary_analyzed, name, domain, patchsets keys |
| Gerrit.ReviewBodyFields | grimoire/elk/gerrit.py:219-240 | summary_analyzed = summary = subject; patchsets = len(patchSets); copies and head kept |
| Gerrit.TimeOpen | grimoire/elk/gerrit.py:243-249 | raises unless the review's createdOn parses; the days open are counted from the first patch set's parsed createdOn when there are patch sets, else from the review's |
| Gerrit.ReviewDoc | grimoire/elk/gerrit.py:203-249 | the document before its late updates holds the key ocean-unique-id; its field values are stated by ReviewDocFields |
| Gerrit.DatedItemLookups | grimoire/elk/gerrit.py:216 | the date rewrite changes neither the owner identity, the repository key, nor name and domain |
| Gerrit.ReviewDocFields | grimoire/elk/gerrit.py:203-249 | the document copies metadata, copies and renames the date-rewritten review's fields, and holds timeopen |
| Gerrit.ReviewEItem | grimoire/elk/gerrit.py:203-255 | an enriched review always holds the key ocean-unique-id; its field values are stated by ReviewEItemFields |
| Gerrit.LateUpdate | grimoire/elk/gerrit.py:251-255 | the late updates keep every key of the document; LateUpdateFields states the values |
| Gerrit.SortingHatUpdate | grimoire/elk/gerrit.py:251-252 | the SortingHat update keeps every key of the document; SortingHatUpdateFields states the values, with name and domain overridden |
| Gerrit.ProjectUpdate | grimoire/elk/gerrit.py:254-255 | the project update keeps every key of the document; ProjectUpdateFields states the value |
| Gerrit.ReviewEItemFields | grimoire/elk/gerrit.py:203-255 | metadata copied or None; closed; copies and renames; timeopen; owner name and domain without SortingHat, the SortingHat fields with it; project when a map is set |
| Gerrit.LateUpdateFields | grimoire/elk/gerrit.py:251-255 | the late updates keep the copied facts and add SortingHat and project fields as configured |
| Gerrit.SortingHatUpdateFields | grimoire/elk/gerrit.py:251-252 | without SortingHat the document is unchanged; with it the owner's SortingHat fields are set (overriding name and domain); copies and timeopen kept |
| Gerrit.ProjectUpdateFields | grimoire/elk/gerrit.py:254-255 | with a map set, project holds the looked-up value; other facts kept |
| Gerrit.ReviewItem | grimoire/elk/gerrit.py:257-260 | exactly the directive with `_id` = `%s` of ocean-unique-id, then the serialised enriched review, each newline-terminated; fails iff enrichment fails |
| Gerrit.CopyMetadata | grimoire/elk/gerrit.py:207-213 | the metadata loop computes `ReviewHead` |
| Gerrit.CopyFieldsLoop | grimoire/elk/gerrit.py:219-230 | each copy loop computes `CopyFields` |
| Gerrit.BuildReviewDoc | grimoire/elk/gerrit.py:203-249 | the step-by-step build computes `ReviewDoc` |
| Gerrit.EnrichReview | grimoire/elk/gerrit.py:203-260 | the step-by-step `review_item` computes `ReviewItem` |
| Gerrit.ReviewText | grimoire/elk/gerrit.py:291-292 | a review contributes directive, document and an empty line |
| Gerrit.ReviewTexts | grimoire/elk/gerrit.py:284-293 | one text or exception per review, in order |
| Gerrit.LogReviewId | grimoire/elk/gerrit.py:275 | the log message raises KeyError without `id`, TypeError for a non-string `id` |
| Gerrit.EnrichItems | grimoire/elk/gerrit.py:263-294 | the store receives exactly the bodies of `Run` under the ASCII retry, at `<index_url>/items/_bulk`, and the loop ends as `Run` does |
| Gerrit.ReviewLines | grimoire/elk/gerrit.py:291-292 | the texts of reviews that all enrich, one per review |
| Gerrit.ReviewsDelivered | grimoire/elk/gerrit.py:266-294 | when every review enriches, and either every review text is ASCII (no put raises, so `review['id']` is never read) or the log message evaluates for every review, exactly the `Flushes` batches are sent, in order, with non-ASCII dropped, and the run completes |
| Gerrit.ReviewBatchLines | grimoire/elk/gerrit.py:257-258 | a batch body splits into directive, document, empty line per review, in order, then a trailing empty string |
| Bulk.Flushes | grimoire/elk/bugzilla.py:266-276 | the batches of the flush-before-append loop: there is always at least one, the final put |
| Bulk.FlushesPreserveOrder | grimoire/elk/bugzilla.py:266-276 | the batches concatenated in send order are the input in its order |
| Bulk.FlushesBounded | grimoire/elk/gerrit.py:284-294 | with max_items_bulk >= 1 every batch holds at most k items, all but the last exactly k; the last is empty only for empty input |
| Bulk.FlattenLength | grimoire/elk/bugzilla.py:266-276 | batch sizes add up to the number of items |
| Bulk.FlushesCount | grimoire/elk/bugzilla.py:266-276 | the number of puts is max(1, ceil(n / k)): one put for no items |
| Bulk.Singletons | grimoire/elk/bugzilla.py:267-270 | one batch per item |
| Bulk.FlushesSmallLimit | grimoire/elk/bugzilla.py:267-270 | with k = 1 every item goes alone; with k <= 0 an empty first put, then every item alone |
| Bulk.SingletonsFrom | grimoire/elk/bugzilla.py:267-270 | with k <= 1 a buffered item is flushed alone before the next |
| Bulk.AsciiOnlyProperties | grimoire/elk/gerrit.py:276 | the sanitised body is ASCII, a subsequence of the body, and the body itself when already ASCII |
| Bulk.ConcatAscii | grimoire/elk/gerrit.py:292 | a buffer of ASCII texts is ASCII |
| Bulk.Bodies | grimoire/elk/gerrit.py:276-277 | one body per batch: its text, or its ASCII-only text under the retry |
| Bulk.DeliverAccepted | grimoire/elk/gerrit.py:270-277 | an ASCII body is sent as is; otherwise the retry sends its ASCII-only version when the log message evaluates |
| Bulk.RunStep | grimoire/elk/gerrit.py:284-293 | a loop step: flush first when the counter reached the limit, then append the item's text |
| Bulk.RunFlushFails | grimoire/elk/gerrit.py:285-286 | a failing flush ends the run with its exception, nothing more sent |
| Bulk.RunTextFails | grimoire/elk/gerrit.py:291 | an item whose enrichment raises ends the run, after any flush |
| Bulk.RunSendsFlushes | grimoire/elk/bugzilla.py:266-276 | when all texts render and either all texts and the buffer are ASCII (under either policy) or the policy retries and its log message always evaluates, the run sends exactly the bodies of `Flushes` and completes |
| Bulk.RunAbortHere | grimoire/elk/bugzilla.py:267-271 | an issue that fails to enrich ends the run with its exception, after the flush of a full buffer, which still happens |
| Bulk.RunAbortLosesBuffer | grimoire/elk/bugzilla.py:266-276 | when item j fails, only the batches flushed before it were sent; the buffer being filled is lost |
| Bulk.EmptyRunSendsEmptyBody | grimoire/elk/gerrit.py:280-294 | with no items, the one final put sends the empty body and the run completes, so the handler's unbound `review` is never read |
| Bulk.Requests | grimoire/elk/bugzilla.py:268 | one put request per body, same URL |
| Bulk.Elastic.Put | grimoire/elk/gerrit.py:270 | `put` raises UnicodeEncodeError iff the body is not ASCII, the failure the handler at gerrit.py:273-277 expects; logs the request only when it succeeds |
| Bulk.SendBatch | grimoire/elk/gerrit.py:266-277 | `send_bulk_json` delivers exactly `Deliver`'s body or raises its exception |
| Bulk.Feed | grimoire/elk/gerrit.py:284-293 | one loop iteration extends the request log with `Run`'s bodies for that step |
| Bulk.FlushLast | grimoire/elk/gerrit.py:294 | the final unconditional put logs exactly the last body or ends with its exception |
| Bulk.BulkLoop | grimoire/elk/bugzilla.py:266-276 | the loop sends exactly `Run`'s bodies and ends with `Run`'s outcome |
| Bulk.SplitTerminated | grimoire/elk/bugzilla.py:273-274 | newline-free lines, each terminated, split back into the lines plus a trailing empty string |
| Bulk.SplitPairs | grimoire/elk/bugzilla.py:273-274 | texts of two terminated lines split into those lines in order |
| Bulk.SplitTriples | grimoire/elk/gerrit.py:292 | texts of three terminated lines (the last empty) split into those lines in order |
| Bulk.DirectiveNoNewline | grimoire/elk/bugzilla.py:273 | the directive line has no newline when its id has none |

## Left out

- I/O:
  - HTTP is the `Elastic` request log.
- Bulk.Elastic.Put: the condition for `UnicodeEncodeError`, a body that
  is not ASCII, comes from the comment in `send_bulk_json`
  (gerrit.py:274). `requests` may encode a `str` body differently, for
  example as ISO-8859-1. Connection errors and the response status are not
  modelled either: every ASCII put succeeds.
- `logging` and the `time()` measurements are not modelled.
- Unmodelled routines are uninterpreted functions in each connector's
  `Config`. This covers `json.dumps` and `%s` (`Codec`), `parser.parse`
  with `strftime`/`isoformat`, and `time.localtime` with `strftime`. It
  also covers `get_time_diff_days` and `urlparse`, which is reduced to
  scheme and netloc.
- SortingHat's `get_uuid`, `get_enrollments` and `get_unique_identities`
  are oracles. The `Enrich` base class is not part of this model.
- Float arithmetic and the clock are not modelled. `timeopen` is the
  `daysOpen` oracle on the parsed date; it leaves out `utcnow()`, float
  division and `'%.2f'`.
- `issues_list_to_es` (bugzilla.py:220-251) is left out: it reads an
  undefined `rich_item` and cannot run.
- Left out as constants or trivial: `__init__`, `set_elastic`,
  `get_field_*`, `get_elastic_mappings`, `get_item_id`,
  `get_fields_uuid`. The type names `issues` and `items` and the unique-id
  fields `bug_id` and `ocean-unique-id` are inlined.
- In-place mutation is modelled on values:
  - `_fix_review_dates` returns the rewritten review.
  - `review_item` uses that returned review.
  - The caller's item is not updated as a side effect.
  - When an exception stops these functions midway, the model does not
    capture the partly mutated nested dicts.
- Iterating a non-empty dict (a `for` over a dict where a list was
  expected) is modelled as a `TypeError`, since a map has no key order.
  Python would iterate its keys.
- The Bugzilla `parse`/`strftime` routines are total. A date that
  `parser.parse` rejects is not modelled as an exception in
  `enrich_issue`.
- Bugzilla.BaseIssue has no loop for `copy_fields`. The source loops over
  a one-element list (`ocean-unique-id`), so the single copy is written
  inline.
- Bugzilla.EnrichIssue, ItemSh and Gerrit.ItemSh are functions over the
  step-by-step assignments in the source; those local dicts build a value
  and nothing outside sees the intermediate states.
- Gerrit.ReviewEItemFields states the copied and renamed fields against
  the date-rewritten review (`DatedReview`), not against the raw item's
  data.
- Bugzilla.IssueBatchLines requires that `%s` of each bug id and
  `json.dumps` of each enriched issue contain no newline. The codec is
  uninterpreted, so this is assumed of it, not proved.
- Gerrit.ReviewBatchLines requires the same of `%s` of each
  ocean-unique-id and of each serialised review.
- Bugzilla.IssuesDelivered covers the runs in which every issue enriches
  to ASCII text, which are exactly the runs in which nothing fails.
- Gerrit.ReviewsDelivered covers the runs in which every review enriches
  and either every review text is ASCII or every review has a string `id`
  for the retry's log message. A run that mixes a non-ASCII batch with a
  review lacking `id` elsewhere in the input is not covered by a
  completion lemma. It may still complete, when the reviews without `id`
  are never the loop variable at a non-ASCII flush.
- The failing cases are stated separately by `Bulk.RunFlushFails`,
  `Bulk.RunTextFails` and `Bulk.RunAbortLosesBuffer`.
