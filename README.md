# minzufs: ethnic-costume recognition and image merging, modelled in Dafny

minzufs is a Django REST service with a Vue front end. A user uploads a photo of
traditional clothing and the service recognises which ethnic groups the costume
belongs to (`ImagesPost`). A user may also build a merged picture (`MergedImageModel`):
two recognised clothing photos, two head photos and one of six whitelisted
backgrounds are composed into one image. The front end talks to the service through a
generic REST client (`DjangoRestAdminClient`). That client is configured per resource
with an endpoint, a placeholder, callbacks and a `parse` function. The login state is
a JSON Web Token kept by `DjangoRestAdminAuthenticator`.

This project models:

- the two Django models and their save logic (`identify_models.dfy`);
- the view sets that serve them: visibility, creation, the two query-parameter
  actions, the per-user merged-image listing, `merge` and `travelled`
  (`identify_viewsets.dfy`);
- the geometry of the compositing step: the background whitelist, the ratio clamp,
  placement, the region of interest and the in-place blend on the background pixels
  (`merge_geometry.dfy`);
- the REST client: option parsing and defaults, per-call option merging, URLs, and the
  then/error/parse promise pipeline of every call (`rest_client.dfy`);
- the merged-image resource of the front end: its placeholder, `parse` and client
  options (`merged_images.dfy`);
- the token authenticator: token decoding, storage, expiry, login and logout
  (`authenticator.dfy`).

`common.dfy` holds the values they share: `Option`, `Result`, a JSON value, JavaScript
truthiness, integer printing and POSIX `os.path.join`.

Modelling conventions:

- A JavaScript object field is a `Slot`: the key is missing, present but
  `undefined`, or holds a value. Object spread takes a present-but-`undefined` key
  from the right, so this distinction matters.
- A promise is an `Outcome`: resolved with a value or rejected with an exception.
- The network, the clock, `localStorage`, `JSON.parse`/`atob`, the image codec, the
  alpha blend and the file system are parameters: functions, maps or arrays handed
  in by the caller.
- Ratios are whole tenths: the source only ever uses 0.5, 0.7 and ratios rounded to
  one decimal.
- The ratio clamp of `blend_images` can scale a foreground past the background's
  height (see "## Findings"). The blend and the two-pass merge therefore take the clamp
  as a parameter: `AsWritten` is the code as it stands and `Corrected` is the
  evidently intended clamp.
- Each reading of the clock is a separate parameter (`now1`, `now2`, ...), so time may
  pass between two reads inside one operation.

## Model

| member | source | states |
|---|---|---|
| Common.NatToString | minzufs/identify/models.py:56 | the decimal text of a natural is non-empty, all digits, with no leading zero |
| Common.IntToString | minzufs/identify/models.py:56 | the text of an integer starts with '-' exactly when it is negative; the rest is digits |
| Common.NatToStringInjective | minzufs/identify/models.py:56 | different naturals have different decimal texts |
| Common.IntToStringInjective | minzufs/identify/models.py:56 | different integers have different texts |
| Common.Join | minzufs/identify/models.py:57 | `os.path.join` ends with its last part, and an absolute last part replaces the prefix |
| MergeGeometry.BackgroundList | minzufs/identify/lib/mergeimages.py:105-106 | the whitelist has exactly the keys bg1..bg6, each mapped to `<media>/background-image/<key>.png` |
| MergeGeometry.BackgroundKeyListed | minzufs/identify/lib/mergeimages.py:106 | each `bg{i}` for i in 1..6 is whitelisted |
| MergeGeometry.WhitelistIsBg1ToBg6 | minzufs/identify/lib/mergeimages.py:106 | a name is whitelisted if and only if it is `bg{i}` for some i in 1..6 |
| MergeGeometry.WhitelistPaths | minzufs/identify/lib/mergeimages.py:105-106 | `bg{i}` maps to its own png file in the background directory |
| MergeGeometry.ClampRatioAsWritten | minzufs/identify/lib/mergeimages.py:59-64 | a ratio above hb/hf becomes round(hb/hf, 1); a ratio below 0.1 becomes 0.1; otherwise the ratio is kept |
| MergeGeometry.AsWrittenClampOverflows | minzufs/identify/lib/mergeimages.py:59-61 | for hb=100, hf=220 the clamped ratio 0.5 scales the foreground to 110 rows, taller than the background |
| MergeGeometry.ClampRatio | minzufs/identify/lib/mergeimages.py:59-64 | the corrected clamp never raises the ratio, keeps ratios that fit, and the scaled height fits whenever the background is at least a tenth of the foreground |
| MergeGeometry.DivMulBound | minzufs/identify/lib/mergeimages.py:59-61 | a quotient rounded down, times the divisor, stays within the dividend, as `int()` truncation of a ratio needs |
| MergeGeometry.ScaledFits | minzufs/identify/lib/mergeimages.py:59-61 | a ratio at or below floor(10·hb/hf) tenths keeps `int(ratio*hf)` within hb |
| MergeGeometry.Position | minzufs/identify/lib/mergeimages.py:66-69 | no position means the bottom edge at a quarter of the width; with bottom alignment the row is hb minus the scaled height; otherwise the given position |
| MergeGeometry.SliceBound | minzufs/identify/lib/mergeimages.py:71 | a Python slice bound lies in 0..n, keeps in-range bounds and cuts larger ones to n |
| MergeGeometry.SliceLen | minzufs/identify/lib/mergeimages.py:71 | the slice length is at most n, and for non-negative bounds it is the clipped width |
| MergeGeometry.PlanForRatio | minzufs/identify/lib/mergeimages.py:66-81 | a plan that succeeds has a non-empty region inside the background; the slice it writes back starts where the region does, lies inside it, and is the whole region or empty |
| MergeGeometry.PlanIsSliced | minzufs/identify/lib/mergeimages.py:66-81 | the region is the slice of `int(hf*ratio)` rows and `int(wf*ratio)` columns from the placement, clipped as Python clips; the plan fails with EmptyRegion exactly when that slice is empty, and with ShapeMismatch exactly when the write-back slice of line 81 is shorter along an axis where the block is not one pixel thick (numpy broadcasting); a success records the region and the written slice |
| MergeGeometry.BlendPlanAsWritten | minzufs/identify/lib/mergeimages.py:59-81 | the plan of `blend_images` as written: the ratio of the clamp as written, the position it implies, the sliced region and written slice, and exactly when it fails, broadcasting included |
| MergeGeometry.AsWrittenOneRowOverflow | minzufs/identify/lib/mergeimages.py:59-81 | a foreground of 202 rows over 100 at 0.5 overflows by one row: the region is the last row, the written slice is empty, and the plan succeeds without painting |
| MergeGeometry.AsWrittenFirstPassFails | minzufs/identify/lib/mergeimages.py:130-133 | with the clamp as written, the first pass (ratio 0.5 at (50, 230)) fails on a 100×400 background with a 220×100 foreground |
| MergeGeometry.BlendPlan | minzufs/identify/lib/mergeimages.py:59-81 | the same plan with the corrected clamp: its ratio, position, sliced region, written slice and failures, broadcasting included; it succeeds on any bottom-aligned placement with a background at least a tenth as tall as the foreground |
| MergeGeometry.AlignedPlan | minzufs/identify/lib/mergeimages.py:66-81 | a bottom-aligned foreground that fits ends exactly on the bottom edge, its whole region is written back, and its plan fails only when the region is empty |
| MergeGeometry.CorrectedOneRowOverflow | minzufs/identify/lib/mergeimages.py:59-81 | with the corrected clamp, a background lower than a tenth of the foreground (10 rows under 110) also overflows by one row and the plan succeeds without painting |
| MergeGeometry.CorrectedFirstPassSucceeds | minzufs/identify/lib/mergeimages.py:130-133 | with the corrected clamp the same first pass succeeds |
| MergeGeometry.PlanWith | minzufs/identify/lib/mergeimages.py:59-81 | the plan with the clamp as written or corrected, as chosen; a region that succeeds lies inside the background and its written slice is the whole region or empty |
| MergeGeometry.AsWrittenFillsHeight | minzufs/identify/lib/mergeimages.py:59-71 | for a 201-row foreground over a 100-row background at 0.5, the code as written keeps 0.5 and paints rows 0..100 |
| MergeGeometry.CorrectedLeavesTop | minzufs/identify/lib/mergeimages.py:59-71 | on the same input the corrected clamp takes 0.4 and paints rows 20..100 |
| MergeGeometry.Blend | minzufs/identify/lib/mergeimages.py:44-82 | `blend_images` with the chosen clamp (`AsWritten` is the code as it stands): the result is that clamp's plan; the background array is the blend inside the written slice of line 81 (the whole region, or nothing after a broadcast) and unchanged elsewhere; on failure nothing changes |
| MergeGeometry.BlendRow | minzufs/identify/lib/mergeimages.py:76-81 | one row of the written slice is painted column by column and every other pixel is left alone |
| MergeGeometry.MergeImages | minzufs/identify/lib/mergeimages.py:109-140 | with the chosen clamp: a name outside the whitelist is a KeyError; otherwise the merge fails exactly when one of the two plans (0.5 at (50, 230), then 0.7 at (50, 80)) fails, with the first failure; a pass that broadcasts onto an empty slice succeeds and the merge goes on; on success both passes are painted in order |
| IdentifyModels.NewImagesPost | minzufs/identify/models.py:18-35 | a new post has no id, user, nations or time, and the four Chinese defaults |
| IdentifyModels.IdText | minzufs/identify/models.py:56 | `f'{instance.id}'` is "None" for an unsaved row, and an integer's text otherwise |
| IdentifyModels.ImagesPostStr | minzufs/identify/models.py:49-51 | `__str__` is the text of the id |
| IdentifyModels.ImagesPostRecord.constructor | minzufs/identify/models.py:13-35 | a row with the given fields and no saves yet |
| IdentifyModels.ImagesPostRecord.Save | minzufs/identify/models.py:13-51 | a save records the row as `StagedPost` writes it, keeps the committed upload on the record and gives an unsaved row its new id |
| IdentifyModels.UploadImagesPath | minzufs/identify/models.py:20 | a pending upload named n is stored as `upload_images/n` |
| IdentifyModels.StagedPost | minzufs/identify/models.py:20 | the written row differs from the record only in `upload_images`: a pending file is committed under `upload_images/`, a committed one and a missing one are kept |
| IdentifyModels.StagedPostIdempotent | minzufs/identify/models.py:20 | a second save commits nothing new, and after a save the upload is committed |
| IdentifyModels.RFind | minzufs/identify/models.py:55 | the last index of a character, or -1 |
| IdentifyModels.Ext | minzufs/identify/models.py:55 | `os.path.splitext(...)[1]` is a suffix of the name that is empty or one dot followed by no dot or slash |
| IdentifyModels.ExtFound | minzufs/identify/models.py:55 | the extension is non-empty exactly when the last path component has a '.' after a character other than '.' |
| IdentifyModels.ExtOfPlainName | minzufs/identify/models.py:55 | the extension of "photo.png" is ".png" |
| IdentifyModels.ExtOfHiddenName | minzufs/identify/models.py:55 | a name that starts with its only dot, ".bashrc", has no extension |
| IdentifyModels.ExtOfDoubleSuffix | minzufs/identify/models.py:55 | only the last suffix of "archive.tar.gz" is the extension |
| IdentifyModels.MergedFilePath | minzufs/identify/models.py:54-69 | the three upload paths `<media>/merge-image/merged-<id>-<part><ext>`, with part `head-1`, `head-2` or `merged` (`Head1Path`, `Head2Path`, `ResultPath`), end in that name |
| IdentifyModels.JoinKeepsDistinct | minzufs/identify/models.py:57 | joining two different relative names onto one directory gives different paths |
| IdentifyModels.PathsDistinct | minzufs/identify/models.py:54-69 | the three upload paths of one row never collide |
| IdentifyModels.CommitFile | minzufs/identify/models.py:86-94 | a pending upload is moved to its `upload_to` path and committed; a committed or absent file is left alone |
| IdentifyModels.DropForceInsert | minzufs/identify/models.py:104 | `force_insert=True` is dropped from the keyword arguments and nothing else changes |
| IdentifyModels.Committed | minzufs/identify/models.py:86-105 | an underlying save changes only the file fields, and keeps a result that is already stored |
| IdentifyModels.SavedRowKeeps | minzufs/identify/models.py:98-105 | a save keeps the user, background and both identifications and a stored result; an unsaved row gets the new id, a saved one keeps its id |
| IdentifyModels.SavedHeadsCarryId | minzufs/identify/models.py:98-105 | the pending head images of a row saved for the first time land on paths built from its new id |
| IdentifyModels.SaveCallsShape | minzufs/identify/models.py:98-105 | a new row is written twice, first without head images, then with `force_insert=True` dropped; a saved row once; the last write is the final row |
| IdentifyModels.FilePath | minzufs/identify/models.py:112-116 | an absent or empty file is a ValueError; otherwise its path under the media root |
| IdentifyModels.ClothesPath | minzufs/identify/models.py:112-114 | a missing clothing post is an AttributeError; otherwise the path of its upload |
| IdentifyModels.MergeInputs | minzufs/identify/models.py:111-116 | the four input paths in source order, with the error of the first missing one |
| IdentifyModels.MergedImageRecord.constructor | minzufs/identify/models.py:81-96 | a row with the given fields and no saves yet |
| IdentifyModels.MergedImageRecord.BaseSave | minzufs/identify/models.py:98-105 | Django's save: pending files are committed, the row is recorded, a new row gets its id |
| IdentifyModels.MergedImageRecord.Save | minzufs/identify/models.py:98-105 | the record ends as `SavedRow` of the old row, and the calls of `Model.save` it made are `SaveCalls` of it |
| IdentifyModels.MergedImageRecord.Merge | minzufs/identify/models.py:107-125 | an unreadable input raises its error and a missing file or background a ValueError, changing nothing; `merge_images` gets the four paths and the background name; a failed composition changes nothing; otherwise the record ends as `SavedRow` of the old row with the result stored as `image.png`, and the saves are `SaveCalls` of it |
| IdentifyModels.MergedImageRecord.SaveResultImage | minzufs/identify/models.py:123-125 | the result file is stored as `image.png` under the result path of the record as it is, and the record is then saved as `Save` describes |
| IdentifyViewsets.Filter | minzufs/identify/viewsets.py:42-43 | a filter keeps exactly the members that pass and is no longer than its input |
| IdentifyViewsets.VisiblePosts | minzufs/identify/viewsets.py:34-43 | an anonymous user sees the posts without a user; a logged-in user sees exactly their own |
| IdentifyViewsets.PerformCreate | minzufs/identify/viewsets.py:45-63 | the post is saved, its pending upload committed as `upload_images/<name>`, then gets the requester, the relative path and the recognised nations and time, and is saved again |
| IdentifyViewsets.LastValue | minzufs/identify/viewsets.py:79-92 | `query_params[key]` is absent exactly when no pair has that key, and otherwise the last pair's value |
| IdentifyViewsets.LastValueBefore | minzufs/identify/viewsets.py:79-92 | among the first n pairs, no value exactly when none has the key, and otherwise the value of the last one that has it |
| IdentifyViewsets.ChangeNation | minzufs/identify/viewsets.py:66-85 | without `name` a ValidationError and no change; otherwise `modified_nation` is set and saved, and no other field changes except that a pending upload is committed |
| IdentifyViewsets.UserAssess | minzufs/identify/viewsets.py:88-98 | without `assess` a ValidationError and no change; otherwise `user_assess` is set and saved, and no other field changes except that a pending upload is committed |
| IdentifyViewsets.SameIdSameRow | minzufs/identify/viewsets.py:127 | in a table with distinct ids, one id names one row |
| IdentifyViewsets.FilterRows | minzufs/identify/viewsets.py:127 | filtering keeps saved rows with distinct ids |
| IdentifyViewsets.TailBelowHead | minzufs/identify/viewsets.py:127 | the tail of a strictly descending list is strictly descending and the head has the largest id |
| IdentifyViewsets.ConsDesc | minzufs/identify/viewsets.py:127 | a row with an id above every id of a descending list can go in front of it |
| IdentifyViewsets.InsertBehind | minzufs/identify/viewsets.py:127 | inserting behind a larger head keeps the list strictly descending and holds the head, the new row and the old tail |
| IdentifyViewsets.InsertDesc | minzufs/identify/viewsets.py:127 | inserting into a strictly descending list keeps it strictly descending and adds exactly one row |
| IdentifyViewsets.SortDesc | minzufs/identify/viewsets.py:127 | `order_by('-id')` keeps the same rows and orders them by strictly decreasing id |
| IdentifyViewsets.MergedQueryset | minzufs/identify/viewsets.py:126-127 | an anonymous request fails; otherwise exactly the user's rows, newest first |
| IdentifyViewsets.MergeAction | minzufs/identify/viewsets.py:132-136 | `merge` succeeds exactly when the inputs exist and composition succeeds, and then redirects to the row's detail route |
| IdentifyViewsets.NewestPerBackground | minzufs/identify/viewsets.py:141-143 | `setdefault` over a newest-first list keeps, per background, the first eligible row, which is the eligible row with the largest id |
| IdentifyViewsets.ResultRowsKept | minzufs/identify/viewsets.py:141-151 | every row of the answer is the row kept for its own background |
| IdentifyViewsets.ResultBackgroundsDistinct | minzufs/identify/viewsets.py:141-151 | no background appears twice in the answer |
| IdentifyViewsets.ResultRowsNewest | minzufs/identify/viewsets.py:138-151 | no finished row of the user on the same background has a larger id than the row answered |
| IdentifyViewsets.ResultCoversBackgrounds | minzufs/identify/viewsets.py:138-151 | every background the user has a finished row on appears in the answer |
| IdentifyViewsets.TravelledFacts | minzufs/identify/viewsets.py:138-151 | the rows kept are the user's own, have a result file, have distinct backgrounds, are the newest for their background, and cover every background used |
| IdentifyViewsets.Travelled | minzufs/identify/viewsets.py:138-151 | `travelled`: one row per background, the newest of the user's rows with an existing result file, listed newest first |
| RestClient.CountOf | frontend_vue/src/utils/djangoRestAdminClient.ts:155 | `listPlaceholderCount \|\| 3` |
| RestClient.PlaceholderOf | frontend_vue/src/utils/djangoRestAdminClient.ts:132-134 | the placeholder is the given value when truthy, else an empty object |
| RestClient.Spread | frontend_vue/src/utils/djangoRestAdminClient.ts:168-173 | a key present in the options, even as `undefined`, overrides the computed value |
| RestClient.ListPlaceholder | frontend_vue/src/utils/djangoRestAdminClient.ts:156-159 | a page object with count n, null links and n copies of the placeholder |
| RestClient.MapParse | frontend_vue/src/utils/djangoRestAdminClient.ts:161-164 | parsing every result resolves exactly when each item resolves, in order; otherwise the first rejection |
| RestClient.ListParse | frontend_vue/src/utils/djangoRestAdminClient.ts:160-164 | a value without a `results` array is a TypeError; otherwise `results` is replaced by the parsed items and the other keys are kept |
| RestClient.ParseOption | frontend_vue/src/utils/djangoRestAdminClient.ts:131-174 | a count outside the array length range is a RangeError; otherwise a failing parse of the placeholder rejects with that parse's error, then a failing parse of the list placeholder with its error; the options resolve exactly when both parse; the parsed placeholders and defaults |
| RestClient.ParsedCallbacks | frontend_vue/src/utils/djangoRestAdminClient.ts:136-154 | the default `then` returns the data, the default `error` resolves to the placeholder, the default `parse` is the local parse |
| RestClient.GlobalsFor | frontend_vue/src/utils/djangoRestAdminClient.ts:107-118 | an action not listed as manual uses the global options unchanged |
| RestClient.CombinedOptions | frontend_vue/src/utils/djangoRestAdminClient.ts:105-122 | every key the per-call options have wins, the `then`, `error` and `parse` callbacks included, even as `undefined`; an absent key falls back to the global one, replaced by a thrower for a manual action; the axios configs merge with per-call keys winning |
| RestClient.ManualActionNeedsParse | frontend_vue/src/utils/djangoRestAdminClient.ts:107-118 | a manual action without a per-call `parse` rejects with `The action "<name>" has no "parse" callback.` |
| RestClient.ManualActionCallbacks | frontend_vue/src/utils/djangoRestAdminClient.ts:107-122 | a manual action uses the per-call callbacks, or the defaults, never the global ones |
| RestClient.GlobalCallbacksApply | frontend_vue/src/utils/djangoRestAdminClient.ts:105-154 | for an ordinary action a per-call callback is called as given, an `undefined` one (per call, or global when the call has none) raises a TypeError, and a missing per-call callback falls back to the global one |
| RestClient.CombinedConfig | frontend_vue/src/utils/djangoRestAdminClient.ts:119-120 | the combined axios config has the keys of both and the per-call value wins |
| RestClient.ItemUrl | frontend_vue/src/utils/djangoRestAdminClient.ts:187 | the item URL is the endpoint text, then the key's text, then a slash |
| RestClient.ItemUrlsDistinct | frontend_vue/src/utils/djangoRestAdminClient.ts:187 | keys with different texts give different item URLs on one endpoint |
| RestClient.NumericItemUrlsDistinct | frontend_vue/src/utils/djangoRestAdminClient.ts:187 | different numeric primary keys give different item URLs on one endpoint |
| RestClient.ActionUrl | frontend_vue/src/utils/djangoRestAdminClient.ts:205 | `<endpoint><pk>/<action>/`, with the text "undefined" when no key is given |
| RestClient.Recover | frontend_vue/src/utils/djangoRestAdminClient.ts:177-219 | a resolved value goes to `parse`; a rejection goes to `error`, whose resolved value goes to `parse` |
| RestClient.Pipeline | frontend_vue/src/utils/djangoRestAdminClient.ts:177-219 | a response goes through `then`, then `parse`, with `error` catching any rejection on the way |
| RestClient.DefaultPipeline | frontend_vue/src/utils/djangoRestAdminClient.ts:136-154 | with default callbacks a success yields the response data and a failure yields the placeholder |
| RestClient.Retrieve | frontend_vue/src/utils/djangoRestAdminClient.ts:184-188 | a GET of the item URL with the combined config, through the pipeline, or the combination's rejection |
| RestClient.Put | frontend_vue/src/utils/djangoRestAdminClient.ts:190-194 | a PUT of the data to the item URL, sending only the per-call axios config |
| RestClient.Patch | frontend_vue/src/utils/djangoRestAdminClient.ts:196-200 | a PATCH of the data to the item URL with the combined config |
| RestClient.Post | frontend_vue/src/utils/djangoRestAdminClient.ts:210-214 | a POST of the data to the endpoint with the combined config |
| RestClient.ActionConfig | frontend_vue/src/utils/djangoRestAdminClient.ts:202-208 | the request config defaults to GET on the action URL; keys given in the config win |
| RestClient.Action | frontend_vue/src/utils/djangoRestAdminClient.ts:202-208 | a raw axios request with the action config, through the pipeline |
| RestClient.Delete | frontend_vue/src/utils/djangoRestAdminClient.ts:216-219 | a DELETE of the item URL that resolves to `true` on success and `false` on any failure, with no callback involved |
| RestClient.List | frontend_vue/src/utils/djangoRestAdminClient.ts:177-182 | a GET of the endpoint whose results are parsed item by item; a failure resolves to the parsed list placeholder |
| RestClient.DefaultItemUrl | frontend_vue/src/utils/djangoRestAdminClient.ts:168-186 | with no options the endpoint is "/" and the item URL is `/<pk>/` |
| RestClient.DefaultListFallback | frontend_vue/src/utils/djangoRestAdminClient.ts:155-182 | with no options a failed list resolves to three empty placeholders |
| MergedImages.Or | frontend_vue/src/utils/clients.ts:84-96 | `src.k \|\| fallback` keeps a truthy value and falls back otherwise |
| MergedImages.ParseDetail | frontend_vue/src/utils/clients.ts:70-81 | a detail has exactly the eight keys; id defaults to -1 and the others to the empty string |
| MergedImages.Defaulted | frontend_vue/src/utils/clients.ts:85-95 | numbers default to -1, the user to "Anonymous", details are parsed, strings default to "" |
| MergedImages.Literal | frontend_vue/src/utils/clients.ts:84-96 | the object literal of `parse` has exactly the eleven declared keys, each with its defaulted value |
| MergedImages.Parse | frontend_vue/src/utils/clients.ts:82-99 | the keys of the source plus the literal's and `background_image_url`; other keys copied as they are; literal keys defaulted |
| MergedImages.ParseBackgroundUrl | frontend_vue/src/utils/clients.ts:88-97 | the background URL is `<api>/media/background-image/<background_name>.png` |
| MergedImages.OrStable | frontend_vue/src/utils/clients.ts:84-96 | defaulting a key that already holds its default changes nothing |
| MergedImages.ParseDetailIdempotent | frontend_vue/src/utils/clients.ts:70-81 | parsing a parsed detail gives the same detail |
| MergedImages.DefaultedStable | frontend_vue/src/utils/clients.ts:84-96 | defaulting a parsed key again gives its parsed value |
| MergedImages.ParseKeyStable | frontend_vue/src/utils/clients.ts:82-99 | each key of a parsed record survives a second parse unchanged |
| MergedImages.ParseIdempotent | frontend_vue/src/utils/clients.ts:82-99 | `parse(parse(x)) == parse(x)` |
| MergedImages.SameKeys | frontend_vue/src/utils/clients.ts:82-99 | two maps with the same keys and values are equal |
| MergedImages.EmptyDetail | frontend_vue/src/utils/clients.ts:67-81 | parsing an empty detail gives id -1 and empty strings |
| MergedImages.PlaceholderParsed | frontend_vue/src/utils/clients.ts:57-99 | the parsed placeholder has id -1, user "Anonymous" and background bg1 |
| MergedImages.PlaceholderFields | frontend_vue/src/utils/clients.ts:57-96 | the placeholder's id -1, user "Anonymous" and background bg1 survive the `\|\|` defaults |
| MergedImages.PlaceholderBackground | frontend_vue/src/utils/clients.ts:61-97 | the parsed placeholder points at `<api>/media/background-image/bg1.png` |
| MergedImages.BackgroundOfBg1 | frontend_vue/src/utils/clients.ts:97 | the URL of bg1 |
| MergedImages.PlaceholderDetailFields | frontend_vue/src/utils/clients.ts:67-95 | the placeholder's empty details fall back to the empty object |
| MergedImages.PlaceholderDetails | frontend_vue/src/utils/clients.ts:67-95 | the parsed placeholder's details are the default detail |
| MergedImages.ParseValue | frontend_vue/src/utils/clients.ts:82-99 | `parse` as a callback: reading a field of null throws a TypeError; an object parses |
| MergedImages.ParsingListPlaceholder | frontend_vue/src/utils/djangoRestAdminClient.ts:161-166 | with an object placeholder the list placeholder parses to n parsed placeholders |
| MergedImages.ParsingOptionsPlaceholder | frontend_vue/src/utils/djangoRestAdminClient.ts:165 | client options with an object placeholder resolve, and the parsed placeholder is `parse` of it |
| MergedImages.ClientParsedPlaceholder | frontend_vue/src/utils/clients.ts:102-108 | the merged-image client resolves, and its parsed placeholder is `parse(placeholder)` |
| Authenticator.IndexFrom | frontend_vue/src/utils/djangoRestAdminAuthenticator.ts:35 | the first index of a character from a start position, or the length |
| Authenticator.IndexFromStopsAt | frontend_vue/src/utils/djangoRestAdminAuthenticator.ts:35 | the search stops at the first occurrence of the character at or after the start |
| Authenticator.SecondSegment | frontend_vue/src/utils/djangoRestAdminAuthenticator.ts:35 | `split('.')[1]` is the dot-free text after the first dot, and is absent exactly when there is no dot |
| Authenticator.SecondSegmentOfJwt | frontend_vue/src/utils/djangoRestAdminAuthenticator.ts:35 | the payload of `header.payload.signature` is `payload` |
| Authenticator.Payload | frontend_vue/src/utils/djangoRestAdminAuthenticator.ts:35 | `atob` receives the second segment, or "undefined" |
| Authenticator.MakeToken | frontend_vue/src/utils/djangoRestAdminAuthenticator.ts:33-43 | a token exists exactly when both decoders succeed; times are seconds times 1000 |
| Authenticator.LoggedInAnswer | frontend_vue/src/utils/djangoRestAdminAuthenticator.ts:47-112 | no token or one expired at the first read answers false; one that expires between the two getter reads throws a TypeError (its expiry lies between the readings); otherwise whether it is live at the last reading |
| Authenticator.SteadyClockLoggedIn | frontend_vue/src/utils/djangoRestAdminAuthenticator.ts:110-112 | on a clock that reads one time throughout, `isLoggedIn` never throws and answers whether a live token is held |
| Authenticator.ForwardClockLoggedIn | frontend_vue/src/utils/djangoRestAdminAuthenticator.ts:110-112 | on a clock that does not go back, a TypeError needs the expiry between the two getter reads, and `true` means the token is live at the last reading |
| Authenticator.DjangoRestAdminAuthenticator.Init | frontend_vue/src/utils/djangoRestAdminAuthenticator.ts:68-77 | the fields before the cached token is read, monitor 1 |
| Authenticator.DjangoRestAdminAuthenticator.SetToken | frontend_vue/src/utils/djangoRestAdminAuthenticator.ts:82-87 | the value is stored; a decodable value becomes the token and bumps the monitor; otherwise the token and monitor stay |
| Authenticator.DjangoRestAdminAuthenticator.DelToken | frontend_vue/src/utils/djangoRestAdminAuthenticator.ts:89-94 | the stored key is removed, the token cleared and the monitor bumped |
| Authenticator.DjangoRestAdminAuthenticator.GetToken | frontend_vue/src/utils/djangoRestAdminAuthenticator.ts:104-108 | a live token is returned as is; an expired one is deleted and nothing returned |
| Authenticator.DjangoRestAdminAuthenticator.IsLoggedIn | frontend_vue/src/utils/djangoRestAdminAuthenticator.ts:104-112 | the answer is `LoggedInAnswer` of the token held, for the clock readings of the two getter reads and the last `isExpired`; a getter read that finds the token expired deletes it, otherwise nothing changes |
| Authenticator.DjangoRestAdminAuthenticator.Login | frontend_vue/src/utils/djangoRestAdminAuthenticator.ts:82-101 | a failed request deletes the token, bumps the monitor once and answers false; a reply that does not decode is stored but rejects, with token and monitor unchanged; otherwise the new token is stored, the monitor moves once, or twice when a getter read then finds it expired, and the answer is `isLoggedIn` of it, which rejects when the token expires between the getter reads |
| Authenticator.DjangoRestAdminAuthenticator.Logout | frontend_vue/src/utils/djangoRestAdminAuthenticator.ts:102 | the token is deleted and the answer is true |
| Authenticator.DjangoRestAdminAuthenticator.VueMonitor | frontend_vue/src/utils/djangoRestAdminAuthenticator.ts:114 | always true |
| Authenticator.NewAuthenticator | frontend_vue/src/utils/djangoRestAdminAuthenticator.ts:68-77 | no cached value means no token; a cached value that does not decode makes construction throw; one that decodes becomes the token |

## Left out

- Asynchrony and Vue reactivity are not modelled: `refList`, `refRetrieve`, `refAction`, re-creating `_client` and `watchEffect`. Each request is one promise outcome computed from a transport function.
- The `auth` option and the Authorization header it yields are not modelled. The merged-image client passes `auth`, but the header only changes what the transport receives.
- Console logging in the client and `print` in `blend_images` produce no state and are left out.
- `RestClient.CombinedOptions` models `_combineOptions` as a functional update. The source overwrites the callback fields on its own copy of the options, and that copy is never shared.
- `RestClient.CountOf`: `NaN`, floats and non-numeric values of `listPlaceholderCount` are not modelled; the count is an integer.
- `MergedImages.ParseValue`: for a string or array source, `Object.assign` also copies index keys; the model copies the fields of objects only.
- The axios internals are not modelled; `Transport` stands for them and for the network.
- `JSON.parse`, `atob` and `fromUnixTime` are the decoder parameters `parseObtain` and `decodeClaims`; each clock reading is a parameter (`now`, or `now1`, `now2` and `now3` in `IsLoggedIn` and `Login`); `localStorage` is the map `store`.
- Authenticator.DjangoRestAdminAuthenticator.Init: the endpoint and `obtain/` URLs of the constructor (djangoRestAdminAuthenticator.ts:69-70) are not modelled. `new URL` throws on a malformed endpoint, and `Login` takes the reply of the post to the obtain URL as its `reply` parameter, so the address it posts to is not modelled either.
- The `created` and `modified` timestamps of `ImagesPost` (models.py:36-37) and the `-created` ordering of its querysets are not modelled. `modified` is set on every save, so the "no other field changes" of `IdentifyViewsets.ChangeNation` and `IdentifyViewsets.UserAssess` covers the modelled fields only.
- IdentifyModels.ImagesPostRecord.Save: the stored name is `upload_images/<name>` as given. Django's storage also cleans the name (`get_valid_name`) and adds a random suffix when the name is already taken; neither is modelled.
- IdentifyModels.MergedImageRecord.SaveResultImage: the stored name is the upload path itself. Django's storage gives a file whose name is already taken, such as the result of a second merge of one job, a new name with a random suffix; that renaming is not modelled.
- The Django ORM is a sequence of rows; `get_object`, permissions, pagination and the serializers are left out.
- `BatchRename` and its neural-network recognition are a `Recognition` value given to `PerformCreate`; `os.path.relpath` is a parameter.
- `IdentifyViewsets.MergedQueryset`: filtering by an anonymous user is a query error in Django; the model returns `Err(QueryError)` and does not model the exception type.
- Face swapping (`change_face_and_extract`, the Face++ and segmentation calls), image reading, writing and resizing, and the temporary directory are outside the model. `MergeGeometry.Blend` takes the resized foreground and the alpha blend as functions.
- MergeGeometry.Blend: each pixel of the region is blended with the old pixel at the same place. The source blends with the region after it is written as `roi.jpg` and read back (lines 72-73); JPEG compression is lossy and mixes neighbouring pixels, and that codec is not modelled.
- Floating point: ratios are whole tenths, and `int(ratio*h)` is `k*h/10` rounded down. `round(x, 1)` is modelled as rounding half up, which differs from Python's round-half-even on exact halves.
- `merge_fn_path` writes the blend through matplotlib with `bbox_inches='tight'` and `pad_inches=-0.1`; this resampling of the output is not modelled, and the second pass blends onto the first pass's pixels.
- The serializer definitions and every file not named above are not part of this model.

## Findings

| source | as written | input that shows it | evidently intended | confidence | as-written member | corrected member |
|---|---|---|---|---|---|---|
| minzufs/identify/lib/mergeimages.py:59-61 | a ratio above hb/hf becomes `round(hb/hf, 1)`, which can round up past hb/hf | background 100 rows × 400 columns, foreground 220 × 100, ratio 0.5 at (50, 230), bottom-aligned: round(100/220, 1) = 0.5, so `int(0.5*220)` = 110 > 100, the row is -10 and the write-back at line 81 gets an empty slice, a shape mismatch | the "maximum ratio" the message names: the largest tenth at or below hb/hf, so the scaled foreground fits in the background | not executed | MergeGeometry.AsWrittenFirstPassFails | MergeGeometry.CorrectedFirstPassSucceeds |
