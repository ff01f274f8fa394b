# revid-clone in Dafny

A model of the revid-clone pipeline and proofs about it. revid-clone is an offline stand-in for a video-production service. It runs in four stages:

1. A text brief becomes a scene-by-scene script (`ScriptGenerator`).
2. The script becomes a storyboard (`StoryboardDesigner`).
3. The project is rendered to a JSON "preview" (`ProjectService.render_preview`).
4. Every project is stored as a JSON file in one home directory (`ProjectStorage`).

The modules follow the Python package:

- `Models` (models.dfy): the `Scene` and `Project` records, their defaults, `to_dict`, and `Project.from_dict`. A dict is a `map<string, Value>` over a small JSON value type.
- `AiEngines` (ai_engines.dfy): the script generator and the storyboard designer. `generate` and `design` are loop methods proved against the functions `Script` and `Storyboard`. The sentence splitting, titles, moods and thumbnails are pure functions with lemmas about them.
- `Storage` (storage.dfy): `ProjectStorage` over a `FileSystem` class. That class holds the directory tree as a map from paths to the JSON document each file contains. `list_projects` is a loop over the sorted "*.json" names of the home directory, proved against the function `ListFrom`.
- `Service` (service.dfy): the pure helpers `_summarize_scenes` and `_build_preview_payload`, plus the lifecycle.
  - The lifecycle is written as functions on projects (`WithScript`, `WithStoryboard`, `Rendered`) with invariants proved over any sequence of steps.
  - The `ProjectService` class ties each method to those functions and to the exact files it leaves behind.
- `Strings`, `Collections`, `Wrappers`: Python's `str.strip`, `str.split`, `str.split()`, `lower`, `capitalize`, `in`, `replace`, `join` and `sorted` on strings, plus sequence helpers and `Option`/`Result`.

External inputs are parameters:

- `textwrap.wrap` is the function parameter `wrap`. `textwrap.fill` is `"\n".join(wrap(text, width))`.
- `uuid4().hex` is the parameter `hex`.
- The clock used by the `created_at` default is the parameter `now`.

Some consequences of the code, proved here:

- The `else brief` branch of `generate` can never run, because `_normalize_sentences` always returns at least one sentence.
- Calling `design_storyboard` a second time is not idempotent. The designer appends a second shot suggestion to every thumbnail (`AiEngines.DesignTwice`, `Service.StoryboardTwice`).
- The default preview file `<id>_preview.json` lies in the storage home and matches "*.json". So does the `preview.json` destination that `test_full_generation_pipeline` in tests/test_revid_clone.py passes to `render_preview`. Once such a preview exists, `list_projects` stops with an error, because `from_dict` rejects the preview document (`Service.PreviewBreaksListing`).
- The default preview of project `x` is the project file of the id `x_preview` (`Service.DefaultPreviewOfOther`).
- A scene without a thumbnail, or with a blank one, is designed to a thumbnail that starts with the bar of the separator " | Shot suggestion: " rather than its space, because `strip` also removes the separator's leading space (`AiEngines.Designs`).
- `generate_script` on a project whose storyboard is ready replaces the designed scenes but leaves `storyboard_ready` set (`Service.ScriptAfterStoryboard`).

Storage is modelled as a map from file paths to JSON documents, not as a map from project ids to projects. That is the only form in which "*.json" globbing, preview files written into the same directory, and undecodable files can be stated.

## Model

| member | source | states |
|---|---|---|
| Models.NewScene | src/revid_clone/models.py:12-18 | a new scene keeps its index, title and summary, has aspect ratio "16:9" and no voiceover, mood or thumbnail |
| Models.NewProject | src/revid_clone/models.py:36-46 | a new project keeps its six required fields and creation time, with no summary, no scenes and both flags false |
| Models.SceneToDict | src/revid_clone/models.py:20-29 | `Scene.to_dict` has exactly the seven field keys |
| Models.ProjectToDict | src/revid_clone/models.py:48-61 | `Project.to_dict` has exactly the eleven field keys |
| Models.SceneFromDict | src/revid_clone/models.py:65 | `Scene(**d)` succeeds only when every key is a field and every field without a default is present |
| Models.SceneListFromValues | src/revid_clone/models.py:65 | building the scene list, when it succeeds, gives one scene per entry |
| Models.ScenesFromPayload | src/revid_clone/models.py:65 | a payload without "scenes" gives no scenes |
| Models.ProjectFromDict | src/revid_clone/models.py:63-67 | `from_dict` succeeds only with known keys and all required keys; an absent "scenes" gives no scenes and an absent "created_at" gives the current time |
| Models.SceneRoundTrip | src/revid_clone/models.py:20-29 | building a scene from its own `to_dict` gives the scene back |
| Models.SceneListRoundTrip | src/revid_clone/models.py:58-65 | building scenes from their dicts gives the same scenes in the same order |
| Models.ProjectRoundTrip | src/revid_clone/models.py:48-67 | `from_dict(to_dict(p)) == p` for every project, whatever the clock says |
| Models.ProjectFieldsRoundTrip | src/revid_clone/models.py:48-67 | `to_dict(p)` holds only known keys, every required key, and each field's value as its reader expects it |
| Models.UnknownKeyRejected | src/revid_clone/models.py:63-67 | a payload with a key that is not a project field is rejected |
| Models.MissingKeyRejected | src/revid_clone/models.py:63-67 | a payload missing a required field is rejected |
| AiEngines.Segments | src/revid_clone/ai_engines.py:75 | splitting at '.' gives at least one segment, and no segment holds a '.' |
| AiEngines.SegmentsJoin | src/revid_clone/ai_engines.py:75 | the segments joined by '.' are the text with its newlines turned into spaces |
| AiEngines.KeptSentences | src/revid_clone/ai_engines.py:75 | the comprehension keeps at most one stripped sentence per segment |
| AiEngines.KeptAreSentences | src/revid_clone/ai_engines.py:75 | every kept segment is non-empty, stripped and free of '.' |
| AiEngines.KeptNoneIff | src/revid_clone/ai_engines.py:75-76 | nothing is kept exactly when every segment is blank |
| AiEngines.KeptAll | src/revid_clone/ai_engines.py:75 | when no segment is blank, every segment is kept, stripped, in order |
| AiEngines.FirstSentences | src/revid_clone/ai_engines.py:76-78 | the fallback or the first ten kept sentences: one to ten sentences |
| AiEngines.NormalizeSentences | src/revid_clone/ai_engines.py:74-78 | `_normalize_sentences` returns one to ten sentences, all non-empty, stripped and free of '.' |
| AiEngines.FallbackIsSentence | src/revid_clone/ai_engines.py:77 | the fallback sentence is itself a sentence |
| AiEngines.NormalizeBlank | src/revid_clone/ai_engines.py:74-77 | a brief of whitespace and periods only yields exactly the fallback sentence |
| AiEngines.NormalizeJoined | src/revid_clone/ai_engines.py:74-78 | sentences joined by ". " come back as they were, cut to the first ten |
| AiEngines.KeptJoined | src/revid_clone/ai_engines.py:75 | every segment of sentences joined by ". " is kept, as its sentence |
| AiEngines.SegmentsOfJoined | src/revid_clone/ai_engines.py:75 | sentences joined by ". " split into one non-blank segment per sentence, which strips to that sentence |
| AiEngines.SegmentStrips | src/revid_clone/ai_engines.py:75 | a sentence, with or without the leading space that ". " leaves, strips to itself |
| AiEngines.SplitJoined | src/revid_clone/ai_engines.py:75 | the segments of a prefix and sentences joined by ". ": one per sentence, the first carrying the prefix, the others a leading space |
| AiEngines.CeilHalf | src/revid_clone/ai_engines.py:19 | the least integer at or above half of `x`, which is `ceil(1.5 d)` for `x = 3d` |
| AiEngines.SceneCount | src/revid_clone/ai_engines.py:19 | the scene count always lies between 3 and 6 |
| AiEngines.SceneCountByDuration | src/revid_clone/ai_engines.py:19 | up to two minutes give 3 scenes, three minutes give 5, four or more give 6 |
| AiEngines.SceneTitle | src/revid_clone/ai_engines.py:93-95 | `_scene_title`; `AiEngines.SceneTitleParts` fixes the title completely: prefix, the digits of `index + 1` without leading zeros, ": ", and the capitalized first three arc words joined by single spaces |
| AiEngines.SceneTitleParts | src/revid_clone/ai_engines.py:93-95 | a title is "Scene ", the decimal digits of `index + 1` with no leading zero, ": ", and the arc's first three words capitalized and joined by single spaces |
| AiEngines.MoodFromArc | src/revid_clone/ai_engines.py:103-112 | the mood is one of the five moods |
| AiEngines.ArcMoods | src/revid_clone/ai_engines.py:82-112 | the six arcs get energetic, confident, informative, informative, encouraging and uplifting, in order |
| AiEngines.Keywords | src/revid_clone/ai_engines.py:116 | the first six words joined by spaces; `AiEngines.KeywordsAreFirstWords` states that they split back into those words |
| AiEngines.KeywordsAreFirstWords | src/revid_clone/ai_engines.py:116 | the keywords split back into the sentence's first six words |
| AiEngines.ThumbnailFromArc | src/revid_clone/ai_engines.py:115-117 | `_thumbnail_from_arc`; its words are stated by `AiEngines.ThumbnailWords` |
| AiEngines.ThumbnailWords | src/revid_clone/ai_engines.py:115-117 | a thumbnail's words are the lower-cased arc's words, "featuring", and the sentence's first six words |
| AiEngines.Fill | src/revid_clone/ai_engines.py:26 | `textwrap.fill` as the lines of the `wrap` parameter joined by newlines; nothing more is claimed, because line breaking is a parameter |
| AiEngines.VoiceoverFromSummary | src/revid_clone/ai_engines.py:98-100 | the summary's lines at width 80 joined by spaces; nothing more is claimed, for the same reason |
| AiEngines.ComposeScene | src/revid_clone/ai_engines.py:26-35 | the scene built from an index, an arc and a sentence: title, wrapped summary, voiceover, mood and thumbnail from the helpers above, and the default framing |
| AiEngines.ArcAt | src/revid_clone/ai_engines.py:24 | the arc drawn on turn `i` is arc `i mod 6` |
| AiEngines.SentenceAt | src/revid_clone/ai_engines.py:25 | scene `i` uses one of the sentences, or the brief when there are none |
| AiEngines.NextInCycle | src/revid_clone/ai_engines.py:24 | one `next` on the cycle moves its position from `i mod 6` to `i + 1 mod 6` |
| AiEngines.Generate | src/revid_clone/ai_engines.py:17-37 | the loop, with its stateful arc cycle, builds exactly the script `Script(wrap, brief, d)` |
| AiEngines.Script | src/revid_clone/ai_engines.py:17-37 | what `generate` returns; its length and scenes are stated by `AiEngines.ScriptScene` and `AiEngines.ScenePlanAt` |
| AiEngines.ScriptScene | src/revid_clone/ai_engines.py:17-37 | a script has `SceneCount(d)` scenes, and scene `i` is the plan for position `i` |
| AiEngines.ScenePlanAt | src/revid_clone/ai_engines.py:20-36 | scene `i` has index `i`, uses arc `i` itself and sentence `i` modulo the number of sentences |
| AiEngines.ShotSuggestion | src/revid_clone/ai_engines.py:62-71 | the suggestion is one of the five options |
| AiEngines.AspectRatioFor | src/revid_clone/ai_engines.py:46 | "16:9" exactly for an even index, otherwise "9:16" |
| AiEngines.DesignScene | src/revid_clone/ai_engines.py:46-58 | one designed scene; what it is, is stated by `AiEngines.DesignSceneDesigns` |
| AiEngines.Storyboard | src/revid_clone/ai_engines.py:43-60 | what `design` returns has one scene per input scene |
| AiEngines.Design | src/revid_clone/ai_engines.py:43-60 | the loop builds exactly `Storyboard(scenes)`, one designed scene per input scene, in order |
| AiEngines.ShotSuggestionStripped | src/revid_clone/ai_engines.py:62-71 | every shot suggestion is non-empty and stripped |
| AiEngines.DesignSceneDesigns | src/revid_clone/ai_engines.py:46-58 | a designed scene copies index, title, summary, voiceover and mood; it is "16:9" exactly when the index is even, else "9:16"; its thumbnail is stripped and, with `t` the old thumbnail or "", is `t` without leading whitespace, then the separator `ShotPrefix` (a space, a bar, " Shot suggestion: ") and the index's suggestion when `t` is not blank, and the separator without its leading space and the suggestion when it is |
| AiEngines.DesignedAfterText | src/revid_clone/ai_engines.py:47-57 | after an old thumbnail with visible text, `strip` removes only that text's leading whitespace |
| AiEngines.DesignedAfterBlank | src/revid_clone/ai_engines.py:47-57 | after a missing or blank old thumbnail, `strip` also removes the separator's leading space |
| AiEngines.StoryboardDesigns | src/revid_clone/ai_engines.py:43-60 | `design` keeps the number and order of scenes and designs each one as above, thumbnail value included |
| AiEngines.DesignTwice | src/revid_clone/ai_engines.py:47-57 | designing twice keeps the framing, appends a second suggestion, and so changes the scene |
| Storage.FileSystem.Write | src/revid_clone/storage.py:27 | writing a file replaces that one file and leaves every other file as it was |
| Storage.FileName | src/revid_clone/storage.py:23 | the file name starts with the id and ends with ".json", and holds no '/' when the id holds none |
| Storage.FileNameInjective | src/revid_clone/storage.py:22-23 | different ids without a '/' never share a file |
| Storage.DecodeProject | src/revid_clone/storage.py:31 | a document that is not an object is malformed; otherwise the result is what `from_dict` gives |
| Storage.LoadAt | src/revid_clone/storage.py:29-31 | loading fails with "not found" exactly when the file is absent |
| Storage.JsonNames | src/revid_clone/storage.py:34 | the names `glob("*.json")` matches: exactly the files directly in the home whose names end with ".json" |
| Storage.LeastExists | src/revid_clone/storage.py:34 | every non-empty set of names has a least one in code-point order |
| Storage.SortedNames | src/revid_clone/storage.py:34 | `sorted` on a set of names; its order and contents are stated by `Storage.SortedNamesSorted` |
| Storage.SortedNamesSorted | src/revid_clone/storage.py:34 | `sorted` lists every name of the set exactly once, strictly ascending |
| Storage.ListFrom | src/revid_clone/storage.py:33-35 | the listing yields at most one project per name |
| Storage.ListFromAll | src/revid_clone/storage.py:33-35 | the listing stops early exactly when some file fails to load; otherwise it yields one project per file, each the one that file holds, in name order |
| Storage.Saved | src/revid_clone/storage.py:25-27 | after `save(p)` the project's file holds `to_dict(p)`, the other files are as they were, and no other file appears |
| Storage.LoadAfterSave | src/revid_clone/storage.py:25-31 | `load(p.project_id)` after `save(p)` returns `p` |
| Storage.SaveKeepsOthers | src/revid_clone/storage.py:25-27 | `save(p)` does not change what loading any other id returns, for ids without a '/' |
| Storage.SavedIsListed | src/revid_clone/storage.py:25-35 | the file of a saved project whose id has no '/' is among the files `list_projects` reads |
| Storage.EmptyListing | src/revid_clone/storage.py:33-35 | the listing is empty without error exactly when the home holds no "*.json" file |
| Storage.ProjectStorage.PathFor | src/revid_clone/storage.py:22-23 | the project's file lies directly in the home and is named by `FileName` |
| Storage.ProjectStorage.Save | src/revid_clone/storage.py:25-27 | the project's file now holds `to_dict(project)` and no other file changes |
| Storage.ProjectStorage.Load | src/revid_clone/storage.py:29-31 | `load` returns what the project's file decodes to, or "not found" |
| Storage.ProjectStorage.ListProjects | src/revid_clone/storage.py:33-35 | the generator loop yields exactly `ListFrom` over the sorted "*.json" names of the home |
| Strings.AfterFirst | src/revid_clone/project_service.py:87 | `s.split(":", 1)[-1]`: all of `s` without a ':', else exactly what follows the first ':' |
| Service.KeyPoint | src/revid_clone/project_service.py:87 | a key point is stripped, and is the stripped summary when the summary has no ':' |
| Service.SummarizeScenes | src/revid_clone/project_service.py:86-88 | the key points joined by the separator; how they read back is stated by `Service.SummaryRoundTrip` |
| Service.SplitPadded | src/revid_clone/project_service.py:88 | parts joined by the summary separator split at its bar into one segment per part, padded by the separator's spaces |
| Service.JoinedPartsRead | src/revid_clone/project_service.py:88 | stripped parts joined by the summary separator, split at its bar and stripped, give the parts again |
| Service.SummaryRoundTrip | src/revid_clone/project_service.py:86-88 | the summary, split at the separator's bar and stripped, gives back each scene's key point in scene order, one per scene |
| Service.SummaryNotEmpty | src/revid_clone/project_service.py:86-88 | the summary of two or more scenes is not empty |
| Service.JoinPath | src/revid_clone/project_service.py:93 | `base / part` for one component: an empty or "." part adds nothing, a base of "." gives the part alone, any other base is followed by "/" and the part |
| Service.JoinPathInjective | src/revid_clone/project_service.py:93 | distinct plain components joined to one base give distinct paths |
| Service.AssetsRoot | src/revid_clone/project_service.py:92-93 | `os.fspath(base / "assets" / project_id)` as two `JoinPath` steps; its shape is stated by `Service.AssetsRootShape` |
| Service.AssetsRootShape | src/revid_clone/project_service.py:92-93 | for a plain-component id the assets directory is "assets/" and the id under a home of ".", and otherwise starts with the home and "/assets/" and ends with "/" and the id; the ids "" and "." give the home's "assets" directory itself |
| Service.AssetsRootInjective | src/revid_clone/project_service.py:93 | two projects of one home whose ids are plain components never share an assets directory |
| Service.AssetsRootShared | src/revid_clone/project_service.py:93 | the ids "" and "." share one assets directory, the home's "assets" |
| Service.PreviewPayload | src/revid_clone/project_service.py:91-106 | the preview has exactly its seven keys |
| Service.PreviewReadsBack | src/revid_clone/project_service.py:94-100 | the preview holds the project's id, title, tone, audience, and summary or null, and one dict per scene that reads back as that scene |
| Service.PreviewMetadata | src/revid_clone/project_service.py:101-105 | the render metadata has exactly three keys: the project's duration, the producer tag "revid-clone", and the project's assets directory |
| Service.PreviewIsNotAProject | src/revid_clone/project_service.py:94-106 | `from_dict` rejects every preview document |
| Service.PreviewPath | src/revid_clone/project_service.py:77 | an explicit destination is used as given |
| Service.DefaultPreviewPath | src/revid_clone/project_service.py:77 | the default preview lies in the home, matches "*.json" and is not the project's own file |
| Service.DefaultPreviewOfOther | src/revid_clone/project_service.py:77 | the default preview of `x` is the project file of the id `x_preview` |
| Service.WithScript | src/revid_clone/project_service.py:58-63 | the project after `generate_script`; stated by `Service.ScriptStep` and `Service.ScriptKeeps` |
| Service.WithStoryboard | src/revid_clone/project_service.py:65-71 | the project after `design_storyboard`; stated by `Service.StoryboardStep` and `Service.StoryboardKeeps` |
| Service.ForPreview | src/revid_clone/project_service.py:73-76 | the project whose preview `render_preview` builds: a designed one; stated by `Service.RenderKeeps` |
| Service.Rendered | src/revid_clone/project_service.py:73-80 | the project `render_preview` saves; stated by `Service.RenderKeeps` and `Service.RenderedFiles` |
| Service.ScriptStep | src/revid_clone/project_service.py:58-63 | `generate_script` sets the generated script (3 to 6 scenes, indices 0 to n-1) and its non-empty summary, and changes nothing else |
| Service.ScriptIndices | src/revid_clone/ai_engines.py:23-29 | a script has `SceneCount(d)` scenes, and scene `i` has index `i` |
| Service.StoryboardStep | src/revid_clone/project_service.py:65-71 | `design_storyboard` sets the flag and designs the project's scenes, or a fresh script when there are none, each scene as `AiEngines.Designs` states, thumbnail value included; the summary is kept, or is the summary of that script when one was generated; the identity and `preview_ready` stay |
| Service.StoryboardFramings | tests/test_revid_clone.py:33-37 | a designed script uses both framings "16:9" and "9:16" and no other |
| Service.DesignedFramings | src/revid_clone/ai_engines.py:46 | designed scenes indexed from zero, two or more, use exactly the two framings |
| Service.TwoFramings | src/revid_clone/ai_engines.py:46 | scenes framed by position parity, two or more, use exactly the two framings |
| Service.StoryboardTwice | src/revid_clone/project_service.py:65-71 | a second `design_storyboard` changes the scenes again |
| Service.ScriptAfterStoryboard | src/revid_clone/project_service.py:58-71 | `generate_script` after `design_storyboard` replaces the scenes by a fresh script but keeps `storyboard_ready` |
| Service.ScriptKeeps | src/revid_clone/project_service.py:58-63 | `generate_script` keeps the identity and the flags, and keeps a consistent project consistent |
| Service.StoryboardKeeps | src/revid_clone/project_service.py:65-71 | `design_storyboard` keeps the identity and the flags, and its result is consistent |
| Service.RenderKeeps | src/revid_clone/project_service.py:73-81 | the rendered project has both flags set; an already designed project only gains the preview flag; consistency is kept |
| Service.RunConsistent | src/revid_clone/project_service.py:58-81 | over any sequence of the three steps the identity stays, no flag is cleared, and `preview_ready ⇒ storyboard_ready ⇒ scenes ≠ []` holds |
| Service.CreatedConsistent | src/revid_clone/project_service.py:30-81 | every project the steps derive from a new project is consistent and keeps its identity |
| Service.SaveOverSave | src/revid_clone/project_service.py:65-71 | a save that a later save of the same project follows leaves no trace |
| Service.SaveWriteSave | src/revid_clone/project_service.py:73-81 | the same holds with another file written between the two saves |
| Service.RenderedFiles | src/revid_clone/project_service.py:73-81 | after rendering, the project loads as the rendered project, and the preview file holds the preview unless it is the project's own file |
| Service.PreviewBreaksListing | src/revid_clone/storage.py:33-35 | a preview under a "*.json" name in the home makes `list_projects` stop with an error |
| Service.ProjectService.CreateProject | src/revid_clone/project_service.py:30-49 | the new project has id `hex[:12]`, twelve characters long when `hex` is a uuid, its given fields, the defaults and creation time `now`; it is saved and nothing else is written |
| Service.ProjectService.ListProjects | src/revid_clone/project_service.py:51-52 | the service's listing is the storage's listing |
| Service.ProjectService.LoadProject | src/revid_clone/project_service.py:54-55 | the service loads the project's file through the storage |
| Service.ProjectService.GenerateScript | src/revid_clone/project_service.py:58-63 | returns `WithScript(project)` and saves exactly it |
| Service.ProjectService.DesignStoryboard | src/revid_clone/project_service.py:65-71 | returns `WithStoryboard(project)`; the files end as if only that project had been saved |
| Service.ProjectService.RenderPreview | src/revid_clone/project_service.py:73-81 | returns the destination or the default path; the files end with the preview written there and then the rendered project saved |

## Left out

- `textwrap.wrap` and `textwrap.fill`: the line breaking is a parameter, so no property depends on where lines break, and the voiceover and summary text are not constrained further.
- `uuid.uuid4()` and `datetime.utcnow()` are parameters (`hex`, `now`), so ids are not shown to be unique.
- JSON text: indentation, key sorting and encoding are not modelled; a file holds the decoded document, so `json.loads(json.dumps(x)) == x` is taken as given. JSON numbers are integers only: a hand-edited file with a float such as `"duration_minutes": 2.5`, which Python would load, cannot be represented.
- Directory creation, the `REVID_HOME` lookup and `get_default_home` are left out; the home directory is a string given to the storage.
- Service.AssetsRoot, Service.AssetsRootShape, Service.AssetsRootInjective: `pathlib` joining is modelled for one component at a time (`Service.JoinPath`: "" and "." are dropped, a base of "." is dropped). The home is taken as `pathlib` already writes it, so a trailing separator, "//" or "./" inside the home are not normalised; the root home "/" is not modelled either, since the model gives "//assets/<id>" where `pathlib` gives "/assets/<id>". An id holding a '/' is not modelled. The injectivity lemma requires `PlainComponent` of both ids because the ids "" and "." share one directory (`Service.AssetsRootShared`). The default-home fallback of `_build_preview_payload` never applies, because a `Path` is always truthy.
- AiEngines.SceneCount: the float product `duration_minutes * 1.5` is integer arithmetic `ceil(3d / 2)`. The unclamped ceilings differ once `abs(d) > 2**53`, where the float product is rounded. The clamped count `max(3, min(6, math.ceil(d * 1.5)))` still equals `SceneCount(d)` for every `d` whose float conversion and product stay finite. Beyond that range (about 1.8e308 in magnitude) Python raises `OverflowError`, from the conversion of `d` or from `math.ceil` of an infinite product, where the model gives 6 or 3.
- The `max_sentences` argument of `ScriptGenerator` is unused by the code and left out; the cap is the literal 10.
- Case mapping (`lower`, `capitalize`) is ASCII only; the code applies it only to the fixed arcs.
- Models.ProjectFromDict, Models.SceneFromDict: Python dataclasses do not check field types, while the model rejects a value of the wrong JSON type with `InvalidValue` (for example a scene whose "index" is the string "3").
- `list_projects` is a lazy generator that raises on the first bad file; the model returns the projects yielded before it together with the error.
- `ScriptGenerator` and `StoryboardDesigner` injected into `ProjectService` are always the default ones.
- src/revid_clone/cli.py, src/revid_clone/__init__.py and scripts/clone_revid_ai.py are not part of this model: argument parsing, printing, re-exports and process management.
- Concurrent access to the storage directory is not modelled.
- Storage.ListFrom, Storage.ProjectStorage.ListProjects: one clock value `now` serves the whole listing, while each `from_dict` of the source reads `datetime.utcnow()` again for a file without "created_at".
- Reading and writing files never fails in the model: an `OSError` from `write_text` or `read_text` (src/revid_clone/storage.py:27, 31, src/revid_clone/project_service.py:78) is not modelled. So the model also does not show the state that a failed preview write leaves behind in `render_preview` (src/revid_clone/project_service.py:73-81): the storyboard saved by `design_storyboard`, no preview, and `preview_ready` still false.
- Storage.FileNameInjective, Storage.SaveKeepsOthers, Storage.SavedIsListed: ids holding a '/' are not modelled, and these lemmas require `PlainId`. `pathlib` would read the '/' as a directory step, so "./b" would alias "b" and "sub/x" would land in a subdirectory that `glob("*.json")` does not search. Ids from `uuid4().hex` never hold one.
- The arc titles are not listed one by one; `AiEngines.SceneTitleParts` describes every title.
