/**
 * `ProjectService`: the facade that creates projects, runs the script
 * generator and the storyboard designer over them, writes the preview
 * payload, and saves the project after every step.
 */
module Service {
  import opened Wrappers
  import opened Strings
  import opened Collections
  import opened Models
  import opened AiEngines
  import opened Storage

  const ProducerTag := "revid-clone"
  const SummarySeparator := " | "
  const PreviewSuffix := "_preview.json"

  // ---------------------------------------------------------------------------
  // The script summary

  /** A scene's key point: its summary after the first ':' (all of it when there is none), stripped. */
  function KeyPoint(s: Scene): (k: string)
    ensures Stripped(k)
    ensures ':' !in s.summary ==> k == Strip(s.summary)
  {
    Strip(AfterFirst(s.summary, ':'))
  }

  /** `_summarize_scenes(scenes)`: the key points, joined by " | ". */
  function SummarizeScenes(scenes: seq<Scene>): string {
    Join(Map(KeyPoint, scenes), SummarySeparator)
  }

  /**
   * Splitting `pre` followed by the " | "-joined parts at '|' gives one
   * segment per part: the part, with `pre` or a space before it and a space
   * after it unless it is the last.
   */
  lemma {:induction false} SplitPadded(pre: string, parts: seq<string>)
    requires parts != [] && '|' !in pre
    requires forall i :: 0 <= i < |parts| ==> '|' !in parts[i]
    ensures |Split(pre + Join(parts, SummarySeparator), '|')| == |parts|
    ensures forall i :: 0 <= i < |parts| ==>
      Split(pre + Join(parts, SummarySeparator), '|')[i] ==
        (if i == 0 then pre else " ") + parts[i] + (if i < |parts| - 1 then " " else "")
    decreases |parts|
  {
    var text := pre + Join(parts, SummarySeparator);
    if |parts| == 1 {
      assert text == pre + parts[0] + "";
      SplitWithoutSeparator(pre + parts[0] + "", '|');
    } else {
      var tail := Join(parts[1..], SummarySeparator);
      assert text == (pre + parts[0] + " ") + ['|'] + (" " + tail);
      SplitAtSeparator(pre + parts[0] + " ", " " + tail, '|');
      SplitPadded(" ", parts[1..]);
      assert forall i :: 1 <= i < |parts| ==> parts[1..][i - 1] == parts[i];
    }
  }

  /** Whitespace around a stripped text does not survive `strip()`. */
  lemma PaddedStrips(pre: string, point: string, post: string)
    requires Blank(pre) && Blank(post) && Stripped(point)
    ensures Strip(pre + point + post) == point
  {
    assert pre + point + post == pre + (point + post);
    StripLeadingSpace(pre, point + post);
    StripTrailingPad(point, post);
    StripFixedPoint(point);
  }

  /** The " | "-joined stripped parts, split at '|' and each stripped, are the parts again. */
  lemma JoinedPartsRead(parts: seq<string>)
    requires parts != []
    requires forall i :: 0 <= i < |parts| ==> '|' !in parts[i] && Stripped(parts[i])
    ensures |Split(Join(parts, SummarySeparator), '|')| == |parts|
    ensures forall i :: 0 <= i < |parts| ==> Strip(Split(Join(parts, SummarySeparator), '|')[i]) == parts[i]
  {
    assert [] + Join(parts, SummarySeparator) == Join(parts, SummarySeparator);
    SplitPadded([], parts);
    forall i | 0 <= i < |parts|
      ensures Strip(Split(Join(parts, SummarySeparator), '|')[i]) == parts[i]
    {
      SegmentReads(parts, i);
    }
  }

  /** Segment `i` of the joined parts strips to part `i`. */
  lemma SegmentReads(parts: seq<string>, i: nat)
    requires i < |parts| && Stripped(parts[i])
    ensures Strip((if i == 0 then [] else " ") + parts[i] + (if i < |parts| - 1 then " " else "")) == parts[i]
  {
    var pre: string := if i == 0 then [] else " ";
    var post: string := if i < |parts| - 1 then " " else "";
    assert Blank(pre) && Blank(post);
    PaddedStrips(pre, parts[i], post);
  }

  /**
   * The summary can be read back: split at '|' and stripped, it gives the
   * key points, one per scene and in order, as long as no key point holds a '|'.
   */
  lemma SummaryRoundTrip(scenes: seq<Scene>)
    requires scenes != []
    requires forall i :: 0 <= i < |scenes| ==> '|' !in KeyPoint(scenes[i])
    ensures |Split(SummarizeScenes(scenes), '|')| == |scenes|
    ensures forall i :: 0 <= i < |scenes| ==> Strip(Split(SummarizeScenes(scenes), '|')[i]) == KeyPoint(scenes[i])
  {
    MapAt(KeyPoint, scenes);
    JoinedPartsRead(Map(KeyPoint, scenes));
  }

  /** A summary of two or more scenes holds at least one separator, so it is never empty. */
  lemma SummaryNotEmpty(scenes: seq<Scene>)
    requires |scenes| >= 2
    ensures |SummarizeScenes(scenes)| >= |SummarySeparator|
  {
    MapAt(KeyPoint, scenes);
    var points := Map(KeyPoint, scenes);
    assert Join(points, SummarySeparator) == points[0] + (SummarySeparator + Join(points[1..], SummarySeparator));
  }

  // ---------------------------------------------------------------------------
  // The preview payload

  /**
   * `base / part` for a single path component `part`, as `pathlib` spells the
   * result: an empty or "." part adds nothing, and a base of "." (the current
   * directory) is dropped in front of anything else.
   */
  function JoinPath(base: string, part: string): (r: string)
    ensures part == "" || part == "." ==> r == base
    ensures PlainComponent(part) && base == "." ==> r == part
    ensures PlainComponent(part) && base != "." ==> StartsWith(r, base + "/") && EndsWith(r, "/" + part)
  {
    if part == "" || part == "." then base
    else if base == "." then part
    else
      assert base + "/" + part == (base + "/") + part == base + ("/" + part);
      base + "/" + part
  }

  /** Joining distinct plain components to one base gives distinct paths. */
  lemma JoinPathInjective(base: string, a: string, b: string)
    requires PlainComponent(a) && PlainComponent(b)
    requires JoinPath(base, a) == JoinPath(base, b)
    ensures a == b
  {
    if base != "." {
      var n := |base + "/"|;
      assert a == JoinPath(base, a)[n..];
      assert b == JoinPath(base, b)[n..];
    }
  }

  /**
   * `os.fspath(assets_root / "assets" / project_id)`. Its shape is stated by
   * `AssetsRootShape`, apart from the function so that the lemmas about the
   * preview payload, which holds it, stay small.
   */
  function AssetsRoot(home: string, projectId: string): string {
    JoinPath(JoinPath(home, "assets"), projectId)
  }

  /**
   * The project's directory under the home's "assets" directory; an id of ""
   * or "." names the "assets" directory itself.
   */
  lemma AssetsRootShape(home: string, projectId: string)
    ensures PlainComponent(projectId) && home != "." ==>
      StartsWith(AssetsRoot(home, projectId), home + "/assets/") && EndsWith(AssetsRoot(home, projectId), "/" + projectId)
    ensures PlainComponent(projectId) && home == "." ==> AssetsRoot(home, projectId) == "assets/" + projectId
    ensures projectId == "" || projectId == "." ==> AssetsRoot(home, projectId) == JoinPath(home, "assets")
  {
    AssetsUnderHome(home, projectId);
  }

  /** Below a home other than ".", the assets path keeps the home and "/assets/" in front. */
  lemma AssetsUnderHome(home: string, projectId: string)
    ensures PlainComponent(projectId) && home != "." ==>
      JoinPath(JoinPath(home, "assets"), projectId) == home + "/assets/" + projectId
  {
    if PlainComponent(projectId) && home != "." {
      assert PlainComponent("assets");
      var assets := JoinPath(home, "assets");
      assert assets == home + "/" + "assets";
      assert assets != "." by {
        assert |assets| >= 7;
      }
      assert home + "/" + "assets" + "/" + projectId == home + "/assets/" + projectId;
    }
  }

  /** Two projects of one home never share an assets directory, for ids that are plain path components. */
  lemma AssetsRootInjective(home: string, a: string, b: string)
    requires PlainComponent(a) && PlainComponent(b)
    requires AssetsRoot(home, a) == AssetsRoot(home, b)
    ensures a == b
  {
    var assets := JoinPath(home, "assets");
    assert PlainComponent("assets");
    JoinPathInjective(assets, a, b);
  }

  /** The ids "" and "." share the "assets" directory of the home: `pathlib` drops both parts. */
  lemma AssetsRootShared(home: string)
    ensures AssetsRoot(home, "") == AssetsRoot(home, ".") == JoinPath(home, "assets")
  {
  }

  const PreviewKeys: set<string> :=
    {"project_id", "title", "tone", "target_audience", "script_summary", "scenes", "render_metadata"}
  const RenderMetadataKeys: set<string> := {"duration_minutes", "rendered_with", "assets_root"}

  /** `_build_preview_payload(project, assets_root=home)`. */
  function PreviewPayload(p: Project, home: string): (payload: map<string, Value>)
    ensures payload.Keys == PreviewKeys
  {
    map[
      "project_id" := Str(p.projectId),
      "title" := Str(p.title),
      "tone" := Str(p.tone),
      "target_audience" := Str(p.targetAudience),
      "script_summary" := OptionalStr(p.scriptSummary),
      "scenes" := List(ScenesToValues(p.scenes)),
      "render_metadata" := Object(map[
        "duration_minutes" := Int(p.durationMinutes),
        "rendered_with" := Str(ProducerTag),
        "assets_root" := Str(AssetsRoot(home, p.projectId))
      ])
    ]
  }

  /**
   * What a reader of the preview finds at its top level: the project's id,
   * title, tone, audience and summary (null when there is none), and one
   * scene document per scene that reads back as that scene.
   */
  lemma PreviewReadsBack(p: Project, home: string)
    ensures PreviewPayload(p, home)["project_id"] == Str(p.projectId)
    ensures PreviewPayload(p, home)["title"] == Str(p.title)
    ensures PreviewPayload(p, home)["tone"] == Str(p.tone)
    ensures PreviewPayload(p, home)["target_audience"] == Str(p.targetAudience)
    ensures p.scriptSummary.None? ==> PreviewPayload(p, home)["script_summary"] == Null
    ensures p.scriptSummary.Some? ==> PreviewPayload(p, home)["script_summary"] == Str(p.scriptSummary.value)
    ensures PreviewPayload(p, home)["scenes"].List?
    ensures |PreviewPayload(p, home)["scenes"].items| == |p.scenes|
    ensures SceneListFromValues(PreviewPayload(p, home)["scenes"].items) == Ok(p.scenes)
  {
    SceneListRoundTrip(p.scenes);
  }

  /**
   * The preview's "render_metadata": the project's duration, the producer
   * tag, and the project's assets directory under the storage home.
   */
  lemma PreviewMetadata(p: Project, home: string)
    ensures PreviewPayload(p, home)["render_metadata"].Object?
    ensures PreviewPayload(p, home)["render_metadata"].fields.Keys == RenderMetadataKeys
    ensures PreviewPayload(p, home)["render_metadata"].fields["duration_minutes"] == Int(p.durationMinutes)
    ensures PreviewPayload(p, home)["render_metadata"].fields["rendered_with"] == Str(ProducerTag)
    ensures PreviewPayload(p, home)["render_metadata"].fields["assets_root"] == Str(AssetsRoot(home, p.projectId))
  {
  }

  /** A preview document is not a project document: `from_dict` rejects its "render_metadata" key. */
  lemma PreviewIsNotAProject(p: Project, home: string, now: string)
    ensures ProjectFromDict(PreviewPayload(p, home), now).Err?
  {
    UnknownKeyRejected(PreviewPayload(p, home), now, "render_metadata");
  }

  /** Where the preview goes: `destination`, or `home / "<project_id>_preview.json"`. */
  function PreviewPath(home: string, projectId: string, destination: Option<Path>): (path: Path)
    ensures destination.Some? ==> path == destination.value
  {
    match destination
    case Some(d) => d
    case None => Path(home, projectId + PreviewSuffix)
  }

  /**
   * The default preview file sits in the storage home, matches "*.json",
   * and is not the project's own file.
   */
  lemma DefaultPreviewPath(home: string, projectId: string)
    ensures PreviewPath(home, projectId, None).dir == home
    ensures EndsWith(PreviewPath(home, projectId, None).name, JsonSuffix)
    ensures PreviewPath(home, projectId, None).name != FileName(projectId)
    ensures PlainId(projectId) ==> '/' !in PreviewPath(home, projectId, None).name
  {
    var name := projectId + PreviewSuffix;
    assert name[|name| - |JsonSuffix|..] == JsonSuffix;
    assert |name| != |FileName(projectId)|;
  }

  /**
   * The default preview of project `x` is the file of the project whose id
   * is `x` followed by "_preview": rendering `x` overwrites that project.
   */
  lemma DefaultPreviewOfOther(home: string, projectId: string)
    ensures PreviewPath(home, projectId, None) == Path(home, FileName(projectId + "_preview"))
  {
    assert projectId + PreviewSuffix == (projectId + "_preview") + JsonSuffix;
  }

  // ---------------------------------------------------------------------------
  // The project after each step

  /** `generate_script`: the script for the brief and duration, and its summary. */
  function WithScript(wrap: Wrapper, p: Project): Project {
    var scenes := Script(wrap, p.brief, p.durationMinutes);
    p.(scenes := scenes, scriptSummary := Some(SummarizeScenes(scenes)))
  }

  /** `design_storyboard`: a script first when there are no scenes, then the designed scenes. */
  function WithStoryboard(wrap: Wrapper, p: Project): Project {
    var scripted := if p.scenes == [] then WithScript(wrap, p) else p;
    scripted.(scenes := Storyboard(scripted.scenes), storyboardReady := true)
  }

  /** The project `render_preview` builds its payload from: designed first unless the storyboard is ready. */
  function ForPreview(wrap: Wrapper, p: Project): Project {
    if p.storyboardReady then p else WithStoryboard(wrap, p)
  }

  /** The project `render_preview` saves. */
  function Rendered(wrap: Wrapper, p: Project): Project {
    ForPreview(wrap, p).(previewReady := true)
  }

  /** The fields no step changes: the ones `create_project` sets. */
  predicate SameIdentity(p: Project, q: Project) {
    && q.projectId == p.projectId && q.title == p.title && q.brief == p.brief
    && q.tone == p.tone && q.targetAudience == p.targetAudience
    && q.durationMinutes == p.durationMinutes && q.createdAt == p.createdAt
  }

  /** A step never clears a readiness flag. */
  predicate FlagsKept(p: Project, q: Project) {
    (p.storyboardReady ==> q.storyboardReady) && (p.previewReady ==> q.previewReady)
  }

  /** A ready preview has a ready storyboard, and a ready storyboard has scenes. */
  predicate Consistent(p: Project) {
    (p.previewReady ==> p.storyboardReady) && (p.storyboardReady ==> p.scenes != [])
  }

  /**
   * After `generate_script` the project holds the generated script (three to
   * six scenes, scene `i` having index `i`) and a non-empty summary of it;
   * nothing else changes.
   */
  lemma ScriptStep(wrap: Wrapper, p: Project)
    ensures var q := WithScript(wrap, p);
      && q.scenes == Script(wrap, p.brief, p.durationMinutes)
      && |q.scenes| == SceneCount(p.durationMinutes)
      && (forall i :: 0 <= i < |q.scenes| ==> q.scenes[i].index == i)
      && q.scriptSummary == Some(SummarizeScenes(q.scenes))
      && q.scriptSummary.value != []
      && SameIdentity(p, q)
      && q.storyboardReady == p.storyboardReady && q.previewReady == p.previewReady
  {
    var scenes := Script(wrap, p.brief, p.durationMinutes);
    ScriptIndices(wrap, p.brief, p.durationMinutes);
    SummaryNotEmpty(scenes);
  }

  /** A script has `SceneCount(d)` scenes, scene `i` having index `i`. */
  lemma ScriptIndices(wrap: Wrapper, brief: string, d: int)
    ensures |Script(wrap, brief, d)| == SceneCount(d)
    ensures forall i :: 0 <= i < |Script(wrap, brief, d)| ==> Script(wrap, brief, d)[i].index == i
  {
    ScriptScene(wrap, brief, d, 0);
    forall i | 0 <= i < SceneCount(d) ensures Script(wrap, brief, d)[i].index == i {
      ScriptScene(wrap, brief, d, i);
    }
  }

  /**
   * After `design_storyboard` the storyboard is ready and the scenes are the
   * designed copies of the project's scenes, or of a fresh script when it
   * had none; the summary changes only with that script.
   */
  lemma StoryboardStep(wrap: Wrapper, p: Project)
    ensures var q := WithStoryboard(wrap, p);
      var source := if p.scenes == [] then Script(wrap, p.brief, p.durationMinutes) else p.scenes;
      && q.storyboardReady
      && |q.scenes| == |source| > 0
      && (forall i :: 0 <= i < |source| ==> Designs(q.scenes[i], source[i]))
      && (p.scenes != [] ==> q.scriptSummary == p.scriptSummary)
      && (p.scenes == [] ==> q.scriptSummary == Some(SummarizeScenes(source)))
      && SameIdentity(p, q) && q.previewReady == p.previewReady
  {
    ScriptStep(wrap, p);
    var scripted := if p.scenes == [] then WithScript(wrap, p) else p;
    StoryboardDesigns(scripted.scenes);
  }

  /**
   * Designing a script frames its scenes alternately, so both framings
   * occur and no other does.
   */
  lemma StoryboardFramings(wrap: Wrapper, p: Project)
    requires p.scenes == [] || p.scenes == Script(wrap, p.brief, p.durationMinutes)
    ensures Framings(WithStoryboard(wrap, p).scenes) == {"16:9", "9:16"}
  {
    var source := Script(wrap, p.brief, p.durationMinutes);
    ScriptIndices(wrap, p.brief, p.durationMinutes);
    assert WithStoryboard(wrap, p).scenes == Storyboard(source);
    DesignedFramings(source);
  }

  /** The framings that occur among some scenes. */
  function Framings(scenes: seq<Scene>): set<string> {
    set i | 0 <= i < |scenes| :: scenes[i].aspectRatio
  }

  /** Designed scenes indexed from zero, two or more of them, use both framings and no other. */
  lemma DesignedFramings(scenes: seq<Scene>)
    requires |scenes| >= 2
    requires forall i :: 0 <= i < |scenes| ==> scenes[i].index == i
    ensures Framings(Storyboard(scenes)) == {"16:9", "9:16"}
  {
    var designed := Storyboard(scenes);
    MapAt(DesignScene, scenes);
    forall i | 0 <= i < |designed| ensures designed[i].aspectRatio == AspectRatioFor(i) {
      assert designed[i] == DesignScene(scenes[i]);
    }
    TwoFramings(designed);
  }

  /** Scenes framed by their position use both framings, when there are two or more, and no other. */
  lemma TwoFramings(scenes: seq<Scene>)
    requires |scenes| >= 2
    requires forall i :: 0 <= i < |scenes| ==> scenes[i].aspectRatio == AspectRatioFor(i)
    ensures Framings(scenes) == {"16:9", "9:16"}
  {
    assert scenes[0].aspectRatio == "16:9" && scenes[1].aspectRatio == "9:16";
  }

  /**
   * `generate_script` after `design_storyboard` replaces the designed scenes
   * by undesigned ones but leaves the storyboard flagged as ready.
   */
  lemma ScriptAfterStoryboard(wrap: Wrapper, p: Project)
    ensures WithScript(wrap, WithStoryboard(wrap, p)).storyboardReady
    ensures WithScript(wrap, WithStoryboard(wrap, p)).scenes == Script(wrap, p.brief, p.durationMinutes)
  {
  }

  /**
   * `design_storyboard` on a designed project designs its scenes again and
   * appends a second shot suggestion, so a second call changes the scenes.
   */
  lemma StoryboardTwice(wrap: Wrapper, p: Project)
    ensures WithStoryboard(wrap, WithStoryboard(wrap, p)).scenes != WithStoryboard(wrap, p).scenes
  {
    var q := WithStoryboard(wrap, p);
    var source := if p.scenes == [] then Script(wrap, p.brief, p.durationMinutes) else p.scenes;
    StoryboardStep(wrap, p);
    assert q.scenes == Storyboard(source);
    MapAt(DesignScene, source);
    MapAt(DesignScene, q.scenes);
    DesignTwice(source[0]);
    assert WithStoryboard(wrap, q).scenes[0] != q.scenes[0];
  }

  /** Each step keeps the identity fields and the flags, and keeps a consistent project consistent. */
  lemma ScriptKeeps(wrap: Wrapper, p: Project)
    ensures SameIdentity(p, WithScript(wrap, p)) && FlagsKept(p, WithScript(wrap, p))
    ensures Consistent(p) ==> Consistent(WithScript(wrap, p))
  {
    ScriptStep(wrap, p);
  }

  lemma StoryboardKeeps(wrap: Wrapper, p: Project)
    ensures SameIdentity(p, WithStoryboard(wrap, p)) && FlagsKept(p, WithStoryboard(wrap, p))
    ensures Consistent(WithStoryboard(wrap, p))
  {
    StoryboardStep(wrap, p);
  }

  /** A rendered project has its preview and storyboard ready, and was designed exactly when its storyboard was not ready. */
  lemma RenderKeeps(wrap: Wrapper, p: Project)
    ensures SameIdentity(p, Rendered(wrap, p)) && FlagsKept(p, Rendered(wrap, p))
    ensures Rendered(wrap, p).previewReady && Rendered(wrap, p).storyboardReady
    ensures p.storyboardReady ==> Rendered(wrap, p) == p.(previewReady := true)
    ensures Consistent(p) ==> Consistent(Rendered(wrap, p))
  {
    StoryboardKeeps(wrap, p);
  }

  /** One call of the service on a project. */
  datatype Step = GenerateStep | DesignStep | RenderStep

  function Apply(wrap: Wrapper, p: Project, step: Step): Project {
    match step
    case GenerateStep => WithScript(wrap, p)
    case DesignStep => WithStoryboard(wrap, p)
    case RenderStep => Rendered(wrap, p)
  }

  /** The project after a sequence of calls, in order. */
  function Run(wrap: Wrapper, p: Project, steps: seq<Step>): Project
    decreases |steps|
  {
    if steps == [] then p else Run(wrap, Apply(wrap, p, steps[0]), steps[1..])
  }

  /**
   * Whatever calls follow `create_project`, the project keeps its identity,
   * never clears a flag, and stays consistent.
   */
  lemma {:induction false} RunConsistent(wrap: Wrapper, p: Project, steps: seq<Step>)
    requires Consistent(p)
    ensures SameIdentity(p, Run(wrap, p, steps))
    ensures FlagsKept(p, Run(wrap, p, steps))
    ensures Consistent(Run(wrap, p, steps))
    decreases |steps|
  {
    if steps != [] {
      var q := Apply(wrap, p, steps[0]);
      match steps[0] {
        case GenerateStep => ScriptKeeps(wrap, p);
        case DesignStep => StoryboardKeeps(wrap, p);
        case RenderStep => RenderKeeps(wrap, p);
      }
      RunConsistent(wrap, q, steps[1..]);
    }
  }

  /** A new project is consistent, so every project the service derives from it is. */
  lemma CreatedConsistent(wrap: Wrapper, projectId: string, title: string, brief: string, tone: string,
                          targetAudience: string, durationMinutes: int, createdAt: string, steps: seq<Step>)
    ensures var p := NewProject(projectId, title, brief, tone, targetAudience, durationMinutes, createdAt);
      Consistent(Run(wrap, p, steps)) && SameIdentity(p, Run(wrap, p, steps))
  {
    RunConsistent(wrap, NewProject(projectId, title, brief, tone, targetAudience, durationMinutes, createdAt), steps);
  }

  // ---------------------------------------------------------------------------
  // The files after each call

  /** Saving a project twice leaves only the later save. */
  lemma SaveOverSave(files: map<Path, Value>, home: string, earlier: Project, later: Project)
    requires earlier.projectId == later.projectId
    ensures Saved(Saved(files, home, earlier), home, later) == Saved(files, home, later)
  {
  }

  /** A save that a later save of the same project overrides does not matter, whatever is written between them. */
  lemma SaveWriteSave(files: map<Path, Value>, home: string, earlier: Project, path: Path, document: Value, later: Project)
    requires earlier.projectId == later.projectId
    ensures Saved(Saved(files, home, earlier)[path := document], home, later) == Saved(files[path := document], home, later)
  {
    var own := Path(home, FileName(later.projectId));
    var a := Saved(Saved(files, home, earlier)[path := document], home, later);
    var b := Saved(files[path := document], home, later);
    assert a.Keys == b.Keys;
    forall k | k in a.Keys ensures a[k] == b[k] {
      if k != own && k != path {
        assert a[k] == files[k];
      }
    }
  }

  /**
   * After `render_preview`, reading the project gives the rendered project,
   * and reading the preview file gives the preview payload unless that file
   * is the project's own file.
   */
  lemma RenderedFiles(files: map<Path, Value>, home: string, wrap: Wrapper, p: Project, destination: Option<Path>, now: string)
    ensures var path := PreviewPath(home, p.projectId, destination);
      var after := Saved(files[path := Object(PreviewPayload(ForPreview(wrap, p), home))], home, Rendered(wrap, p));
      && LoadAt(after, Path(home, FileName(p.projectId)), now) == Ok(Rendered(wrap, p))
      && (path != Path(home, FileName(p.projectId)) ==> after[path] == Object(PreviewPayload(ForPreview(wrap, p), home)))
  {
    RenderKeeps(wrap, p);
    var path := PreviewPath(home, p.projectId, destination);
    LoadAfterSave(files[path := Object(PreviewPayload(ForPreview(wrap, p), home))], home, Rendered(wrap, p), now);
  }

  /**
   * A preview written into the storage home under a "*.json" name other than
   * the project's own file stops `list_projects` with an error: the listing
   * reads the preview as a project document and `from_dict` rejects it. The
   * default preview path is such a path.
   */
  lemma PreviewBreaksListing(files: map<Path, Value>, home: string, q: Project, rendered: Project, path: Path, now: string)
    requires path.dir == home && EndsWith(path.name, JsonSuffix) && '/' !in path.name
    requires path.name != FileName(rendered.projectId)
    ensures var after := Saved(files[path := Object(PreviewPayload(q, home))], home, rendered);
      ListFrom(after, home, SortedNames(JsonNames(after, home)), now).failure.Some?
  {
    var after := Saved(files[path := Object(PreviewPayload(q, home))], home, rendered);
    var names := SortedNames(JsonNames(after, home));
    assert path in after && after[path] == Object(PreviewPayload(q, home));
    assert path.name in JsonNames(after, home);
    SortedNamesSorted(JsonNames(after, home));
    var i :| 0 <= i < |names| && names[i] == path.name;
    assert Path(home, names[i]) == path;
    PreviewIsNotAProject(q, home, now);
    assert LoadAt(after, Path(home, names[i]), now).Err?;
    ListFromAll(after, home, names, now);
  }

  // ---------------------------------------------------------------------------
  // The facade

  class ProjectService {
    const storage: ProjectStorage
    const wrap: Wrapper

    /** `ProjectService(storage=...)` with the default script generator and storyboard designer. */
    constructor(storage: ProjectStorage, wrap: Wrapper)
      ensures this.storage == storage && this.wrap == wrap
    {
      this.storage := storage;
      this.wrap := wrap;
    }

    /**
     * `create_project`: a new project whose id is the first twelve
     * characters of `hex` (what `uuid4().hex` gives) and whose creation time
     * is `now`, saved before it is returned.
     */
    method CreateProject(title: string, brief: string, tone: string, targetAudience: string,
                         durationMinutes: int, hex: string, now: string) returns (project: Project)
      modifies storage.fs
      ensures project == NewProject(Take(hex, 12), title, brief, tone, targetAudience, durationMinutes, now)
      ensures |hex| >= 12 ==> |project.projectId| == 12
      ensures storage.fs.files == Saved(old(storage.fs.files), storage.home, project)
    {
      var projectId := Take(hex, 12);
      project := NewProject(projectId, title, brief, tone, targetAudience, durationMinutes, now);
      storage.Save(project);
    }

    /** `list_projects`. */
    method ListProjects(now: string) returns (listing: Listing)
      ensures listing == ListFrom(storage.fs.files, storage.home, SortedNames(JsonNames(storage.fs.files, storage.home)), now)
    {
      listing := storage.ListProjects(now);
    }

    /** `load_project`. */
    method LoadProject(projectId: string, now: string) returns (r: Result<Project, LoadError>)
      ensures r == LoadAt(storage.fs.files, Path(storage.home, FileName(projectId)), now)
    {
      r := storage.Load(projectId, now);
    }

    /** `generate_script`: the project with its new script and summary, saved. */
    method GenerateScript(project: Project) returns (updated: Project)
      modifies storage.fs
      ensures updated == WithScript(wrap, project)
      ensures storage.fs.files == Saved(old(storage.fs.files), storage.home, updated)
    {
      var scenes := Generate(wrap, project.brief, project.durationMinutes);
      var summary := SummarizeScenes(scenes);
      updated := project.(scenes := scenes, scriptSummary := Some(summary));
      storage.Save(updated);
    }

    /** `design_storyboard`: the project with its designed scenes, saved (the intermediate save of a fresh script is overwritten). */
    method DesignStoryboard(project: Project) returns (updated: Project)
      modifies storage.fs
      ensures updated == WithStoryboard(wrap, project)
      ensures storage.fs.files == Saved(old(storage.fs.files), storage.home, updated)
    {
      var current := project;
      if current.scenes == [] {
        current := GenerateScript(current);
      }
      var scenes := Design(current.scenes);
      updated := current.(scenes := scenes, storyboardReady := true);
      storage.Save(updated);
      SaveOverSave(old(storage.fs.files), storage.home, current, updated);
    }

    /**
     * `render_preview`: the preview payload written to the destination (by
     * default `<project_id>_preview.json` in the storage home), then the
     * project saved with its preview ready; returns where the preview went.
     */
    method RenderPreview(project: Project, destination: Option<Path>) returns (path: Path)
      modifies storage.fs
      ensures path == PreviewPath(storage.home, project.projectId, destination)
      ensures storage.fs.files ==
        Saved(old(storage.fs.files)[path := Object(PreviewPayload(ForPreview(wrap, project), storage.home))],
              storage.home, Rendered(wrap, project))
    {
      var current := project;
      if !current.storyboardReady {
        current := DesignStoryboard(current);
      }
      StoryboardKeeps(wrap, project);
      ghost var designed := storage.fs.files;
      var preview := PreviewPayload(current, storage.home);
      path := PreviewPath(storage.home, current.projectId, destination);
      storage.fs.Write(path, Object(preview));
      var rendered := current.(previewReady := true);
      storage.Save(rendered);
      if !project.storyboardReady {
        SaveWriteSave(old(storage.fs.files), storage.home, current, path, Object(preview), rendered);
      }
    }
  }
}
