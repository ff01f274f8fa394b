/**
 * The two records of the pipeline, `Scene` and `Project`, their defaults, and
 * their conversion to and from the JSON objects that storage writes
 * (`to_dict` / `from_dict`).
 */
module Models {
  import opened Wrappers

  /** A JSON value as `json.loads` produces it: an object is a `dict` keyed by strings. */
  datatype Value =
    | Null
    | Bool(b: bool)
    | Int(i: int)
    | Str(s: string)
    | List(items: seq<Value>)
    | Object(fields: map<string, Value>)

  /** One narrative beat of a script. */
  datatype Scene = Scene(
    index: int,
    title: string,
    summary: string,
    voiceover: Option<string>,
    mood: Option<string>,
    aspectRatio: string,
    thumbnailDescription: Option<string>)

  /** The state of one video project. */
  datatype Project = Project(
    projectId: string,
    title: string,
    brief: string,
    tone: string,
    targetAudience: string,
    durationMinutes: int,
    createdAt: string,
    scriptSummary: Option<string>,
    scenes: seq<Scene>,
    storyboardReady: bool,
    previewReady: bool)

  const DefaultAspectRatio := "16:9"

  /** The keyword arguments `Scene(...)` accepts, and those without a default. */
  const SceneKeys: set<string> :=
    {"index", "title", "summary", "voiceover", "mood", "aspect_ratio", "thumbnail_description"}
  const RequiredSceneKeys: set<string> := {"index", "title", "summary"}

  /** The keyword arguments `Project(...)` accepts, and those without a default. */
  const ProjectKeys: set<string> :=
    {"project_id", "title", "brief", "tone", "target_audience", "duration_minutes",
     "created_at", "script_summary", "scenes", "storyboard_ready", "preview_ready"}
  const RequiredProjectKeys: set<string> :=
    {"project_id", "title", "brief", "tone", "target_audience", "duration_minutes"}

  /** `Scene(index=..., title=..., summary=...)` with every other field left at its default. */
  function NewScene(index: int, title: string, summary: string): (s: Scene)
    ensures s.index == index && s.title == title && s.summary == summary
    ensures s.aspectRatio == "16:9"
    ensures s.voiceover == None && s.mood == None && s.thumbnailDescription == None
  {
    Scene(index, title, summary, None, None, DefaultAspectRatio, None)
  }

  /**
   * `Project(...)` with the six required fields; `createdAt` is what the
   * `created_at` default factory reads from the clock.
   */
  function NewProject(projectId: string, title: string, brief: string, tone: string,
                      targetAudience: string, durationMinutes: int, createdAt: string): (p: Project)
    ensures p.projectId == projectId && p.title == title && p.brief == brief && p.tone == tone
    ensures p.targetAudience == targetAudience && p.durationMinutes == durationMinutes
    ensures p.createdAt == createdAt
    ensures p.scriptSummary == None && p.scenes == []
    ensures !p.storyboardReady && !p.previewReady
  {
    Project(projectId, title, brief, tone, targetAudience, durationMinutes, createdAt,
            None, [], false, false)
  }

  // ---------------------------------------------------------------------------
  // to_dict

  function OptionalStr(o: Option<string>): Value {
    match o
    case None => Null
    case Some(s) => Str(s)
  }

  /** `Scene.to_dict()`. */
  function SceneToDict(s: Scene): (d: map<string, Value>)
    ensures d.Keys == SceneKeys
  {
    map[
      "index" := Int(s.index),
      "title" := Str(s.title),
      "summary" := Str(s.summary),
      "voiceover" := OptionalStr(s.voiceover),
      "mood" := OptionalStr(s.mood),
      "aspect_ratio" := Str(s.aspectRatio),
      "thumbnail_description" := OptionalStr(s.thumbnailDescription)
    ]
  }

  /** `[scene.to_dict() for scene in scenes]`. */
  function ScenesToValues(scenes: seq<Scene>): (items: seq<Value>)
  {
    seq(|scenes|, i requires 0 <= i < |scenes| => Object(SceneToDict(scenes[i])))
  }

  /** `Project.to_dict()`. */
  function ProjectToDict(p: Project): (d: map<string, Value>)
    ensures d.Keys == ProjectKeys
  {
    map[
      "project_id" := Str(p.projectId),
      "title" := Str(p.title),
      "brief" := Str(p.brief),
      "tone" := Str(p.tone),
      "target_audience" := Str(p.targetAudience),
      "duration_minutes" := Int(p.durationMinutes),
      "created_at" := Str(p.createdAt),
      "script_summary" := OptionalStr(p.scriptSummary),
      "scenes" := List(ScenesToValues(p.scenes)),
      "storyboard_ready" := Bool(p.storyboardReady),
      "preview_ready" := Bool(p.previewReady)
    ]
  }

  // ---------------------------------------------------------------------------
  // from_dict

  /**
   * Why building a record from a dict fails. In Python all of these are a
   * `TypeError`, except `InvalidValue`: dataclasses do not check field types,
   * the model does.
   */
  datatype DictError =
    | UnexpectedKey     // a keyword the record does not have
    | MissingKey        // a field without a default is absent
    | NotAMapping       // `Scene(**x)` where `x` is not a dict
    | NotIterable       // `for x in payload["scenes"]` over a value that cannot be iterated
    | InvalidValue      // a value whose JSON type does not match the field

  function StrField(d: map<string, Value>, k: string): Result<string, DictError>
    requires k in d
  {
    if d[k].Str? then Ok(d[k].s) else Err(InvalidValue)
  }

  function IntField(d: map<string, Value>, k: string): Result<int, DictError>
    requires k in d
  {
    if d[k].Int? then Ok(d[k].i) else Err(InvalidValue)
  }

  /** A string field with a default, used when the key is absent. */
  function StrFieldOr(d: map<string, Value>, k: string, default: string): Result<string, DictError>
  {
    if k !in d then Ok(default) else StrField(d, k)
  }

  /** An `Optional[str]` field defaulting to `None`; JSON `null` is `None`. */
  function OptionalStrField(d: map<string, Value>, k: string): Result<Option<string>, DictError>
  {
    if k !in d then Ok(None)
    else match d[k]
      case Null => Ok(None)
      case Str(s) => Ok(Some(s))
      case _ => Err(InvalidValue)
  }

  /** A `bool` field defaulting to `False`. */
  function BoolFieldOrFalse(d: map<string, Value>, k: string): Result<bool, DictError>
  {
    if k !in d then Ok(false)
    else if d[k].Bool? then Ok(d[k].b)
    else Err(InvalidValue)
  }

  /** `Scene(**d)`: unknown keywords are rejected first, then missing required ones. */
  function SceneFromDict(d: map<string, Value>): (r: Result<Scene, DictError>)
    ensures r.Ok? ==> d.Keys <= SceneKeys && RequiredSceneKeys <= d.Keys
  {
    if !(d.Keys <= SceneKeys) then Err(UnexpectedKey)
    else if !(RequiredSceneKeys <= d.Keys) then Err(MissingKey)
    else
      var index :- IntField(d, "index");
      var title :- StrField(d, "title");
      var summary :- StrField(d, "summary");
      var voiceover :- OptionalStrField(d, "voiceover");
      var mood :- OptionalStrField(d, "mood");
      var aspectRatio :- StrFieldOr(d, "aspect_ratio", DefaultAspectRatio);
      var thumbnail :- OptionalStrField(d, "thumbnail_description");
      Ok(Scene(index, title, summary, voiceover, mood, aspectRatio, thumbnail))
  }

  /** `Scene(**v)` for one element of the scene list. */
  function SceneFromValue(v: Value): Result<Scene, DictError> {
    if v.Object? then SceneFromDict(v.fields) else Err(NotAMapping)
  }

  /** `[Scene(**x) for x in items]`: the first failing element decides the error. */
  function SceneListFromValues(items: seq<Value>): (r: Result<seq<Scene>, DictError>)
    ensures r.Ok? ==> |r.value| == |items|
  {
    if items == [] then Ok([])
    else
      var first :- SceneFromValue(items[0]);
      var rest :- SceneListFromValues(items[1..]);
      Ok([first] + rest)
  }

  /**
   * `[Scene(**x) for x in payload.get("scenes", [])]`. A list is decoded element
   * by element; iterating a string yields characters and iterating an object
   * yields its keys, neither of which `**` accepts, so only an empty one gets
   * through; any other value cannot be iterated.
   */
  function ScenesFromPayload(payload: map<string, Value>): (r: Result<seq<Scene>, DictError>)
    ensures "scenes" !in payload ==> r == Ok([])
  {
    if "scenes" !in payload then Ok([])
    else match payload["scenes"]
      case List(items) => SceneListFromValues(items)
      case Str(s) => if s == [] then Ok([]) else Err(NotAMapping)
      case Object(m) => if m == map[] then Ok([]) else Err(NotAMapping)
      case _ => Err(NotIterable)
  }

  /**
   * `Project.from_dict(payload)`: the scene list is decoded first, then
   * `cls(**payload)` rejects unknown keywords and then missing required ones;
   * `now` is what the `created_at` default factory would read from the clock.
   */
  function ProjectFromDict(payload: map<string, Value>, now: string): (r: Result<Project, DictError>)
    ensures r.Ok? ==> payload.Keys <= ProjectKeys && RequiredProjectKeys <= payload.Keys
    ensures r.Ok? && "scenes" !in payload ==> r.value.scenes == []
    ensures r.Ok? && "created_at" !in payload ==> r.value.createdAt == now
  {
    var scenes :- ScenesFromPayload(payload);
    if !(payload.Keys <= ProjectKeys) then Err(UnexpectedKey)
    else if !(RequiredProjectKeys <= payload.Keys) then Err(MissingKey)
    else
      var projectId :- StrField(payload, "project_id");
      var title :- StrField(payload, "title");
      var brief :- StrField(payload, "brief");
      var tone :- StrField(payload, "tone");
      var targetAudience :- StrField(payload, "target_audience");
      var durationMinutes :- IntField(payload, "duration_minutes");
      var createdAt :- StrFieldOr(payload, "created_at", now);
      var scriptSummary :- OptionalStrField(payload, "script_summary");
      var storyboardReady :- BoolFieldOrFalse(payload, "storyboard_ready");
      var previewReady :- BoolFieldOrFalse(payload, "preview_ready");
      Ok(Project(projectId, title, brief, tone, targetAudience, durationMinutes, createdAt,
                 scriptSummary, scenes, storyboardReady, previewReady))
  }

  // ---------------------------------------------------------------------------
  // Round trip and rejection

  /** A scene survives `to_dict` followed by `Scene(**d)`. */
  lemma SceneRoundTrip(s: Scene)
    ensures SceneFromDict(SceneToDict(s)) == Ok(s)
  {
    var d := SceneToDict(s);
    assert d.Keys <= SceneKeys && RequiredSceneKeys <= d.Keys;
    assert OptionalStrField(d, "voiceover") == Ok(s.voiceover);
    assert OptionalStrField(d, "mood") == Ok(s.mood);
    assert OptionalStrField(d, "thumbnail_description") == Ok(s.thumbnailDescription);
  }

  /** A list of scenes survives `to_dict` followed by decoding, element by element and in order. */
  lemma {:induction false} SceneListRoundTrip(scenes: seq<Scene>)
    ensures SceneListFromValues(ScenesToValues(scenes)) == Ok(scenes)
  {
    if scenes != [] {
      var items := ScenesToValues(scenes);
      assert items[0] == Object(SceneToDict(scenes[0]));
      assert items[1..] == ScenesToValues(scenes[1..]);
      SceneRoundTrip(scenes[0]);
      SceneListRoundTrip(scenes[1..]);
      assert [scenes[0]] + scenes[1..] == scenes;
    }
  }

  /** `Project.from_dict(p.to_dict()) == p`, nested scenes included, whatever the clock says. */
  lemma ProjectRoundTrip(p: Project, now: string)
    ensures ProjectFromDict(ProjectToDict(p), now) == Ok(p)
  {
    var d := ProjectToDict(p);
    assert ScenesFromPayload(d) == Ok(p.scenes) by {
      assert d["scenes"] == List(ScenesToValues(p.scenes));
      SceneListRoundTrip(p.scenes);
    }
    ProjectFieldsRoundTrip(p, now);
  }

  /** Each field of `p.to_dict()` reads back as the field it came from. */
  lemma ProjectFieldsRoundTrip(p: Project, now: string)
    ensures var d := ProjectToDict(p);
      && d.Keys <= ProjectKeys && RequiredProjectKeys <= d.Keys
      && StrField(d, "project_id") == Ok(p.projectId)
      && StrField(d, "title") == Ok(p.title)
      && StrField(d, "brief") == Ok(p.brief)
      && StrField(d, "tone") == Ok(p.tone)
      && StrField(d, "target_audience") == Ok(p.targetAudience)
      && IntField(d, "duration_minutes") == Ok(p.durationMinutes)
      && StrFieldOr(d, "created_at", now) == Ok(p.createdAt)
      && OptionalStrField(d, "script_summary") == Ok(p.scriptSummary)
      && BoolFieldOrFalse(d, "storyboard_ready") == Ok(p.storyboardReady)
      && BoolFieldOrFalse(d, "preview_ready") == Ok(p.previewReady)
  {
    var d := ProjectToDict(p);
    assert d.Keys <= ProjectKeys && RequiredProjectKeys <= d.Keys;
    assert OptionalStrField(d, "script_summary") == Ok(p.scriptSummary);
  }

  /** A key that is not a `Project` field makes `from_dict` fail, whatever else the payload holds. */
  lemma UnknownKeyRejected(payload: map<string, Value>, now: string, k: string)
    requires k in payload && k !in ProjectKeys
    ensures ProjectFromDict(payload, now).Err?
  {
  }

  /** A missing required field makes `from_dict` fail, whatever else the payload holds. */
  lemma MissingKeyRejected(payload: map<string, Value>, now: string, k: string)
    requires k in RequiredProjectKeys && k !in payload
    ensures ProjectFromDict(payload, now).Err?
  {
  }
}
