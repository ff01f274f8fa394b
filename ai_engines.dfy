/**
 * The deterministic "AI" of the pipeline: the script generator, which turns a
 * brief into scenes through fixed narrative-arc templates, and the storyboard
 * designer, which assigns framing by scene position.
 */
module AiEngines {
  import opened Wrappers
  import opened Strings
  import opened Models
  import opened Collections

  /**
   * `textwrap.wrap(text, width)`: breaks a text into lines of at most `width`
   * columns. Where it breaks lines is not modelled; the generator is given it.
   */
  type Wrapper = (string, nat) -> seq<string>

  /** The six narrative arcs, in the order `itertools.cycle` hands them out. */
  const Arcs: seq<string> := [
    "Hook the audience with a relatable question",
    "Present the core promise",
    "Deliver the first key insight",
    "Share the second key insight",
    "Explain how to put the advice into practice",
    "Close with a memorable takeaway"
  ]

  /** The shot suggestions, chosen by scene index modulo 5. */
  const ShotOptions: seq<string> := [
    "wide establishing",
    "medium action",
    "close-up reaction",
    "dynamic tracking",
    "graphic overlay"
  ]

  const FallbackSentence := "Introduce the topic in an engaging manner"
  const MaxSentences := 10
  const SummaryWidth := 90
  const VoiceoverWidth := 80
  const ShotPrefix := " | Shot suggestion: "

  // ---------------------------------------------------------------------------
  // _normalize_sentences

  /** `text.replace("\n", " ").split(".")`. */
  function Segments(text: string): (r: seq<string>)
    ensures |r| >= 1
    ensures forall i :: 0 <= i < |r| ==> '.' !in r[i]
  {
    Split(Replace(text, '\n', ' '), '.')
  }

  /** The segments, joined again by periods, are the text with every newline turned into a space. */
  lemma SegmentsJoin(text: string)
    ensures Join(Segments(text), ".") == Replace(text, '\n', ' ')
  {
    JoinSplit(Replace(text, '\n', ' '), '.');
  }

  /** What the generator accepts as a sentence: non-empty, stripped and free of periods. */
  predicate IsSentence(s: string) {
    s != [] && Stripped(s) && '.' !in s
  }

  /** `[seg.strip() for seg in segments if seg.strip()]`. */
  function KeptSentences(segments: seq<string>): (r: seq<string>)
    ensures |r| <= |segments|
  {
    if segments == [] then []
    else
      var s := Strip(segments[0]);
      var rest := KeptSentences(segments[1..]);
      if s == [] then rest else [s] + rest
  }

  /** The kept segments of period-free segments are sentences. */
  lemma {:induction false} KeptAreSentences(segments: seq<string>)
    requires forall i :: 0 <= i < |segments| ==> '.' !in segments[i]
    ensures forall j :: 0 <= j < |KeptSentences(segments)| ==> IsSentence(KeptSentences(segments)[j])
  {
    if segments != [] {
      KeptAreSentences(segments[1..]);
      StripAvoids(segments[0], '.');
    }
  }

  /** Nothing is kept exactly when every segment strips to nothing. */
  lemma {:induction false} KeptNoneIff(segments: seq<string>)
    ensures KeptSentences(segments) == [] <==> forall i :: 0 <= i < |segments| ==> Blank(segments[i])
  {
    if segments != [] {
      KeptNoneIff(segments[1..]);
      assert forall i :: 1 <= i < |segments| ==> segments[i] == segments[1..][i - 1];
    }
  }

  /** When no segment is blank, every segment is kept, stripped, in order. */
  lemma {:induction false} KeptAll(segments: seq<string>)
    requires forall i :: 0 <= i < |segments| ==> !Blank(segments[i])
    ensures |KeptSentences(segments)| == |segments|
    ensures forall i :: 0 <= i < |segments| ==> KeptSentences(segments)[i] == Strip(segments[i])
  {
    if segments != [] {
      KeptAll(segments[1..]);
    }
  }

  /** The tail of `_normalize_sentences`: the first ten kept sentences, or the fallback when none was kept. */
  function FirstSentences(kept: seq<string>): (r: seq<string>)
    ensures 1 <= |r| <= MaxSentences
    ensures (forall j :: 0 <= j < |kept| ==> IsSentence(kept[j])) ==> forall i :: 0 <= i < |r| ==> IsSentence(r[i])
  {
    if kept == [] then
      FallbackIsSentence();
      [FallbackSentence]
    else
      Take(kept, MaxSentences)
  }

  /**
   * `_normalize_sentences(text)`: the first ten non-blank period-separated
   * sentences, stripped, or the fallback sentence when there is none.
   */
  function NormalizeSentences(text: string): (r: seq<string>)
    ensures 1 <= |r| <= MaxSentences
    ensures forall i :: 0 <= i < |r| ==> IsSentence(r[i])
  {
    var segments := Segments(text);
    var r := FirstSentences(KeptSentences(segments));
    assert forall i :: 0 <= i < |r| ==> IsSentence(r[i]) by {
      KeptAreSentences(segments);
    }
    r
  }

  /** The fallback is itself a sentence. */
  lemma FallbackIsSentence()
    ensures IsSentence(FallbackSentence)
  {
    assert FallbackSentence[0] == 'I' && FallbackSentence[|FallbackSentence| - 1] == 'r';
  }

  /** A text made only of whitespace and periods yields the single fallback sentence. */
  lemma NormalizeBlank(text: string)
    requires forall i :: 0 <= i < |text| ==> IsSpace(text[i]) || text[i] == '.'
    ensures NormalizeSentences(text) == [FallbackSentence]
  {
    var flat := Replace(text, '\n', ' ');
    var segments := Segments(text);
    SplitKeepsClass(flat, '.', c => IsSpace(c) || c == '.');
    forall i | 0 <= i < |segments| ensures Blank(segments[i]) {
      assert forall j :: 0 <= j < |segments[i]| ==> segments[i][j] != '.';
    }
    KeptNoneIff(segments);
  }

  /**
   * Sentences joined by ". " come back as they went in, cut to the first ten:
   * `_normalize_sentences(". ".join(ss)) == ss[:10]`.
   */
  lemma NormalizeJoined(ss: seq<string>)
    requires ss != []
    requires forall i :: 0 <= i < |ss| ==> IsSentence(ss[i]) && '\n' !in ss[i]
    ensures NormalizeSentences(Join(ss, ". ")) == Take(ss, MaxSentences)
  {
    KeptJoined(ss);
  }

  /** Every segment of `". ".join(ss)` is kept, and strips back to its sentence. */
  lemma KeptJoined(ss: seq<string>)
    requires ss != []
    requires forall i :: 0 <= i < |ss| ==> IsSentence(ss[i]) && '\n' !in ss[i]
    ensures KeptSentences(Segments(Join(ss, ". "))) == ss
  {
    SegmentsOfJoined(ss);
    KeptAll(Segments(Join(ss, ". ")));
  }

  /** The segments of `". ".join(ss)` strip back to the sentences, one per sentence. */
  lemma SegmentsOfJoined(ss: seq<string>)
    requires ss != []
    requires forall i :: 0 <= i < |ss| ==> IsSentence(ss[i]) && '\n' !in ss[i]
    ensures |Segments(Join(ss, ". "))| == |ss|
    ensures forall i :: 0 <= i < |ss| ==>
      !Blank(Segments(Join(ss, ". "))[i]) && Strip(Segments(Join(ss, ". "))[i]) == ss[i]
  {
    var text := Join(ss, ". ");
    assert Segments(text) == Split(text, '.') by {
      JoinAvoids(ss, ". ", '\n');
      ReplaceAbsent(text, '\n', ' ');
    }
    var segments := Split(text, '.');
    assert |segments| == |ss| &&
      segments[0] == ss[0] &&
      forall i :: 1 <= i < |ss| ==> segments[i] == " " + ss[i]
    by {
      assert [] + text == text;
      SplitJoined([], ss);
    }
    forall i | 0 <= i < |ss| ensures !Blank(segments[i]) && Strip(segments[i]) == ss[i] {
      SegmentStrips(segments[i], ss[i], i == 0);
    }
  }

  /** A sentence, with or without the space `". "` leaves in front of it, strips back to itself. */
  lemma SegmentStrips(segment: string, sentence: string, first: bool)
    requires IsSentence(sentence)
    requires segment == if first then sentence else " " + sentence
    ensures !Blank(segment) && Strip(segment) == sentence
  {
    StripFixedPoint(sentence);
    if !first {
      assert Blank(" ") by {
        assert IsSpace(" "[0]);
      }
      StripLeadingSpace(" ", sentence);
    }
  }

  /** The segments of `pre + ". ".join(ss)`: the first part with `pre` in front, the others after a space. */
  lemma {:induction false} SplitJoined(pre: string, ss: seq<string>)
    decreases |ss|
    requires ss != [] && '.' !in pre
    requires forall i :: 0 <= i < |ss| ==> '.' !in ss[i]
    ensures |Split(pre + Join(ss, ". "), '.')| == |ss|
    ensures Split(pre + Join(ss, ". "), '.')[0] == pre + ss[0]
    ensures forall i :: 1 <= i < |ss| ==> Split(pre + Join(ss, ". "), '.')[i] == " " + ss[i]
  {
    if |ss| == 1 {
      SplitWithoutSeparator(pre + ss[0], '.');
    } else {
      var tail := Join(ss[1..], ". ");
      assert pre + Join(ss, ". ") == (pre + ss[0]) + ['.'] + (" " + tail);
      SplitAtSeparator(pre + ss[0], " " + tail, '.');
      SplitJoined(" ", ss[1..]);
    }
  }

  // ---------------------------------------------------------------------------
  // Scene count

  /** The ceiling of `x / 2`, that is `ceil(x * 0.5)`: the least `r` with `x <= 2 * r`. */
  function CeilHalf(x: int): (r: int)
    ensures 2 * r - 1 <= x <= 2 * r
  {
    (x + 1) / 2
  }

  /** `max(3, min(6, ceil(duration_minutes * 1.5)))`, with `ceil(1.5 d) = ceil(3d / 2)`. */
  function SceneCount(durationMinutes: int): (n: int)
    ensures 3 <= n <= 6
  {
    var c := CeilHalf(3 * durationMinutes);
    if c < 3 then 3 else if c > 6 then 6 else c
  }

  /** The scene count, duration by duration: 3 up to two minutes, 5 at three, 6 from four. */
  lemma SceneCountByDuration(d: int)
    ensures d <= 2 ==> SceneCount(d) == 3
    ensures d == 3 ==> SceneCount(d) == 5
    ensures d >= 4 ==> SceneCount(d) == 6
  {
    var c := CeilHalf(3 * d);
    if d <= 2 {
      assert c <= 3;
    } else if d >= 4 {
      assert c >= 6;
    }
  }

  // ---------------------------------------------------------------------------
  // Per-scene templates

  /** `_scene_title(index, arc)`: "Scene N: " and the first three words of the arc, capitalized. */
  function SceneTitle(index: int, arc: string): string {
    "Scene " + IntToString(index + 1) + ": " + Join(CapitalizeAll(Take(Words(arc), 3)), " ")
  }

  /** `_mood_from_arc(arc)`: the first keyword found in the lower-cased arc decides. */
  function MoodFromArc(arc: string): (mood: string)
    ensures mood in ["energetic", "confident", "informative", "encouraging", "uplifting"]
  {
    var lower := Lower(arc);
    if Contains(lower, "hook") then "energetic"
    else if Contains(lower, "promise") then "confident"
    else if Contains(lower, "insight") then "informative"
    else if Contains(lower, "practice") then "encouraging"
    else "uplifting"
  }

  /** `" ".join(sentence.split()[:6])`. */
  function Keywords(sentence: string): string {
    Join(Take(Words(sentence), 6), " ")
  }

  /** The keywords of a sentence are its first six words, and splitting them again gives those words back. */
  lemma KeywordsAreFirstWords(sentence: string)
    ensures Words(Keywords(sentence)) == Take(Words(sentence), 6)
  {
    WordsOfJoin(Take(Words(sentence), 6));
  }

  /** `_thumbnail_from_arc(arc, sentence)`. */
  function ThumbnailFromArc(arc: string, sentence: string): string {
    Strip(Lower(arc) + " featuring " + Keywords(sentence))
  }

  /**
   * Read back word by word, a thumbnail is the words of the lower-cased arc,
   * "featuring", and the first six words of the sentence.
   */
  lemma ThumbnailWords(arc: string, sentence: string)
    ensures Words(ThumbnailFromArc(arc, sentence)) ==
      Words(Lower(arc)) + ["featuring"] + Take(Words(sentence), 6)
  {
    var lower, keywords := Lower(arc), Keywords(sentence);
    assert Words(lower + " featuring " + keywords) == Words(lower) + ["featuring"] + Words(keywords) by {
      FeaturingIsWord();
      WordsAroundWord(lower, "featuring", keywords);
    }
    WordsOfStrip(lower + " featuring " + keywords);
    KeywordsAreFirstWords(sentence);
  }

  /** The word between the arc and the keywords, with the spaces around it. */
  lemma FeaturingIsWord()
    ensures IsWord("featuring") && " featuring " == " " + "featuring" + " "
  {
    assert forall j :: 0 <= j < 9 ==> !IsSpace("featuring"[j]);
  }

  /** `textwrap.fill(text, width)`, which is `"\n".join(textwrap.wrap(text, width))`. */
  function Fill(wrap: Wrapper, text: string, width: nat): string {
    Join(wrap(text, width), "\n")
  }

  /** `_voiceover_from_summary(summary)`: the summary re-wrapped at 80 columns, lines joined by spaces. */
  function VoiceoverFromSummary(wrap: Wrapper, summary: string): string {
    Join(wrap(summary, VoiceoverWidth), " ")
  }

  /** The scene the generator builds at position `index` from an arc and a sentence. */
  function ComposeScene(wrap: Wrapper, index: int, arc: string, sentence: string): Scene {
    var summary := Fill(wrap, arc + ": " + sentence, SummaryWidth);
    Scene(index, SceneTitle(index, arc), summary, Some(VoiceoverFromSummary(wrap, summary)),
          Some(MoodFromArc(arc)), DefaultAspectRatio, Some(ThumbnailFromArc(arc, sentence)))
  }

  // ---------------------------------------------------------------------------
  // ScriptGenerator.generate

  /** Scene `i` of a script for `brief`: arc `i mod 6` and sentence `i mod |sentences|`. */
  function ScenePlan(wrap: Wrapper, sentences: seq<string>, brief: string, i: nat): Scene
  {
    ComposeScene(wrap, i, ArcAt(i), SentenceAt(sentences, brief, i))
  }

  /** The arc the cycle yields on turn `i`. */
  function ArcAt(i: nat): string {
    Arcs[i % |Arcs|]
  }

  /** The sentence scene `i` uses: `sentences[index % len(sentences)]`, or the brief when there are none. */
  function SentenceAt(sentences: seq<string>, brief: string, i: nat): (r: string)
    ensures sentences != [] ==> r in sentences
    ensures sentences == [] ==> r == brief
  {
    if sentences == [] then brief else sentences[i % |sentences|]
  }

  /** Moving one step along the arc cycle keeps its position at the scene index modulo six. */
  lemma NextInCycle(position: int, index: nat)
    requires position == index % |Arcs|
    ensures (position + 1) % |Arcs| == (index + 1) % |Arcs|
  {
    assert |Arcs| == 6;
  }

  /** The scene plan as a function of the position. */
  function Plan(wrap: Wrapper, sentences: seq<string>, brief: string): nat -> Scene
  {
    (i: nat) => ScenePlan(wrap, sentences, brief, i)
  }

  /** What `generate(brief, duration_minutes)` returns. */
  function Script(wrap: Wrapper, brief: string, durationMinutes: int): seq<Scene>
  {
    var sentences := NormalizeSentences(brief);
    Tabulate(Plan(wrap, sentences, brief), SceneCount(durationMinutes))
  }

  /**
   * `ScriptGenerator.generate`: a loop over the scene indices that draws the
   * next arc from a cycle over the arc table on every turn and appends one scene.
   */
  method Generate(wrap: Wrapper, brief: string, durationMinutes: int) returns (scenes: seq<Scene>)
    ensures scenes == Script(wrap, brief, durationMinutes)
  {
    var sentences := NormalizeSentences(brief);
    var numScenes := SceneCount(durationMinutes);
    ghost var plan := Plan(wrap, sentences, brief);
    var cycle := 0;  // position of the arc cycle: the arc `next(template)` yields
    scenes := [];
    for index := 0 to numScenes
      invariant cycle == index % |Arcs|
      invariant scenes == Tabulate(plan, index)
    {
      var arc := Arcs[cycle];
      NextInCycle(cycle, index);
      cycle := (cycle + 1) % |Arcs|;
      var sentence := if |sentences| > 0 then sentences[index % |sentences|] else brief;
      assert arc == ArcAt(index) && sentence == SentenceAt(sentences, brief, index);
      var scene := ComposeScene(wrap, index, arc, sentence);
      assert plan(index) == ScenePlan(wrap, sentences, brief, index);
      TabulateNext(plan, index, scenes, scene);
      scenes := scenes + [scene];
    }
  }

  /** A script has `SceneCount(d)` scenes (between three and six), scene `i` being the plan for position `i`. */
  lemma ScriptScene(wrap: Wrapper, brief: string, d: int, i: nat)
    requires i < SceneCount(d)
    ensures |Script(wrap, brief, d)| == SceneCount(d)
    ensures Script(wrap, brief, d)[i] == ScenePlan(wrap, NormalizeSentences(brief), brief, i)
  {
    TabulateIndex(Plan(wrap, NormalizeSentences(brief), brief), SceneCount(d), i);
  }

  /**
   * Scene `i` of a plan has index `i`, uses arc `i` itself (a script has at
   * most six scenes, so the arc cycle restarts on every call and never wraps)
   * and sentence `i mod |sentences|`.
   */
  lemma ScenePlanAt(wrap: Wrapper, sentences: seq<string>, brief: string, i: nat)
    requires sentences != [] && i < |Arcs|
    ensures ScenePlan(wrap, sentences, brief, i).index == i
    ensures ScenePlan(wrap, sentences, brief, i) == ComposeScene(wrap, i, Arcs[i], sentences[i % |sentences|])
  {
    assert ArcAt(i) == Arcs[i] by {
      assert |Arcs| == 6;
    }
    assert SentenceAt(sentences, brief, i) == sentences[i % |sentences|];
  }

  /**
   * A title reads back as "Scene ", the decimal digits of `index + 1` without
   * leading zeros (as `str` writes them), ": ", and the arc's first three
   * words, capitalized and joined by single spaces.
   */
  lemma SceneTitleParts(index: nat, arc: string)
    ensures exists digits, rest ::
      SceneTitle(index, arc) == "Scene " + digits + ": " + rest &&
      digits != [] && digits[0] != '0' &&
      (forall k :: 0 <= k < |digits| ==> IsDigit(digits[k])) && DigitsValue(digits) == index + 1 &&
      Words(rest) == CapitalizeAll(Take(Words(arc), 3)) && rest == Join(Words(rest), " ")
  {
    var digits := IntToString(index + 1);
    var words := CapitalizeAll(Take(Words(arc), 3));
    var rest := Join(words, " ");
    assert digits == NatToString(index + 1);
    NatToStringValue(index + 1);
    WordsOfJoin(words);
    assert SceneTitle(index, arc) == "Scene " + digits + ": " + rest;
  }

  /** The moods of the six arcs: hook, promise, two insights, practice, and the default. */
  lemma ArcMoods()
    ensures MoodFromArc(Arcs[0]) == "energetic"
    ensures MoodFromArc(Arcs[1]) == "confident"
    ensures MoodFromArc(Arcs[2]) == "informative"
    ensures MoodFromArc(Arcs[3]) == "informative"
    ensures MoodFromArc(Arcs[4]) == "encouraging"
    ensures MoodFromArc(Arcs[5]) == "uplifting"
  {
    HookArcMood();
    PromiseArcMood();
    FirstInsightArcMood();
    SecondInsightArcMood();
    PracticeArcMood();
    CloseArcMood();
  }

  lemma HookArcMood()
    ensures MoodFromArc(Arcs[0]) == "energetic"
  {
    LowerOccurs(Arcs[0], "hook", 0);
  }

  lemma PromiseArcMood()
    ensures MoodFromArc(Arcs[1]) == "confident"
  {
    PromiseArcLacksHook();
    LowerOccurs(Arcs[1], "promise", 17);
  }

  lemma PromiseArcLacksHook()
    ensures !Contains(Lower(Arcs[1]), "hook")
  {
    MissingCharLower(Arcs[1], "hook", 3);
  }

  lemma FirstInsightArcMood()
    ensures MoodFromArc(Arcs[2]) == "informative"
  {
    FirstInsightArcLacksHook();
    FirstInsightArcLacksPromise();
    LowerOccurs(Arcs[2], "insight", 22);
  }

  lemma FirstInsightArcLacksHook()
    ensures !Contains(Lower(Arcs[2]), "hook")
  {
    MissingCharLower(Arcs[2], "hook", 1);
  }

  lemma FirstInsightArcLacksPromise()
    ensures !Contains(Lower(Arcs[2]), "promise")
  {
    MissingCharLower(Arcs[2], "promise", 0);
  }

  lemma SecondInsightArcMood()
    ensures MoodFromArc(Arcs[3]) == "informative"
  {
    SecondInsightArcLacksHook();
    SecondInsightArcLacksPromise();
    LowerOccurs(Arcs[3], "insight", 21);
  }

  lemma SecondInsightArcLacksHook()
    ensures !Contains(Lower(Arcs[3]), "hook")
  {
    MissingPairLower(Arcs[3], "hook", 0);
  }

  lemma SecondInsightArcLacksPromise()
    ensures !Contains(Lower(Arcs[3]), "promise")
  {
    MissingCharLower(Arcs[3], "promise", 0);
  }

  lemma PracticeArcMood()
    ensures MoodFromArc(Arcs[4]) == "encouraging"
  {
    PracticeArcLacksHook();
    PracticeArcLacksPromise();
    PracticeArcLacksInsight();
    LowerOccurs(Arcs[4], "practice", 35);
  }

  lemma PracticeArcLacksHook()
    ensures !Contains(Lower(Arcs[4]), "hook")
  {
    MissingCharLower(Arcs[4], "hook", 3);
  }

  lemma PracticeArcLacksPromise()
    ensures !Contains(Lower(Arcs[4]), "promise")
  {
    MissingCharLower(Arcs[4], "promise", 3);
  }

  lemma PracticeArcLacksInsight()
    ensures !Contains(Lower(Arcs[4]), "insight")
  {
    MissingCharLower(Arcs[4], "insight", 2);
  }

  lemma CloseArcMood()
    ensures MoodFromArc(Arcs[5]) == "uplifting"
  {
    CloseArcLacksHook();
    CloseArcLacksPromise();
    CloseArcLacksInsight();
    CloseArcLacksPractice();
  }

  lemma CloseArcLacksHook()
    ensures !Contains(Lower(Arcs[5]), "hook")
  {
    MissingPairLower(Arcs[5], "hook", 0);
  }

  lemma CloseArcLacksPromise()
    ensures !Contains(Lower(Arcs[5]), "promise")
  {
    MissingCharLower(Arcs[5], "promise", 0);
  }

  lemma CloseArcLacksInsight()
    ensures !Contains(Lower(Arcs[5]), "insight")
  {
    MissingCharLower(Arcs[5], "insight", 1);
  }

  lemma CloseArcLacksPractice()
    ensures !Contains(Lower(Arcs[5]), "practice")
  {
    MissingCharLower(Arcs[5], "practice", 0);
  }

  // ---------------------------------------------------------------------------
  // StoryboardDesigner

  /** `_shot_suggestion(index)`: `options[index % 5]`, never negative in Python or here. */
  function ShotSuggestion(index: int): (r: string)
    ensures r in ShotOptions
  {
    ShotOptions[index % |ShotOptions|]
  }

  /** "16:9" for an even index, "9:16" for an odd one. */
  function AspectRatioFor(index: int): (r: string)
    ensures r == "16:9" <==> index % 2 == 0
    ensures r == "16:9" || r == "9:16"
  {
    if index % 2 == 0 then "16:9" else "9:16"
  }

  /** `scene.thumbnail_description or ""`: a missing thumbnail reads as empty. */
  function OldThumbnail(s: Scene): string {
    match s.thumbnailDescription case Some(t) => t case None => ""
  }

  /** The scene `design` builds from one input scene. */
  function DesignScene(s: Scene): Scene {
    s.(aspectRatio := AspectRatioFor(s.index),
       thumbnailDescription := Some(Strip(OldThumbnail(s) + ShotPrefix + ShotSuggestion(s.index))))
  }

  /** What `design(scenes)` returns: the designed copies of the scenes, in order. */
  function Storyboard(scenes: seq<Scene>): (r: seq<Scene>)
    ensures |r| == |scenes|
  {
    MapAt(DesignScene, scenes);
    Map(DesignScene, scenes)
  }

  /** `StoryboardDesigner.design`: a loop that appends one designed copy per input scene. */
  method Design(scenes: seq<Scene>) returns (designed: seq<Scene>)
    ensures designed == Storyboard(scenes)
  {
    designed := [];
    for i := 0 to |scenes|
      invariant designed == Map(DesignScene, scenes[..i])
    {
      MapPrefix(DesignScene, scenes, i);
      designed := designed + [DesignScene(scenes[i])];
    }
    MapWhole(DesignScene, scenes);
  }

  /** Every shot suggestion is a non-empty stripped phrase. */
  lemma ShotSuggestionStripped(index: int)
    ensures ShotSuggestion(index) != [] && Stripped(ShotSuggestion(index))
  {
    var k := index % |ShotOptions|;
    assert 0 <= k < 5;
    if k == 0 {
      assert ShotOptions[0][|ShotOptions[0]| - 1] == 'g';
    } else if k == 1 {
      assert ShotOptions[1][|ShotOptions[1]| - 1] == 'n';
    } else if k == 2 {
      assert ShotOptions[2][|ShotOptions[2]| - 1] == 'n';
    } else if k == 3 {
      assert ShotOptions[3][|ShotOptions[3]| - 1] == 'g';
    } else {
      assert ShotOptions[4][|ShotOptions[4]| - 1] == 'y';
    }
  }

  /**
   * `d` is what `design` makes of `s`: the same scene apart from the framing,
   * "16:9" exactly for an even index, and a stripped thumbnail that ends with
   * the index's shot suggestion. With `t` the old thumbnail (empty when there
   * was none), the new one is `t` without its leading whitespace, then
   * " | Shot suggestion: " and the suggestion; when `t` is blank only
   * "| Shot suggestion: " and the suggestion are left. A stripped non-empty
   * old thumbnail is therefore kept whole in front.
   */
  predicate Designs(d: Scene, s: Scene) {
    && d.index == s.index && d.title == s.title && d.summary == s.summary
    && d.voiceover == s.voiceover && d.mood == s.mood
    && (d.aspectRatio == "16:9" <==> s.index % 2 == 0)
    && (d.aspectRatio == "16:9" || d.aspectRatio == "9:16")
    && d.thumbnailDescription.Some?
    && Stripped(d.thumbnailDescription.value)
    && EndsWith(d.thumbnailDescription.value, ShotSuggestion(s.index))
    && (!Blank(OldThumbnail(s)) ==>
          d.thumbnailDescription.value == StripLeft(OldThumbnail(s)) + ShotPrefix + ShotSuggestion(s.index))
    && (Blank(OldThumbnail(s)) ==>
          d.thumbnailDescription.value == ShotPrefix[1..] + ShotSuggestion(s.index))
    && (s.thumbnailDescription.Some? && s.thumbnailDescription.value != [] && Stripped(s.thumbnailDescription.value) ==>
          d.thumbnailDescription.value == s.thumbnailDescription.value + ShotPrefix + ShotSuggestion(s.index))
  }

  /** After a thumbnail with some visible text, only its leading whitespace goes. */
  lemma DesignedAfterText(t: string, suggestion: string)
    requires !Blank(t) && suggestion != [] && Stripped(suggestion)
    ensures Strip(t + ShotPrefix + suggestion) == StripLeft(t) + ShotPrefix + suggestion
  {
    StripOfTail(t + ShotPrefix, suggestion);
    StripLeftAppend(t, ShotPrefix);
  }

  /** After a blank thumbnail, the separator's own leading space goes too. */
  lemma DesignedAfterBlank(t: string, suggestion: string)
    requires Blank(t) && suggestion != [] && Stripped(suggestion)
    ensures Strip(t + ShotPrefix + suggestion) == ShotPrefix[1..] + suggestion
  {
    StripOfTail(t + ShotPrefix, suggestion);
    StripLeadingSpace(t, ShotPrefix);
    ShotPrefixStripLeft();
  }

  /** The separator loses exactly its one leading space to `lstrip`. */
  lemma ShotPrefixStripLeft()
    ensures StripLeft(ShotPrefix) == ShotPrefix[1..]
  {
    assert ShotPrefix[0] == ' ' && ShotPrefix[1] == '|';
    StripLeftOneSpace(ShotPrefix);
  }

  /** One designed scene meets `Designs`. */
  lemma DesignSceneDesigns(s: Scene)
    ensures Designs(DesignScene(s), s)
  {
    var thumbnail := OldThumbnail(s);
    var suggestion := ShotSuggestion(s.index);
    ShotSuggestionStripped(s.index);
    StripKeepsTail(thumbnail + ShotPrefix, suggestion);
    if Blank(thumbnail) {
      DesignedAfterBlank(thumbnail, suggestion);
    } else {
      DesignedAfterText(thumbnail, suggestion);
    }
    if s.thumbnailDescription.Some? && thumbnail != [] && Stripped(thumbnail) {
      assert StripLeft(thumbnail) == thumbnail;
    }
  }

  /** `design` keeps the number and order of the scenes, and designs each one. */
  lemma StoryboardDesigns(scenes: seq<Scene>)
    ensures |Storyboard(scenes)| == |scenes|
    ensures forall i :: 0 <= i < |scenes| ==> Designs(Storyboard(scenes)[i], scenes[i])
  {
    MapAt(DesignScene, scenes);
    forall i | 0 <= i < |scenes| ensures Designs(Storyboard(scenes)[i], scenes[i]) {
      DesignSceneDesigns(scenes[i]);
    }
  }

  /**
   * Designing twice keeps the framing but appends a second shot suggestion,
   * so `design` is not idempotent.
   */
  lemma DesignTwice(s: Scene)
    ensures DesignScene(DesignScene(s)).aspectRatio == DesignScene(s).aspectRatio
    ensures DesignScene(DesignScene(s)).thumbnailDescription ==
      Some(DesignScene(s).thumbnailDescription.value + ShotPrefix + ShotSuggestion(s.index))
    ensures DesignScene(DesignScene(s)) != DesignScene(s)
  {
    var once := DesignScene(s);
    DesignSceneDesigns(s);
    ShotSuggestionStripped(s.index);
    DesignSceneDesigns(once);
    assert |once.thumbnailDescription.value| >= |ShotSuggestion(s.index)| > 0;
    var twice := DesignScene(once).thumbnailDescription.value;
    assert |twice| > |once.thumbnailDescription.value|;
  }

}
