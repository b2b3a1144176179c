/** The authoring form (components/pipeline-form.tsx): its initial state, the
    platform toggle, and the payload it submits to the pipeline endpoint. */
module PipelineForm {
  import opened Types
  import opened PipelineRoute

  const MoodOptions: seq<string> := ["cinematic", "documentary", "playful", "futuristic", "minimal"]
  const PersonaOptions: seq<string> := ["warm_narrator", "energetic_host", "documentarian", "calm_mentor", "dramatic_actor"]
  const AspectRatioOptions: seq<string> := ["16:9", "9:16", "1:1"]
  const PlatformPresets: seq<string> := ["youtube", "instagram", "tiktok", "linkedin", "twitter"]

  /** The built-in sample script the form can submit instead of the typed text. */
  const SampleScript: string :=
    "We just launched Aurora, "
    + "a personal AI companion designed to help creators storyboard and produce daily content.\n"
    + "\n"
    + "Scene 1: Introduce Aurora responding to a quick voice prompt, assembling a shot list in seconds.\n"
    + "Scene 2: Show the agent remixing brand assets into vertical and horizontal layouts.\n"
    + "Scene 3: Aurora suggests trending hooks and social captions tailor-made for each platform.\n"
    + "Scene 4: Reveal the auto-scheduler kicking posts to YouTube Shorts, TikTok, and Instagram Reels with one approval.\n"
    + "Scene 5: Close on the creator reviewing analytics while Aurora lines up tomorrow's ideas."

  datatype FormState = FormState(
    script: string,
    preferredMood: string,
    voicePersona: string,
    aspectRatio: string,
    targetPlatforms: seq<string>,
    useSample: bool)

  /** The state the form starts in. */
  function InitialForm(): (f: FormState)
    ensures f.targetPlatforms == ["youtube", "instagram"]
    ensures f.preferredMood == "cinematic" && f.voicePersona == "warm_narrator" && f.aspectRatio == "16:9"
    ensures f.script == "" && !f.useSample
    ensures f.preferredMood in MoodOptions && f.voicePersona in PersonaOptions && f.aspectRatio in AspectRatioOptions
    ensures forall p :: p in f.targetPlatforms ==> p in PlatformPresets
  {
    FormState("", MoodOptions[0], PersonaOptions[0], AspectRatioOptions[0], PlatformPresets[..2], false)
  }

  /** `current.filter((item) => item !== platform)` */
  function RemoveAll(xs: seq<string>, p: string): (r: seq<string>)
    ensures p !in r
    ensures forall x {:trigger multiset(r)[x]} :: x != p ==> multiset(r)[x] == multiset(xs)[x]
    ensures |r| == |xs| - multiset(xs)[p]
    decreases |xs|
  {
    if |xs| == 0 then []
    else
      assert xs == [xs[0]] + xs[1..];
      (if xs[0] == p then [] else [xs[0]]) + RemoveAll(xs[1..], p)
  }

  /** Removal keeps the order of what remains: it works piece by piece. */
  lemma {:induction false} RemoveAllDistributes(a: seq<string>, b: seq<string>, p: string)
    ensures RemoveAll(a + b, p) == RemoveAll(a, p) + RemoveAll(b, p)
    decreases |a|
  {
    if |a| > 0 {
      var head := if a[0] == p then [] else [a[0]];
      assert (a + b)[0] == a[0] && (a + b)[1..] == a[1..] + b;
      assert RemoveAll(a + b, p) == head + RemoveAll(a[1..] + b, p);
      assert RemoveAll(a, p) == head + RemoveAll(a[1..], p);
      RemoveAllDistributes(a[1..], b, p);
      assert head + (RemoveAll(a[1..], p) + RemoveAll(b, p)) == (head + RemoveAll(a[1..], p)) + RemoveAll(b, p);
    } else {
      assert a + b == b;
    }
  }

  /** Removing an element that does not occur changes nothing. */
  lemma {:induction false} RemoveAbsent(xs: seq<string>, p: string)
    requires p !in xs
    ensures RemoveAll(xs, p) == xs
    decreases |xs|
  {
    if |xs| > 0 {
      RemoveAbsent(xs[1..], p);
      assert xs == [xs[0]] + xs[1..];
    }
  }

  /** togglePlatform: removes every occurrence of a listed platform, appends an
      unlisted one at the end. */
  function Toggle(current: seq<string>, p: string): (r: seq<string>)
    ensures p in r <==> p !in current
    ensures forall x {:trigger multiset(r)[x]} :: x != p ==> multiset(r)[x] == multiset(current)[x]
    ensures p !in current ==> |r| == |current| + 1 && r[..|current|] == current && r[|current|] == p
    ensures p in current ==> |r| == |current| - multiset(current)[p]
    ensures p in current ==> r == RemoveAll(current, p)
  {
    if p in current then RemoveAll(current, p) else current + [p]
  }

  /** Toggling an unlisted platform twice gives back the original list. */
  lemma ToggleTwiceRestores(current: seq<string>, p: string)
    requires p !in current
    ensures Toggle(Toggle(current, p), p) == current
  {
    RemoveAllDistributes(current, [p], p);
    RemoveAbsent(current, p);
    assert RemoveAll([p], p) == [];
  }

  /** Toggling a listed platform twice moves it, once, to the end. */
  lemma ToggleTwiceMovesToEnd(current: seq<string>, p: string)
    requires p in current
    ensures Toggle(Toggle(current, p), p) == RemoveAll(current, p) + [p]
  {
  }

  predicate NoDuplicates(xs: seq<string>) {
    forall i, j :: 0 <= i < j < |xs| ==> xs[i] != xs[j]
  }

  /** Removing every occurrence of one element keeps a duplicate-free list duplicate-free. */
  lemma {:induction false} RemoveAllKeepsNoDuplicates(xs: seq<string>, p: string)
    requires NoDuplicates(xs)
    ensures NoDuplicates(RemoveAll(xs, p))
    decreases |xs|
  {
    if |xs| > 0 {
      var rest := RemoveAll(xs[1..], p);
      RemoveAllKeepsNoDuplicates(xs[1..], p);
      if xs[0] != p {
        assert xs[0] !in xs[1..] by {
          forall k | 0 <= k < |xs[1..]| ensures xs[1..][k] != xs[0] { assert xs[1..][k] == xs[k + 1]; }
        }
        assert multiset(xs[1..])[xs[0]] == 0;
        assert xs[0] !in rest by { assert multiset(rest)[xs[0]] == 0; }
        var r := [xs[0]] + rest;
        forall i, j | 0 <= i < j < |r| ensures r[i] != r[j] {
          if i == 0 { assert r[j] == rest[j - 1]; } else { assert r[i] == rest[i - 1] && r[j] == rest[j - 1]; }
        }
      }
    }
  }

  /** Toggling keeps a duplicate-free list duplicate-free. */
  lemma ToggleKeepsNoDuplicates(current: seq<string>, p: string)
    requires NoDuplicates(current)
    ensures NoDuplicates(Toggle(current, p))
  {
    if p in current {
      RemoveAllKeepsNoDuplicates(current, p);
    }
  }

  /** The script the form submits: the sample when sample mode is on, otherwise
      the typed text. */
  function SubmittedScript(f: FormState): (s: string)
    ensures f.useSample ==> s == SampleScript
    ensures !f.useSample ==> s == f.script
  {
    if f.useSample then SampleScript else f.script
  }

  /** handleSubmit: the request body the form sends. Every field is present, so
      the payload the endpoint builds from it is the form's own values, with no
      default filled in. */
  function SubmitBody(f: FormState): (b: Body)
    ensures b.Fields? && b.fields.script == Some(SubmittedScript(f))
    ensures Payload(b.fields)
      == PipelineInput(SubmittedScript(f), f.targetPlatforms, f.preferredMood, f.voicePersona, f.aspectRatio)
  {
    Fields(RequestFields(Some(SubmittedScript(f)), Some(f.targetPlatforms), Some(f.preferredMood),
                         Some(f.voicePersona), Some(f.aspectRatio)))
  }

  /** The sample script is never blank. */
  lemma SampleScriptNotBlank()
    ensures !AllWhitespace(SampleScript)
  {
    assert SampleScript[0] == "We just launched Aurora, "[0] == 'W';
  }

  /** A form submission never falls back on the endpoint's defaults: the compiler
      receives the form's own platforms (even none), mood, persona and ratio, and
      the script untrimmed. In sample mode the submission is always accepted. */
  lemma SubmissionReachesCompiler(f: FormState, process: PipelineInput -> ProcessResult)
    requires f.useSample || !AllWhitespace(f.script)
    ensures var input := PipelineInput(SubmittedScript(f), f.targetPlatforms, f.preferredMood, f.voicePersona, f.aspectRatio);
      match process(input)
      case Produced(sb) => Post(SubmitBody(f), process) == Reply(sb)
      case Threw => Post(SubmitBody(f), process) == ErrorReply(500, "Failed to run pipeline.")
  {
    if f.useSample { SampleScriptNotBlank(); }
    var input := PipelineInput(SubmittedScript(f), f.targetPlatforms, f.preferredMood, f.voicePersona, f.aspectRatio);
    assert SubmitBody(f).fields.script == Some(SubmittedScript(f));
    assert Payload(SubmitBody(f).fields) == input;
  }

  /** A blank typed script, outside sample mode, is refused before compilation. */
  lemma BlankTypedScriptRefused(f: FormState, process: PipelineInput -> ProcessResult)
    requires !f.useSample && AllWhitespace(f.script)
    ensures Post(SubmitBody(f), process) == ErrorReply(400, "Script is required.")
  {
  }
}
