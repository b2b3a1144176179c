/** The timeline panel (components/pipeline-timeline.tsx): whether it renders, and
    the bounds of each scene's duration slider. */
module PipelineTimeline {
  import opened Types

  /** `Math.max(...scenes.map((scene) => scene.durationSec))` */
  function MaxDuration(scenes: seq<Scene>): (m: int)
    requires |scenes| > 0
    ensures forall i :: 0 <= i < |scenes| ==> scenes[i].durationSec <= m
    ensures exists i :: 0 <= i < |scenes| && scenes[i].durationSec == m
    decreases |scenes|
  {
    if |scenes| == 1 then scenes[0].durationSec
    else
      var rest := MaxDuration(scenes[1..]);
      assert forall i :: 1 <= i < |scenes| ==> scenes[i] == scenes[1..][i - 1];
      if scenes[0].durationSec >= rest then scenes[0].durationSec else rest
  }

  datatype Slider = Slider(min: int, max: int, step: int)

  /** The slider every scene row uses, or nothing when the panel does not render
      (no video plan, or no scenes — which also keeps `Math.max` off an empty
      list). The bounds are min 4, step 1, max `max(10, longest + 4)`. */
  function SliderFor(scenes: seq<Scene>, plan: Option<VideoPlan>): (r: Option<Slider>)
    ensures r.None? <==> plan.None? || |scenes| == 0
    ensures r.Some? ==> r.value.min == 4 && r.value.step == 1
    ensures r.Some? ==> r.value.max >= 10
    ensures r.Some? ==> forall i :: 0 <= i < |scenes| ==> scenes[i].durationSec + 4 <= r.value.max
    ensures r.Some? ==> r.value.max == 10 || exists i :: 0 <= i < |scenes| && r.value.max == scenes[i].durationSec + 4
  {
    if plan.None? || |scenes| == 0 then None
    else
      var longest := MaxDuration(scenes);
      Some(Slider(4, if 10 >= longest + 4 then 10 else longest + 4, 1))
  }

  /** Every scene's current duration lies strictly below the slider's maximum. */
  lemma SliderMaxAboveEveryDuration(scenes: seq<Scene>, plan: Option<VideoPlan>)
    requires plan.Some? && |scenes| > 0
    ensures forall i :: 0 <= i < |scenes| ==> scenes[i].durationSec < SliderFor(scenes, plan).value.max
  {
  }
}
