/** The records an agentic storyboard is made of, as the web client holds them.
    Every record is an immutable value; an edit builds a new one. */
module Types {

  /** `T | null` / `T | undefined` of the client code. */
  datatype Option<+T> = None | Some(value: T)

  /** `a ?? fallback`, and one field of the spread `{ ...current, ...update }`:
      the supplied value when there is one, otherwise `fallback`. */
  function GetOr<T>(a: Option<T>, fallback: T): T {
    if a.Some? then a.value else fallback
  }

  /** One narrative beat produced by the storyboard compiler. */
  datatype Scene = Scene(
    id: string,
    title: string,
    overlayText: string,
    voiceover: string,
    durationSec: int,
    transition: string,
    imageUrl: string)

  /** A scene's place on the single video track (seconds). */
  datatype TimelineEntry = TimelineEntry(sceneId: string, start: int, end: int)

  /** The video assembly plan. The client calls the entry list `scenes`;
      here it is `timeline` to keep it apart from the storyboard's scenes. */
  datatype VideoPlan = VideoPlan(aspectRatio: string, totalDurationSec: int, timeline: seq<TimelineEntry>)

  datatype Segment = Segment(sceneId: string, text: string)

  datatype VoicePlan = VoicePlan(narrationStyle: string, speechRate: real, pitch: real, segments: seq<Segment>)

  datatype Status = Draft | Scheduled | Posted

  /** One platform's publishing plan. */
  datatype Plan = Plan(
    platform: string,
    caption: string,
    hashtags: seq<string>,
    idealPostTime: string,
    toneGuidance: string,
    status: Status)

  /** The whole storyboard returned by the pipeline. */
  datatype Storyboard = Storyboard(
    scenes: seq<Scene>,
    video: VideoPlan,
    voice: VoicePlan,
    distribution: seq<Plan>)
}
