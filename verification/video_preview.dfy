/** The looping preview player (components/video-preview.tsx): the scenes it shows,
    in timeline order, and the timer that advances the active scene. */
module VideoPreview {
  import opened Types
  import Timeline

  /** `Object.fromEntries(scenes.map((scene) => [scene.id, scene]))[id]`: a later
      scene with the same id overwrites an earlier one, so this is the last scene
      carrying the id. */
  function LookupLast(scenes: seq<Scene>, id: string): (r: Option<Scene>)
    ensures r.Some? ==> r.value in scenes && r.value.id == id
    ensures r.None? <==> forall k :: 0 <= k < |scenes| ==> scenes[k].id != id
    decreases |scenes|
  {
    if |scenes| == 0 then None
    else if scenes[|scenes| - 1].id == id then Some(scenes[|scenes| - 1])
    else
      var r := LookupLast(scenes[..|scenes| - 1], id);
      assert forall k :: 0 <= k < |scenes| - 1 ==> scenes[k] == scenes[..|scenes| - 1][k];
      r
  }

  /** With distinct ids, the lookup finds the one scene carrying the id. */
  lemma {:induction false} LookupLastUnique(scenes: seq<Scene>, k: nat)
    requires Timeline.UniqueIds(scenes) && k < |scenes|
    ensures LookupLast(scenes, scenes[k].id) == Some(scenes[k])
    decreases |scenes|
  {
    if k < |scenes| - 1 {
      var front := scenes[..|scenes| - 1];
      assert front[k] == scenes[k];
      LookupLastUnique(front, k);
    }
  }

  /** With several scenes carrying the id, the lookup finds the last of them. */
  lemma {:induction false} LookupLastIsLast(scenes: seq<Scene>, id: string, k: nat)
    requires k < |scenes| && scenes[k].id == id
    requires forall j :: k < j < |scenes| ==> scenes[j].id != id
    ensures LookupLast(scenes, id) == Some(scenes[k])
    decreases |scenes|
  {
    if k < |scenes| - 1 {
      var front := scenes[..|scenes| - 1];
      assert front[k] == scenes[k];
      assert forall j :: k < j < |front| ==> front[j] == scenes[j];
      LookupLastIsLast(front, id, k);
    }
  }

  /** The scenes of the timeline entries whose id is known, in entry order; entries
      with unknown ids are dropped (`.filter(Boolean)`). */
  function Project(scenes: seq<Scene>, entries: seq<TimelineEntry>): (r: seq<Scene>)
    ensures |r| <= |entries|
    ensures forall s :: s in r ==> s in scenes
    ensures |r| == |entries| <==> forall i :: 0 <= i < |entries| ==> LookupLast(scenes, entries[i].sceneId).Some?
    decreases |entries|
  {
    if |entries| == 0 then []
    else
      var rest := Project(scenes, entries[1..]);
      assert forall i :: 1 <= i < |entries| ==> entries[i] == entries[1..][i - 1];
      match LookupLast(scenes, entries[0].sceneId)
      case Some(s) => [s] + rest
      case None => rest
  }

  /** Projection keeps the timeline's order: it works entry by entry. */
  lemma {:induction false} ProjectDistributes(scenes: seq<Scene>, a: seq<TimelineEntry>, b: seq<TimelineEntry>)
    ensures Project(scenes, a + b) == Project(scenes, a) + Project(scenes, b)
    decreases |a|
  {
    if |a| > 0 {
      assert (a + b)[0] == a[0] && (a + b)[1..] == a[1..] + b;
      ProjectDistributes(scenes, a[1..], b);
    } else {
      assert a + b == b;
    }
  }

  /** One entry projects to its scene, or to nothing when the id is unknown. */
  lemma ProjectSingle(scenes: seq<Scene>, e: TimelineEntry)
    ensures LookupLast(scenes, e.sceneId).Some? ==> Project(scenes, [e]) == [LookupLast(scenes, e.sceneId).value]
    ensures LookupLast(scenes, e.sceneId).None? ==> Project(scenes, [e]) == []
  {
    assert [e][1..] == [];
  }

  /** Only the entries' ids matter: timing (start/end) never changes the order. */
  lemma {:induction false} ProjectIgnoresTiming(scenes: seq<Scene>, e1: seq<TimelineEntry>, e2: seq<TimelineEntry>)
    requires |e1| == |e2|
    requires forall i :: 0 <= i < |e1| ==> e1[i].sceneId == e2[i].sceneId
    ensures Project(scenes, e1) == Project(scenes, e2)
    decreases |e1|
  {
    if |e1| > 0 {
      ProjectIgnoresTiming(scenes, e1[1..], e2[1..]);
    }
  }

  /** A timeline that lists the scenes' distinct ids in scene order shows the
      scenes exactly as given. */
  lemma {:induction false} ProjectOwnTimeline(scenes: seq<Scene>, entries: seq<TimelineEntry>)
    requires Timeline.UniqueIds(scenes)
    requires |entries| == |scenes|
    requires forall i :: 0 <= i < |entries| ==> entries[i].sceneId == scenes[i].id
    ensures Project(scenes, entries) == scenes
  {
    if |entries| > 0 {
      var n := |entries| - 1;
      assert entries == entries[..n] + [entries[n]];
      ProjectDistributes(scenes, entries[..n], [entries[n]]);
      LookupLastUnique(scenes, n);
      ProjectSingle(scenes, entries[n]);
      forall k | 0 <= k < n ensures LookupLast(scenes, entries[k].sceneId).Some? {
        LookupLastUnique(scenes, k);
      }
      ProjectPrefix(scenes, entries, n);
      assert scenes == scenes[..n] + [scenes[n]];
    }
  }

  /** The first `n` entries, all known and matching the first `n` scenes, project
      to those scenes. */
  lemma {:induction false} ProjectPrefix(scenes: seq<Scene>, entries: seq<TimelineEntry>, n: nat)
    requires Timeline.UniqueIds(scenes)
    requires n <= |entries| && n <= |scenes|
    requires forall i :: 0 <= i < n ==> entries[i].sceneId == scenes[i].id
    ensures Project(scenes, entries[..n]) == scenes[..n]
    decreases n
  {
    if n > 0 {
      var m := n - 1;
      assert entries[..n] == entries[..m] + [entries[m]];
      ProjectDistributes(scenes, entries[..m], [entries[m]]);
      ProjectPrefix(scenes, entries, m);
      LookupLastUnique(scenes, m);
      ProjectSingle(scenes, entries[m]);
      assert scenes[..n] == scenes[..m] + [scenes[m]];
    }
  }

  /** `orderedScenes`: the scenes as given when there is no video plan, otherwise
      the projection of the plan's timeline. */
  function OrderedScenes(scenes: seq<Scene>, plan: Option<VideoPlan>): (r: seq<Scene>)
    ensures plan.None? ==> r == scenes
    ensures plan.Some? ==> |r| <= |plan.value.timeline| && forall s :: s in r ==> s in scenes
    ensures plan.Some? ==> r == Project(scenes, plan.value.timeline)
  {
    match plan
    case None => scenes
    case Some(v) => Project(scenes, v.timeline)
  }

  /** `(prev + 1) % orderedScenes.length`; `prev` may be stale (at or past the end
      of a list that shrank) and is still brought back in range. */
  function NextIndex(prev: nat, n: nat): (r: nat)
    requires n > 0
    ensures r < n
    ensures prev + 1 < n ==> r == prev + 1
    ensures prev + 1 == n ==> r == 0
  {
    (prev + 1) % n
  }

  /** The active index after `k` timer ticks. */
  function AdvanceBy(active: nat, k: nat, n: nat): nat
    requires n > 0
    decreases k
  {
    if k == 0 then active else NextIndex(AdvanceBy(active, k - 1, n), n)
  }

  /** Within one round of `n` ticks from an in-range index the preview walks
      forward one scene per tick and wraps to 0 after the last scene. */
  lemma {:induction false} AdvanceWithinCycle(active: nat, k: nat, n: nat)
    requires active < n && k <= n
    ensures AdvanceBy(active, k, n) == if active + k < n then active + k else active + k - n
    decreases k
  {
    if k > 0 {
      AdvanceWithinCycle(active, k - 1, n);
    }
  }

  /** `n` ticks from an in-range index come back to it. */
  lemma FullCycle(active: nat, n: nat)
    requires active < n
    ensures AdvanceBy(active, n, n) == active
  {
    AdvanceWithinCycle(active, n, n);
  }

  /** The dwell time of the active scene: its duration in milliseconds when the
      index is in range and the duration is nonzero, otherwise 5000 ms. */
  function DwellMs(ordered: seq<Scene>, active: nat): (ms: int)
    ensures active < |ordered| && ordered[active].durationSec != 0 ==> ms == ordered[active].durationSec * 1000
    ensures active >= |ordered| || ordered[active].durationSec == 0 ==> ms == 5000
  {
    if active < |ordered| && ordered[active].durationSec != 0 then ordered[active].durationSec * 1000 else 5000
  }

  /** The time the preview spends on scenes `i`, `i + 1`, ... to the end. */
  function LoopDwellMs(ordered: seq<Scene>, i: nat): int
    decreases |ordered| - i
  {
    if i >= |ordered| then 0 else DwellMs(ordered, i) + LoopDwellMs(ordered, i + 1)
  }

  /** When every scene has a positive duration, playing the scenes from `i` to the end
      takes exactly their summed durations, in milliseconds; a full loop from 0
      takes the whole storyboard's running time. */
  lemma {:induction false} LoopTakesSummedDurations(ordered: seq<Scene>, i: nat)
    requires i <= |ordered|
    requires forall k :: 0 <= k < |ordered| ==> ordered[k].durationSec > 0
    ensures LoopDwellMs(ordered, i) == 1000 * Timeline.SumDurations(ordered[i..])
    decreases |ordered| - i
  {
    if i < |ordered| {
      LoopTakesSummedDurations(ordered, i + 1);
      assert ordered[i..][0] == ordered[i] && ordered[i..][1..] == ordered[i + 1..];
    } else {
      assert ordered[i..] == [];
    }
  }

  /** What the preview schedules: nothing for an empty list, otherwise a timer of
      the active scene's dwell time that moves to the next index. */
  datatype Timer = NoTimer | Every(delayMs: int, nextIndex: nat)

  function Schedule(ordered: seq<Scene>, active: nat): (t: Timer)
    ensures t.NoTimer? <==> |ordered| == 0
    ensures t.Every? ==> t.nextIndex < |ordered| && t.delayMs == DwellMs(ordered, active)
    ensures t.Every? ==> t.nextIndex == NextIndex(active, |ordered|)
    ensures t.Every? && active < |ordered| && ordered[active].durationSec > 0 ==> t.delayMs >= 1000
  {
    if |ordered| == 0 then NoTimer else Every(DwellMs(ordered, active), NextIndex(active, |ordered|))
  }
}
