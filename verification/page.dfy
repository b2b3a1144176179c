/** The storyboard page's edit reducers (app/page.tsx). Each takes the current
    storyboard, which may be absent, and returns the next one; an absent storyboard
    is returned unchanged. */
module Page {
  import opened Types
  import opened Timeline

  /** `Partial<SceneBlueprint>`: the fields a scene edit supplies. */
  datatype SceneUpdate = SceneUpdate(
    id: Option<string>,
    title: Option<string>,
    overlayText: Option<string>,
    voiceover: Option<string>,
    durationSec: Option<int>,
    transition: Option<string>,
    imageUrl: Option<string>)

  /** `Partial<PlatformPublishingPlan>`: the fields a plan edit supplies. */
  datatype PlanUpdate = PlanUpdate(
    platform: Option<string>,
    caption: Option<string>,
    hashtags: Option<seq<string>>,
    idealPostTime: Option<string>,
    toneGuidance: Option<string>,
    status: Option<Status>)

  /** A plan edit that supplies no field; `NoPlanFields.(status := Some(s))` supplies one. */
  const NoPlanFields: PlanUpdate := PlanUpdate(None, None, None, None, None, None)

  /** `{ ...scene, ...updates }`: every field the edit supplies overrides the
      scene's, every field it leaves out keeps the scene's value. */
  function MergeScene(s: Scene, u: SceneUpdate): (r: Scene)
    ensures (u.id.Some? ==> r.id == u.id.value) && (u.id.None? ==> r.id == s.id)
    ensures (u.title.Some? ==> r.title == u.title.value) && (u.title.None? ==> r.title == s.title)
    ensures (u.overlayText.Some? ==> r.overlayText == u.overlayText.value) && (u.overlayText.None? ==> r.overlayText == s.overlayText)
    ensures (u.voiceover.Some? ==> r.voiceover == u.voiceover.value) && (u.voiceover.None? ==> r.voiceover == s.voiceover)
    ensures (u.durationSec.Some? ==> r.durationSec == u.durationSec.value) && (u.durationSec.None? ==> r.durationSec == s.durationSec)
    ensures (u.transition.Some? ==> r.transition == u.transition.value) && (u.transition.None? ==> r.transition == s.transition)
    ensures (u.imageUrl.Some? ==> r.imageUrl == u.imageUrl.value) && (u.imageUrl.None? ==> r.imageUrl == s.imageUrl)
  {
    Scene(GetOr(u.id, s.id), GetOr(u.title, s.title), GetOr(u.overlayText, s.overlayText),
          GetOr(u.voiceover, s.voiceover), GetOr(u.durationSec, s.durationSec),
          GetOr(u.transition, s.transition), GetOr(u.imageUrl, s.imageUrl))
  }

  /** `{ ...plan, ...updates }`: every field the edit supplies overrides the
      plan's, every field it leaves out keeps the plan's value. */
  function MergePlan(p: Plan, u: PlanUpdate): (r: Plan)
    ensures (u.platform.Some? ==> r.platform == u.platform.value) && (u.platform.None? ==> r.platform == p.platform)
    ensures (u.caption.Some? ==> r.caption == u.caption.value) && (u.caption.None? ==> r.caption == p.caption)
    ensures (u.hashtags.Some? ==> r.hashtags == u.hashtags.value) && (u.hashtags.None? ==> r.hashtags == p.hashtags)
    ensures (u.idealPostTime.Some? ==> r.idealPostTime == u.idealPostTime.value) && (u.idealPostTime.None? ==> r.idealPostTime == p.idealPostTime)
    ensures (u.toneGuidance.Some? ==> r.toneGuidance == u.toneGuidance.value) && (u.toneGuidance.None? ==> r.toneGuidance == p.toneGuidance)
    ensures (u.status.Some? ==> r.status == u.status.value) && (u.status.None? ==> r.status == p.status)
  {
    Plan(GetOr(u.platform, p.platform), GetOr(u.caption, p.caption), GetOr(u.hashtags, p.hashtags),
         GetOr(u.idealPostTime, p.idealPostTime), GetOr(u.toneGuidance, p.toneGuidance),
         GetOr(u.status, p.status))
  }

  /** The scene list after merging `u` into every scene whose id is `id`. */
  function UpdateScenes(scenes: seq<Scene>, id: string, u: SceneUpdate): (r: seq<Scene>)
    ensures |r| == |scenes|
    ensures forall i :: 0 <= i < |r| && scenes[i].id != id ==> r[i] == scenes[i]
    ensures forall i :: 0 <= i < |r| && scenes[i].id == id ==> r[i] == MergeScene(scenes[i], u)
  {
    seq(|scenes|, i requires 0 <= i < |scenes| =>
      if scenes[i].id == id then MergeScene(scenes[i], u) else scenes[i])
  }

  /** The scene list with `durationSec := d` on every scene whose id is `id`. */
  function SetDuration(scenes: seq<Scene>, id: string, d: int): (r: seq<Scene>)
    ensures |r| == |scenes|
    ensures forall i :: 0 <= i < |r| ==> r[i].id == scenes[i].id
    ensures forall i :: 0 <= i < |r| ==> r[i].(durationSec := scenes[i].durationSec) == scenes[i]
    ensures forall i :: 0 <= i < |r| ==> r[i].durationSec == (if scenes[i].id == id then d else scenes[i].durationSec)
  {
    seq(|scenes|, i requires 0 <= i < |scenes| =>
      if scenes[i].id == id then scenes[i].(durationSec := d) else scenes[i])
  }

  /** The plan list after merging `u` into every plan whose platform is `platform`. */
  function UpdatePlans(plans: seq<Plan>, platform: string, u: PlanUpdate): (r: seq<Plan>)
    ensures |r| == |plans|
    ensures forall i :: 0 <= i < |r| && plans[i].platform != platform ==> r[i] == plans[i]
    ensures forall i :: 0 <= i < |r| && plans[i].platform == platform ==> r[i] == MergePlan(plans[i], u)
  {
    seq(|plans|, i requires 0 <= i < |plans| =>
      if plans[i].platform == platform then MergePlan(plans[i], u) else plans[i])
  }

  /** handleSceneUpdate: merges the edit into the matching scenes only; the video
      plan (timeline included), the voice plan and the distribution stay as they
      were, even when the edit changes a duration or a voiceover. */
  function UpdateScene(sb: Option<Storyboard>, id: string, u: SceneUpdate): (r: Option<Storyboard>)
    ensures sb.None? ==> r.None?
    ensures sb.Some? ==> (r.Some?
      && r.value.video == sb.value.video
      && r.value.voice == sb.value.voice
      && r.value.distribution == sb.value.distribution
      && |r.value.scenes| == |sb.value.scenes|
      && (forall i :: 0 <= i < |sb.value.scenes| && sb.value.scenes[i].id != id ==>
            r.value.scenes[i] == sb.value.scenes[i])
      && (forall i :: 0 <= i < |sb.value.scenes| && sb.value.scenes[i].id == id ==>
            r.value.scenes[i] == MergeScene(sb.value.scenes[i], u)))
  {
    match sb
    case None => None
    case Some(cur) => Some(cur.(scenes := UpdateScenes(cur.scenes, id, u)))
  }

  /** handleSocialUpdate: merges the edit into every plan of that platform (all of
      them when the platform is listed twice); everything else is unchanged. */
  function UpdateSocial(sb: Option<Storyboard>, platform: string, u: PlanUpdate): (r: Option<Storyboard>)
    ensures sb.None? ==> r.None?
    ensures sb.Some? ==> (r.Some?
      && r.value.scenes == sb.value.scenes
      && r.value.video == sb.value.video
      && r.value.voice == sb.value.voice
      && |r.value.distribution| == |sb.value.distribution|
      && (forall i :: 0 <= i < |sb.value.distribution| && sb.value.distribution[i].platform != platform ==>
            r.value.distribution[i] == sb.value.distribution[i])
      && (forall i :: 0 <= i < |sb.value.distribution| && sb.value.distribution[i].platform == platform ==>
            r.value.distribution[i] == MergePlan(sb.value.distribution[i], u)))
  {
    match sb
    case None => None
    case Some(cur) => Some(cur.(distribution := UpdatePlans(cur.distribution, platform, u)))
  }

  /** handleDurationUpdate: sets the scene's duration, then re-lays out the whole
      timeline from 0 in its existing order and stores the final cursor as the
      total. Voice, distribution and the other video fields are kept. */
  function UpdateDuration(sb: Option<Storyboard>, id: string, d: int): (r: Option<Storyboard>)
    ensures sb.None? ==> r.None?
    ensures sb.Some? ==> (r.Some?
      && r.value.voice == sb.value.voice
      && r.value.distribution == sb.value.distribution
      && r.value.video.aspectRatio == sb.value.video.aspectRatio
      && r.value.scenes == SetDuration(sb.value.scenes, id, d)
      && |r.value.video.timeline| == |sb.value.video.timeline|)
  {
    match sb
    case None => None
    case Some(cur) =>
      var scenes := SetDuration(cur.scenes, id, d);
      var timeline := LayoutFrom(scenes, cur.video.timeline, 0);
      var total := SumRuntimes(scenes, cur.video.timeline);
      Some(cur.(scenes := scenes, video := cur.video.(totalDurationSec := total, timeline := timeline)))
  }

  /** After a duration edit the timeline is contiguous from 0, keeps every old
      entry (same count, same ids, same order), gives the edited scene's entries the
      new duration, gives every entry the runtime of its scene (or its old length
      when no scene has its id), and the total equals both the sum of the entry
      lengths and the end of the last entry. */
  lemma DurationEditRelayout(sb: Option<Storyboard>, id: string, d: int)
    requires sb.Some?
    ensures var before := sb.value; var after := UpdateDuration(sb, id, d).value;
      var t := after.video.timeline;
      && |t| == |before.video.timeline|
      && (forall i {:trigger t[i]} :: 0 <= i < |t| ==> t[i].sceneId == before.video.timeline[i].sceneId)
      && (|t| > 0 ==> t[0].start == 0)
      && Contiguous(t)
      && (forall i {:trigger t[i]} :: 0 <= i < |t| ==> t[i].end - t[i].start == Runtime(after.scenes, before.video.timeline[i]))
      && (forall i {:trigger t[i]} ::
            (0 <= i < |t| && t[i].sceneId == id && exists k :: 0 <= k < |before.scenes| && before.scenes[k].id == id)
            ==> t[i].end - t[i].start == d)
      && after.video.totalDurationSec == SumLengths(t)
      && (|t| > 0 ==> after.video.totalDurationSec == t[|t| - 1].end)
  {
    var before := sb.value;
    var scenes := SetDuration(before.scenes, id, d);
    LayoutShape(scenes, before.video.timeline, 0);
    LayoutSpan(scenes, before.video.timeline, 0);
    var t := LayoutFrom(scenes, before.video.timeline, 0);
    forall i | 0 <= i < |t| && t[i].sceneId == id && (exists k :: 0 <= k < |before.scenes| && before.scenes[k].id == id)
      ensures t[i].end - t[i].start == d
    {
      var k :| 0 <= k < |before.scenes| && before.scenes[k].id == id;
      assert scenes[k].id == id;
      var found := FindScene(scenes, id);
      if found.None? {
        FindSceneFirstExists(scenes, id, k);
      }
    }
  }

  /** Applying the same scene edit twice gives what applying it once gives, even
      when the edit renames the scene. */
  lemma SceneEditIdempotent(sb: Option<Storyboard>, id: string, u: SceneUpdate)
    ensures UpdateScene(UpdateScene(sb, id, u), id, u) == UpdateScene(sb, id, u)
  {
    if sb.Some? {
      var once := UpdateScenes(sb.value.scenes, id, u);
      assert UpdateScenes(once, id, u) == once;
    }
  }

  /** Applying the same plan edit twice gives what applying it once gives. */
  lemma SocialEditIdempotent(sb: Option<Storyboard>, platform: string, u: PlanUpdate)
    ensures UpdateSocial(UpdateSocial(sb, platform, u), platform, u) == UpdateSocial(sb, platform, u)
  {
    if sb.Some? {
      var once := UpdatePlans(sb.value.distribution, platform, u);
      assert UpdatePlans(once, platform, u) == once;
    }
  }

  /** When the timeline lists the scenes' distinct ids in scene order, the total a
      duration edit stores is the sum of the edited scenes' durations. */
  lemma TotalIsSceneSum(sb: Option<Storyboard>, id: string, d: int)
    requires sb.Some? && UniqueIds(sb.value.scenes)
    requires |sb.value.video.timeline| == |sb.value.scenes|
    requires forall i :: 0 <= i < |sb.value.scenes| ==> sb.value.video.timeline[i].sceneId == sb.value.scenes[i].id
    ensures UpdateDuration(sb, id, d).value.video.totalDurationSec == SumDurations(UpdateDuration(sb, id, d).value.scenes)
  {
    TimelineOfScenesSumsDurations(SetDuration(sb.value.scenes, id, d), sb.value.video.timeline);
  }

  /** Applying the same duration edit twice gives what applying it once gives. */
  lemma DurationEditIdempotent(sb: Option<Storyboard>, id: string, d: int)
    ensures UpdateDuration(UpdateDuration(sb, id, d), id, d) == UpdateDuration(sb, id, d)
  {
    if sb.Some? {
      var before := sb.value;
      var scenes := SetDuration(before.scenes, id, d);
      assert SetDuration(scenes, id, d) == scenes;
      LayoutIdempotent(scenes, before.video.timeline, 0);
    }
  }

  /** Entries for scenes other than the edited one keep their runtime. */
  lemma {:induction false} RuntimeUnaffected(scenes: seq<Scene>, id: string, d: int, e: TimelineEntry)
    requires e.sceneId != id
    ensures Runtime(SetDuration(scenes, id, d), e) == Runtime(scenes, e)
    decreases |scenes|
  {
    var s2 := SetDuration(scenes, id, d);
    if |scenes| > 0 {
      assert s2[0].id == scenes[0].id;
      if scenes[0].id != e.sceneId {
        assert s2[1..] == SetDuration(scenes[1..], id, d);
        RuntimeUnaffected(scenes[1..], id, d, e);
      }
    }
  }

  /** If the timeline was already the layout of the scenes, a duration edit leaves
      every entry before the first entry of the edited scene untouched. */
  lemma DurationEditKeepsEarlierEntries(sb: Option<Storyboard>, id: string, d: int, k: nat)
    requires sb.Some?
    requires LayoutFrom(sb.value.scenes, sb.value.video.timeline, 0) == sb.value.video.timeline
    requires k <= |sb.value.video.timeline|
    requires forall j :: 0 <= j < k ==> sb.value.video.timeline[j].sceneId != id
    ensures UpdateDuration(sb, id, d).value.video.timeline[..k] == sb.value.video.timeline[..k]
  {
    var before := sb.value;
    var entries := before.video.timeline;
    var scenes := SetDuration(before.scenes, id, d);
    forall j | 0 <= j < k ensures Runtime(scenes, entries[j]) == Runtime(before.scenes, entries[j]) {
      RuntimeUnaffected(before.scenes, id, d, entries[j]);
    }
    LayoutPrefixAgrees(scenes, before.scenes, entries, 0, k);
  }

  /** Three 5-second scenes laid out back to back; raising the second to 8 seconds
      gives 0-5, 5-13, 13-18 and a total of 18. */
  lemma DurationEditExample(a: Scene, b: Scene, c: Scene, v: VideoPlan, voice: VoicePlan, plans: seq<Plan>)
    requires a.id != b.id && a.id != c.id && b.id != c.id
    requires a.durationSec == 5 && b.durationSec == 5 && c.durationSec == 5
    requires v.timeline == [TimelineEntry(a.id, 0, 5), TimelineEntry(b.id, 5, 10), TimelineEntry(c.id, 10, 15)]
    ensures var after := UpdateDuration(Some(Storyboard([a, b, c], v, voice, plans)), b.id, 8).value;
      && after.video.timeline == [TimelineEntry(a.id, 0, 5), TimelineEntry(b.id, 5, 13), TimelineEntry(c.id, 13, 18)]
      && after.video.totalDurationSec == 18
  {
    var b8 := b.(durationSec := 8);
    var scenes := SetDuration([a, b, c], b.id, 8);
    assert scenes == [a, b8, c];
    var e := v.timeline;
    FindSceneFirst(scenes, a.id, 0);
    FindSceneFirst(scenes, b.id, 1);
    FindSceneFirst(scenes, c.id, 2);
    LayoutOfFiveEightFive(scenes, e);
  }

  /** The fold over three entries whose runtimes are 5, 8 and 5. */
  lemma LayoutOfFiveEightFive(scenes: seq<Scene>, e: seq<TimelineEntry>)
    requires |e| == 3
    requires Runtime(scenes, e[0]) == 5 && Runtime(scenes, e[1]) == 8 && Runtime(scenes, e[2]) == 5
    ensures LayoutFrom(scenes, e, 0)
      == [e[0].(start := 0, end := 5), e[1].(start := 5, end := 13), e[2].(start := 13, end := 18)]
    ensures SumRuntimes(scenes, e) == 18
  {
    LayoutStep(scenes, e, 0, 0);
    LayoutStep(scenes, e, 1, 5);
    LayoutStep(scenes, e, 2, 13);
    assert e[0..] == e && e[3..] == [];
  }
}
