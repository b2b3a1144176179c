/** Timeline re-layout of the storyboard page: every entry is rebuilt by a running
    prefix sum over the existing entry order, each entry's length taken from the
    scene that carries its id (app/page.tsx, handleDurationUpdate). */
module Timeline {
  import opened Types

  /** The first scene carrying `id`, as `scenes.find(item => item.id === id)` returns it. */
  function FindScene(scenes: seq<Scene>, id: string): (r: Option<Scene>)
    ensures r.Some? ==> r.value in scenes && r.value.id == id
    decreases |scenes|
  {
    if |scenes| == 0 then None
    else if scenes[0].id == id then Some(scenes[0])
    else FindScene(scenes[1..], id)
  }

  /** `FindScene` yields the scene at the first position carrying the id ... */
  lemma {:induction false} FindSceneFirst(scenes: seq<Scene>, id: string, k: nat)
    requires k < |scenes| && scenes[k].id == id
    requires forall j :: 0 <= j < k ==> scenes[j].id != id
    ensures FindScene(scenes, id) == Some(scenes[k])
    decreases k
  {
    if k > 0 {
      assert scenes[0].id != id;
      FindSceneFirst(scenes[1..], id, k - 1);
    }
  }

  /** ... and nothing when no scene carries it. */
  lemma {:induction false} FindSceneAbsent(scenes: seq<Scene>, id: string)
    requires forall k :: 0 <= k < |scenes| ==> scenes[k].id != id
    ensures FindScene(scenes, id) == None
    decreases |scenes|
  {
    if |scenes| > 0 {
      FindSceneAbsent(scenes[1..], id);
    }
  }

  /** When some scene carries `id`, `FindScene` finds one. */
  lemma {:induction false} FindSceneFirstExists(scenes: seq<Scene>, id: string, k: nat)
    requires k < |scenes| && scenes[k].id == id
    ensures FindScene(scenes, id).Some?
    decreases k
  {
    if k > 0 && scenes[0].id != id {
      FindSceneFirstExists(scenes[1..], id, k - 1);
    }
  }

  /** No two scenes share an id. */
  predicate UniqueIds(scenes: seq<Scene>) {
    forall i, j :: 0 <= i < j < |scenes| ==> scenes[i].id != scenes[j].id
  }

  /** The length an entry receives at re-layout: the current duration of the first
      scene with its id, or, when no scene has that id, the entry's previous length
      `end - start` (the entry is kept, not dropped). */
  function Runtime(scenes: seq<Scene>, e: TimelineEntry): (rt: int)
    ensures rt == e.end - e.start || exists s :: s in scenes && s.id == e.sceneId && rt == s.durationSec
  {
    match FindScene(scenes, e.sceneId)
    case Some(s) => s.durationSec
    case None => e.end - e.start
  }

  /** The two cases of `Runtime`, stated by position. */
  lemma RuntimeCases(scenes: seq<Scene>, e: TimelineEntry)
    ensures (forall k :: 0 <= k < |scenes| ==> scenes[k].id != e.sceneId) ==>
      Runtime(scenes, e) == e.end - e.start
    ensures forall k :: 0 <= k < |scenes| && scenes[k].id == e.sceneId && (forall j :: 0 <= j < k ==> scenes[j].id != e.sceneId) ==>
      Runtime(scenes, e) == scenes[k].durationSec
  {
    if forall k :: 0 <= k < |scenes| ==> scenes[k].id != e.sceneId {
      FindSceneAbsent(scenes, e.sceneId);
    }
    forall k | 0 <= k < |scenes| && scenes[k].id == e.sceneId && (forall j :: 0 <= j < k ==> scenes[j].id != e.sceneId)
      ensures Runtime(scenes, e) == scenes[k].durationSec
    {
      FindSceneFirst(scenes, e.sceneId, k);
    }
  }

  /** Sum of the re-layout lengths of `entries`. */
  function SumRuntimes(scenes: seq<Scene>, entries: seq<TimelineEntry>): int
    decreases |entries|
  {
    if |entries| == 0 then 0 else Runtime(scenes, entries[0]) + SumRuntimes(scenes, entries[1..])
  }

  /** Sum of the lengths `end - start` of `entries`. */
  function SumLengths(entries: seq<TimelineEntry>): int
    decreases |entries|
  {
    if |entries| == 0 then 0 else (entries[0].end - entries[0].start) + SumLengths(entries[1..])
  }

  /** Sum of the durations of `scenes`. */
  function SumDurations(scenes: seq<Scene>): int
    decreases |scenes|
  {
    if |scenes| == 0 then 0 else scenes[0].durationSec + SumDurations(scenes[1..])
  }

  /** Each entry starts where the previous one ends. */
  predicate Contiguous(entries: seq<TimelineEntry>) {
    forall i, j :: 0 <= i < |entries| && j == i + 1 < |entries| ==> entries[j].start == entries[i].end
  }

  /** The re-layout fold: entries rebuilt one by one from `cursor`, each with its
      `Runtime`, in the existing order. */
  function LayoutFrom(scenes: seq<Scene>, entries: seq<TimelineEntry>, cursor: int): (r: seq<TimelineEntry>)
    ensures |r| == |entries|
    decreases |entries|
  {
    if |entries| == 0 then []
    else
      var runtime := Runtime(scenes, entries[0]);
      [entries[0].(start := cursor, end := cursor + runtime)]
        + LayoutFrom(scenes, entries[1..], cursor + runtime)
  }

  /** What the fold produces: one entry per old entry, same ids in the same order,
      each as long as its runtime, the first starting at `cursor`, each later one
      starting where the previous one ends, and the last ending at `cursor` plus
      the sum of all runtimes. */
  lemma {:induction false} LayoutShape(scenes: seq<Scene>, entries: seq<TimelineEntry>, cursor: int)
    ensures var r := LayoutFrom(scenes, entries, cursor);
      && |r| == |entries|
      && (forall i {:trigger r[i]} :: 0 <= i < |r| ==> r[i].sceneId == entries[i].sceneId)
      && (forall i {:trigger r[i]} :: 0 <= i < |r| ==> r[i].end - r[i].start == Runtime(scenes, entries[i]))
      && (|r| > 0 ==> r[0].start == cursor)
      && Contiguous(r)
      && (|r| > 0 ==> r[|r| - 1].end == cursor + SumRuntimes(scenes, entries))
    decreases |entries|
  {
    if |entries| > 0 {
      var rt := Runtime(scenes, entries[0]);
      var head := entries[0].(start := cursor, end := cursor + rt);
      var rest := LayoutFrom(scenes, entries[1..], cursor + rt);
      LayoutShape(scenes, entries[1..], cursor + rt);
      var r := [head] + rest;
      assert LayoutFrom(scenes, entries, cursor) == r;
      forall i | 0 < i < |r| ensures r[i] == rest[i - 1] && entries[i] == entries[1..][i - 1] { }
      assert Contiguous(r) by {
        forall i, j | 0 <= i < |r| && j == i + 1 < |r| ensures r[j].start == r[i].end {
          if i > 0 {
            assert r[i] == rest[i - 1] && r[j] == rest[j - 1];
          }
        }
      }
    }
  }

  /** The client's cursor loop: `cursor` starts at 0 and advances by each entry's
      runtime; the laid-out entries are the fold's, and the final cursor (which the
      client stores as the total duration) is the sum of all runtimes. */
  method RelayoutLoop(scenes: seq<Scene>, entries: seq<TimelineEntry>) returns (laid: seq<TimelineEntry>, cursor: int)
    ensures laid == LayoutFrom(scenes, entries, 0)
    ensures cursor == SumRuntimes(scenes, entries)
  {
    ghost var whole := LayoutFrom(scenes, entries, 0);
    ghost var total := SumRuntimes(scenes, entries);
    laid := [];
    cursor := 0;
    var i := 0;
    assert entries[i..] == entries;
    while i < |entries|
      invariant 0 <= i <= |entries|
      invariant laid + LayoutFrom(scenes, entries[i..], cursor) == whole
      invariant cursor + SumRuntimes(scenes, entries[i..]) == total
    {
      var runtime := Runtime(scenes, entries[i]);
      LoopStep(scenes, entries, i, cursor, laid, whole, total);
      laid := laid + [entries[i].(start := cursor, end := cursor + runtime)];
      cursor := cursor + runtime;
      i := i + 1;
    }
    assert entries[i..] == [];
  }

  /** One iteration of the cursor loop keeps its invariant: the entries laid so
      far followed by the fold of the rest make up the whole layout, and the
      cursor plus the runtimes still to come make up the total. */
  lemma LoopStep(scenes: seq<Scene>, entries: seq<TimelineEntry>, i: nat, cursor: int, laid: seq<TimelineEntry>,
                 whole: seq<TimelineEntry>, total: int)
    requires i < |entries|
    requires laid + LayoutFrom(scenes, entries[i..], cursor) == whole
    requires cursor + SumRuntimes(scenes, entries[i..]) == total
    ensures var rt := Runtime(scenes, entries[i]);
      && (laid + [entries[i].(start := cursor, end := cursor + rt)]) + LayoutFrom(scenes, entries[i + 1..], cursor + rt) == whole
      && cursor + rt + SumRuntimes(scenes, entries[i + 1..]) == total
  {
    var rt := Runtime(scenes, entries[i]);
    var head := entries[i].(start := cursor, end := cursor + rt);
    LayoutStep(scenes, entries, i, cursor);
    assert (laid + [head]) + LayoutFrom(scenes, entries[i + 1..], cursor + rt)
        == laid + ([head] + LayoutFrom(scenes, entries[i + 1..], cursor + rt));
  }

  /** One step of the fold, seen from position `i`. */
  lemma LayoutStep(scenes: seq<Scene>, entries: seq<TimelineEntry>, i: nat, cursor: int)
    requires i < |entries|
    ensures LayoutFrom(scenes, entries[i..], cursor) ==
      [entries[i].(start := cursor, end := cursor + Runtime(scenes, entries[i]))]
        + LayoutFrom(scenes, entries[i + 1..], cursor + Runtime(scenes, entries[i]))
    ensures SumRuntimes(scenes, entries[i..]) == Runtime(scenes, entries[i]) + SumRuntimes(scenes, entries[i + 1..])
  {
    assert entries[i..][0] == entries[i] && entries[i..][1..] == entries[i + 1..];
  }

  /** Entry `i` starts at the cursor plus the runtimes of all entries before it. */
  lemma {:induction false} LayoutStartIsPrefixSum(scenes: seq<Scene>, entries: seq<TimelineEntry>, cursor: int, i: nat)
    requires i < |entries|
    ensures LayoutFrom(scenes, entries, cursor)[i].start == cursor + SumRuntimes(scenes, entries[..i])
    decreases i
  {
    if i > 0 {
      var rt := Runtime(scenes, entries[0]);
      var rest := LayoutFrom(scenes, entries[1..], cursor + rt);
      var head := entries[0].(start := cursor, end := cursor + rt);
      assert LayoutFrom(scenes, entries, cursor) == [head] + rest;
      LayoutStartIsPrefixSum(scenes, entries[1..], cursor + rt, i - 1);
      assert ([head] + rest)[i] == rest[i - 1];
      assert entries[..i][0] == entries[0] && entries[..i][1..] == entries[1..][..i - 1];
      assert SumRuntimes(scenes, entries[..i]) == rt + SumRuntimes(scenes, entries[1..][..i - 1]);
    }
  }

  /** The recomputed entries' lengths add up to the sum of their runtimes. */
  lemma {:induction false} LayoutSpan(scenes: seq<Scene>, entries: seq<TimelineEntry>, cursor: int)
    ensures SumLengths(LayoutFrom(scenes, entries, cursor)) == SumRuntimes(scenes, entries)
    decreases |entries|
  {
    if |entries| > 0 {
      var rt := Runtime(scenes, entries[0]);
      var rest := LayoutFrom(scenes, entries[1..], cursor + rt);
      var head := entries[0].(start := cursor, end := cursor + rt);
      assert LayoutFrom(scenes, entries, cursor) == [head] + rest;
      LayoutSpan(scenes, entries[1..], cursor + rt);
      assert ([head] + rest)[1..] == rest;
    }
  }

  /** Laying out an already laid-out timeline against the same scenes changes nothing. */
  lemma {:induction false} LayoutIdempotent(scenes: seq<Scene>, entries: seq<TimelineEntry>, cursor: int)
    ensures LayoutFrom(scenes, LayoutFrom(scenes, entries, cursor), cursor) == LayoutFrom(scenes, entries, cursor)
    ensures SumRuntimes(scenes, LayoutFrom(scenes, entries, cursor)) == SumRuntimes(scenes, entries)
    decreases |entries|
  {
    if |entries| > 0 {
      var rt := Runtime(scenes, entries[0]);
      var rest := LayoutFrom(scenes, entries[1..], cursor + rt);
      var head := entries[0].(start := cursor, end := cursor + rt);
      var laid := [head] + rest;
      assert LayoutFrom(scenes, entries, cursor) == laid;
      assert Runtime(scenes, head) == rt by {
        assert FindScene(scenes, head.sceneId) == FindScene(scenes, entries[0].sceneId);
      }
      assert laid[0] == head && laid[1..] == rest;
      assert LayoutFrom(scenes, laid, cursor) == [head] + LayoutFrom(scenes, rest, cursor + rt);
      assert SumRuntimes(scenes, laid) == rt + SumRuntimes(scenes, rest);
      LayoutIdempotent(scenes, entries[1..], cursor + rt);
    }
  }

  /** Two re-layouts whose runtimes agree on the first `k` entries agree on those entries. */
  lemma {:induction false} LayoutPrefixAgrees(s1: seq<Scene>, s2: seq<Scene>, entries: seq<TimelineEntry>, cursor: int, k: nat)
    requires k <= |entries|
    requires forall j :: 0 <= j < k ==> Runtime(s1, entries[j]) == Runtime(s2, entries[j])
    ensures LayoutFrom(s1, entries, cursor)[..k] == LayoutFrom(s2, entries, cursor)[..k]
    decreases k
  {
    if k > 0 {
      var rt := Runtime(s1, entries[0]);
      assert Runtime(s2, entries[0]) == rt;
      var head := entries[0].(start := cursor, end := cursor + rt);
      var r1 := LayoutFrom(s1, entries[1..], cursor + rt);
      var r2 := LayoutFrom(s2, entries[1..], cursor + rt);
      assert LayoutFrom(s1, entries, cursor) == [head] + r1;
      assert LayoutFrom(s2, entries, cursor) == [head] + r2;
      LayoutPrefixAgrees(s1, s2, entries[1..], cursor + rt, k - 1);
      assert ([head] + r1)[..k] == [head] + r1[..k - 1];
      assert ([head] + r2)[..k] == [head] + r2[..k - 1];
    }
  }

  /** When runtimes line up with the durations of `ss`, position by position, the
      runtime sum is the duration sum of `ss`. */
  lemma {:induction false} SumRuntimesByPosition(scenes: seq<Scene>, entries: seq<TimelineEntry>, ss: seq<Scene>)
    requires |ss| == |entries|
    requires forall i :: 0 <= i < |entries| ==> Runtime(scenes, entries[i]) == ss[i].durationSec
    ensures SumRuntimes(scenes, entries) == SumDurations(ss)
    decreases |entries|
  {
    if |entries| > 0 {
      SumRuntimesByPosition(scenes, entries[1..], ss[1..]);
    }
  }

  /** A timeline that lists the scenes' (distinct) ids in scene order sums to the
      total of the scene durations. */
  lemma TimelineOfScenesSumsDurations(scenes: seq<Scene>, entries: seq<TimelineEntry>)
    requires UniqueIds(scenes)
    requires |entries| == |scenes|
    requires forall i :: 0 <= i < |entries| ==> entries[i].sceneId == scenes[i].id
    ensures SumRuntimes(scenes, entries) == SumDurations(scenes)
  {
    forall i | 0 <= i < |entries|
      ensures Runtime(scenes, entries[i]) == scenes[i].durationSec
    {
      FindSceneFirst(scenes, entries[i].sceneId, i);
    }
    SumRuntimesByPosition(scenes, entries, scenes);
  }
}
