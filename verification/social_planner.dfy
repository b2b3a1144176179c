/** The social launch panel (components/social-planner.tsx): publishing actions
    update a plan's status and prepend a line to the activity log; caption edits
    update a plan's caption. Both go through the page's plan reducer. */
module SocialPlanner {
  import opened Types
  import Page

  /** What the social endpoint answered: a success with its detail message, a
      failure with its error message, or no answer at all (the request or the
      reading of its body threw). */
  datatype Reply = Succeeded(detail: string) | Failed(error: string) | Threw

  /** The plans as the page holds them, and the activity log, newest first. */
  datatype PanelState = PanelState(plans: seq<Plan>, log: seq<string>)

  /** The status a successful action sets; the prior status plays no part. */
  function ActionStatus(publishNow: bool): (s: Status)
    ensures publishNow <==> s == Posted
    ensures s != Draft
  {
    if publishNow then Posted else Scheduled
  }

  /** The log line an answered action produces; `name` is the display name of a
      platform (a helper outside this model). */
  function LogLine(name: string -> string, platform: string, reply: Reply): (line: string)
    requires !reply.Threw?
    ensures var lead := name(platform) + " · ";
      var message := if reply.Succeeded? then reply.detail else reply.error;
      && |line| == |lead| + (if reply.Failed? then 8 else 0) + |message|
      && line[..|lead|] == lead
      && (reply.Failed? ==> line[|lead|..|lead| + 8] == "Failed: ")
      && line[|line| - |message|..] == message
  {
    match reply
    case Succeeded(detail) => name(platform) + " · " + detail
    case Failed(error) => name(platform) + " · Failed: " + error
  }

  /** triggerAction for `plan` with the endpoint's `reply`. On success every plan
      of that platform gets the action's status and nothing else changes in it; on
      failure the plans are untouched; either answer prepends exactly one log line.
      With no answer the exception escapes and neither plans nor log change. */
  function TriggerAction(st: PanelState, plan: Plan, publishNow: bool, reply: Reply, name: string -> string): (r: PanelState)
    ensures reply.Threw? ==> r == st
    ensures |r.plans| == |st.plans|
    ensures forall i :: 0 <= i < |st.plans| && (st.plans[i].platform != plan.platform || !reply.Succeeded?) ==>
      r.plans[i] == st.plans[i]
    ensures forall i :: 0 <= i < |st.plans| && st.plans[i].platform == plan.platform && reply.Succeeded? ==>
      r.plans[i] == st.plans[i].(status := ActionStatus(publishNow))
    ensures !reply.Threw? ==> |r.log| == |st.log| + 1 && r.log[1..] == st.log
    ensures reply.Failed? ==> r.log[0] == name(plan.platform) + " · Failed: " + reply.error
    ensures reply.Succeeded? ==> r.log[0] == name(plan.platform) + " · " + reply.detail
  {
    match reply
    case Threw => st
    case Succeeded(_) =>
      var update := Page.NoPlanFields.(status := Some(ActionStatus(publishNow)));
      PanelState(Page.UpdatePlans(st.plans, plan.platform, update), [LogLine(name, plan.platform, reply)] + st.log)
    case Failed(_) =>
      PanelState(st.plans, [LogLine(name, plan.platform, reply)] + st.log)
  }

  /** The caption textarea's edit: every plan of that platform gets the new caption
      and nothing else changes. */
  function EditCaption(plans: seq<Plan>, platform: string, caption: string): (r: seq<Plan>)
    ensures |r| == |plans|
    ensures forall i :: 0 <= i < |plans| && plans[i].platform != platform ==> r[i] == plans[i]
    ensures forall i :: 0 <= i < |plans| && plans[i].platform == platform ==> r[i] == plans[i].(caption := caption)
  {
    Page.UpdatePlans(plans, platform, Page.NoPlanFields.(caption := Some(caption)))
  }

  /** Caption edits overwrite each other: only the last keystroke's text remains. */
  lemma CaptionLastEditWins(plans: seq<Plan>, platform: string, c1: string, c2: string)
    ensures EditCaption(EditCaption(plans, platform, c1), platform, c2) == EditCaption(plans, platform, c2)
  {
  }

  /** A caption edit and an answered action on the same platform commute: the
      status and the caption are separate fields. */
  lemma CaptionEditCommutesWithAction(st: PanelState, plan: Plan, publishNow: bool, reply: Reply, name: string -> string, caption: string)
    ensures var after := TriggerAction(st, plan, publishNow, reply, name);
      EditCaption(after.plans, plan.platform, caption)
        == TriggerAction(st.(plans := EditCaption(st.plans, plan.platform, caption)), plan, publishNow, reply, name).plans
  {
  }

  /** The client does not enforce a forward-only lifecycle: scheduling a posted
      plan that the endpoint accepts makes it scheduled again. */
  lemma ScheduleAfterPostReverts(plan: Plan, detail: string, name: string -> string)
    requires plan.status == Posted
    ensures TriggerAction(PanelState([plan], []), plan, false, Succeeded(detail), name).plans[0].status == Scheduled
  {
  }

  /** One user action on the panel. */
  datatype Action = Action(plan: Plan, publishNow: bool, reply: Reply)

  /** The panel after the actions, in the order they complete. */
  function Run(st: PanelState, actions: seq<Action>, name: string -> string): PanelState
    decreases |actions|
  {
    if |actions| == 0 then st
    else
      var a := actions[0];
      Run(TriggerAction(st, a.plan, a.publishNow, a.reply, name), actions[1..], name)
  }

  /** The log lines of the answered actions, oldest first. */
  function Lines(actions: seq<Action>, name: string -> string): seq<string>
    decreases |actions|
  {
    if |actions| == 0 then []
    else if actions[0].reply.Threw? then Lines(actions[1..], name)
    else [LogLine(name, actions[0].plan.platform, actions[0].reply)] + Lines(actions[1..], name)
  }

  function Reverse<T>(s: seq<T>): seq<T>
    decreases |s|
  {
    if |s| == 0 then [] else Reverse(s[1..]) + [s[0]]
  }

  /** The log is newest first: after a run it holds one line per answered action,
      in reverse completion order, ahead of the earlier log. */
  lemma {:induction false} LogIsNewestFirst(st: PanelState, actions: seq<Action>, name: string -> string)
    ensures Run(st, actions, name).log == Reverse(Lines(actions, name)) + st.log
    decreases |actions|
  {
    if |actions| > 0 {
      var a := actions[0];
      var next := TriggerAction(st, a.plan, a.publishNow, a.reply, name);
      LogIsNewestFirst(next, actions[1..], name);
      var rest := Lines(actions[1..], name);
      if !a.reply.Threw? {
        var line := LogLine(name, a.plan.platform, a.reply);
        assert ([line] + rest)[1..] == rest;
        assert Reverse([line] + rest) == Reverse(rest) + [line];
        assert next.log == [line] + st.log;
      }
    }
  }
}
