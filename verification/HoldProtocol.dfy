/** Evaluations of heartbeat-loss holds by several processes at once, each repository call being
    one atomic step on the shared table. */
module HoldProtocol {
  import opened Basics
  import opened Devices
  import opened HoldPolicy
  import opened HoldTable
  import opened Holds

  /** Where a call of Evaluate stands: the repository call it makes next, or how it returned. */
  datatype Stage =
    | Finding(now: Time)
    | Counting(now: Time, open: Option<Time>)
    | Ending(now: Time, startedAt: Time, start: bool, lost: nat)
    | Starting(now: Time, lost: nat)
    | FindingAgain
    | Returned(view: Option<Time>)
    | Failed

  /** A call, when it began and when it returned, counted in steps of the system. */
  datatype Call = Call(stage: Stage, begin: nat, end: nat)

  /** The table after every step so far, the last being the current one, and the calls. */
  datatype System = System(history: seq<seq<HoldRow>>, calls: map<Id, Call>) {
    function Rows(): seq<HoldRow> {
      if |history| == 0 then [] else history[|history| - 1]
    }
  }

  const START := System([[]], map[])

  /** A process begins a call, makes its next repository call, or fails in it. A failing call may
      have been carried out all the same. A count is whatever the devices are at that moment. */
  datatype Action =
    | Begin(process: Id, now: Time)
    | Proceed(process: Id, count: HeartbeatLossCount)
    | Fail(process: Id, applied: bool)

  predicate Running(stage: Stage) {
    !stage.Returned? && !stage.Failed?
  }

  /** What the next repository call does to the table. */
  function Effect(stage: Stage, rows: seq<HoldRow>): seq<HoldRow> {
    match stage
    case Ending(now, startedAt, _, _) => AfterEnd(rows, startedAt, now)
    case Starting(now, lost) => AfterStart(rows, now, lost)
    case _ => rows
  }

  /** Where the call stands after its next repository call. */
  function NextStage(policy: Policy, stage: Stage, rows: seq<HoldRow>, count: HeartbeatLossCount): Stage {
    match stage
    case Finding(now) => Counting(now, OpenSince(rows))
    case Counting(now, open) =>
      var decision := policy.Decide(now, open, count);
      if decision.end then Ending(now, open.value, decision.start, count.lost)
      else if decision.start then Starting(now, count.lost)
      else Returned(open)
    case Ending(now, _, start, lost) => if start then Starting(now, lost) else Returned(None)
    case Starting(_, _) => FindingAgain
    case FindingAgain => Returned(OpenSince(rows))
    case _ => stage
  }

  predicate Enabled(s: System, a: Action) {
    match a
    case Begin(p, _) => p in s.calls ==> !Running(s.calls[p].stage)
    case _ => a.process in s.calls && Running(s.calls[a.process].stage)
  }

  /** The system after an action; one that is not enabled changes nothing but takes a step. */
  function Step(policy: Policy, s: System, a: Action): System {
    var next := |s.history|;
    if !Enabled(s, a) then s.(history := s.history + [s.Rows()])
    else
      match a
      case Begin(p, now) => System(s.history + [s.Rows()], s.calls[p := Call(Finding(now), next, next)])
      case Proceed(p, count) =>
        var call := s.calls[p];
        System(s.history + [Effect(call.stage, s.Rows())],
               s.calls[p := Call(NextStage(policy, call.stage, s.Rows(), count), call.begin, next)])
      case Fail(p, applied) =>
        var call := s.calls[p];
        System(s.history + [if applied then Effect(call.stage, s.Rows()) else s.Rows()],
               s.calls[p := Call(Failed, call.begin, next)])
  }

  function Exec(policy: Policy, actions: seq<Action>): System {
    if |actions| == 0 then START else Step(policy, Exec(policy, actions[..|actions| - 1]), actions[|actions| - 1])
  }

  /** Rows only ever get appended or ended: what is ended stays as it is, and no row restarts. */
  ghost predicate Grows(before: seq<HoldRow>, after: seq<HoldRow>) {
    && |before| <= |after|
    && forall i :: 0 <= i < |before| ==>
         && after[i].startedAt == before[i].startedAt
         && (!IsOpen(before[i]) ==> after[i] == before[i])
  }

  /** From one table to the next, the open hold changes by ending or by starting, never at once. */
  ghost predicate OneChange(before: seq<HoldRow>, after: seq<HoldRow>) {
    OpenSince(before) == OpenSince(after) || OpenSince(before) == None || OpenSince(after) == None
  }

  ghost predicate HistoryInv(history: seq<seq<HoldRow>>) {
    && |history| > 0
    && (forall i :: 0 <= i < |history| ==> Consistent(history[i]))
    && (forall i :: 0 <= i < |history| - 1 ==> OneChange(history[i], history[i + 1]))
    && (forall i, j :: 0 <= i <= j < |history| ==> Grows(history[i], history[j]))
  }

  /** At some step from `first` to `last`, `view` was the open hold of the table. */
  ghost predicate Seen(history: seq<seq<HoldRow>>, view: Option<Time>, first: int, last: int) {
    exists i :: 0 <= i < |history| && first <= i <= last && OpenSince(history[i]) == view
  }

  /** What a call knows was true of the table at some step since it began. */
  ghost predicate CallInv(history: seq<seq<HoldRow>>, call: Call) {
    && 0 <= call.begin <= call.end < |history|
    && match call.stage
       case Counting(_, open) => Seen(history, open, call.begin, call.end)
       case Ending(_, startedAt, _, _) => Seen(history, Some(startedAt), call.begin, call.end)
       case Returned(view) => Seen(history, view, call.begin, call.end)
       case _ => true
  }

  ghost predicate Inv(s: System) {
    HistoryInv(s.history) && forall p :: p in s.calls ==> CallInv(s.history, s.calls[p])
  }

  lemma {:induction false} GrowsTransitive(a: seq<HoldRow>, b: seq<HoldRow>, c: seq<HoldRow>)
    requires Grows(a, b) && Grows(b, c)
    ensures Grows(a, c)
  {
  }

  /** Every repository call keeps the table consistent, and changes the open hold by one step. */
  lemma {:induction false} EffectKeepsTable(stage: Stage, rows: seq<HoldRow>)
    requires Consistent(rows)
    ensures var after := Effect(stage, rows); Consistent(after) && OneChange(rows, after) && Grows(rows, after)
  {
    match stage
    case Ending(now, startedAt, _, _) => EndCloses(rows, startedAt, now);
    case Starting(now, lost) => StartOpens(rows, now, lost);
    case _ =>
  }

  lemma {:induction false} HistoryAppend(history: seq<seq<HoldRow>>, rows: seq<HoldRow>)
    requires HistoryInv(history)
    requires Consistent(rows) && OneChange(history[|history| - 1], rows) && Grows(history[|history| - 1], rows)
    ensures HistoryInv(history + [rows])
  {
    var h, n := history + [rows], |history|;
    assert forall i :: 0 <= i < n ==> h[i] == history[i];
    assert h[n] == rows;
    forall i | 0 <= i < n
      ensures Grows(h[i], h[n])
    {
      GrowsTransitive(history[i], history[n - 1], rows);
    }
  }

  lemma {:induction false} SeenStays(history: seq<seq<HoldRow>>, rows: seq<HoldRow>, view: Option<Time>, first: int,
      last: int)
    requires Seen(history, view, first, last)
    ensures forall later :: last <= later ==> Seen(history + [rows], view, first, later)
  {
    var i :| 0 <= i < |history| && first <= i <= last && OpenSince(history[i]) == view;
    assert (history + [rows])[i] == history[i];
  }

  lemma {:induction false} SeenNow(history: seq<seq<HoldRow>>, rows: seq<HoldRow>, first: int)
    requires first <= |history|
    ensures Seen(history + [rows], OpenSince(rows), first, |history|)
  {
    assert (history + [rows])[|history|] == rows;
  }

  lemma {:induction false} CallStays(history: seq<seq<HoldRow>>, rows: seq<HoldRow>, call: Call)
    requires CallInv(history, call)
    ensures CallInv(history + [rows], call)
  {
    match call.stage
    case Counting(_, open) => SeenStays(history, rows, open, call.begin, call.end);
    case Ending(_, startedAt, _, _) => SeenStays(history, rows, Some(startedAt), call.begin, call.end);
    case Returned(view) => SeenStays(history, rows, view, call.begin, call.end);
    case _ =>
  }

  /** A hold that was open and no longer is was ended in between. */
  lemma {:induction false} NoneInBetween(history: seq<seq<HoldRow>>, startedAt: Time, first: int, last: int)
    requires HistoryInv(history) && 0 <= first <= last < |history|
    requires OpenSince(history[first]) == Some(startedAt) && OpenSince(history[last]) != Some(startedAt)
    ensures Seen(history, None, first, last)
    decreases last - first
  {
    assert first != last;
    var next := first + 1;
    assert OneChange(history[first], history[next]);
    if OpenSince(history[next]) != None {
      NoneInBetween(history, startedAt, next, last);
      var i :| 0 <= i < |history| && next <= i <= last && OpenSince(history[i]) == None;
    }
  }

  /** When a hold was seen open and the last table has another view, it was seen closed since. */
  lemma {:induction false} SeenClosed(history: seq<seq<HoldRow>>, startedAt: Time, first: int, last: int)
    requires HistoryInv(history) && Seen(history, Some(startedAt), first, last) && 0 <= first <= last < |history|
    requires OpenSince(history[|history| - 1]) != Some(startedAt)
    ensures Seen(history, None, first, |history| - 1)
  {
    var i :| 0 <= i < |history| && first <= i <= last && OpenSince(history[i]) == Some(startedAt);
    NoneInBetween(history, startedAt, i, |history| - 1);
    var k :| 0 <= k < |history| && i <= k <= |history| - 1 && OpenSince(history[k]) == None;
  }

  lemma {:induction false} NextCallInv(policy: Policy, s: System, p: Id, count: HeartbeatLossCount)
    requires Inv(s) && p in s.calls && Running(s.calls[p].stage)
    requires HistoryInv(s.history + [Effect(s.calls[p].stage, s.Rows())])
    ensures CallInv(s.history + [Effect(s.calls[p].stage, s.Rows())],
                    Call(NextStage(policy, s.calls[p].stage, s.Rows(), count), s.calls[p].begin, |s.history|))
  {
    hide Seen, HistoryInv, OpenSince, AfterStart, AfterEnd, Consistent;
    var call := s.calls[p];
    var rows := Effect(call.stage, s.Rows());
    assert CallInv(s.history, call);
    SeenNow(s.history, rows, call.begin);
    match call.stage
    case Counting(now, open) => SeenStays(s.history, rows, open, call.begin, call.end);
    case Ending(now, startedAt, start, lost) =>
      SeenStays(s.history, rows, Some(startedAt), call.begin, call.end);
      RowsAreConsistent(s);
      EndCloses(s.Rows(), startedAt, now);
      SeenClosed(s.history + [rows], startedAt, call.begin, call.end);
    case _ =>
  }

  lemma {:induction false} RowsAreConsistent(s: System)
    requires HistoryInv(s.history)
    ensures Consistent(s.Rows())
  {
  }

  /** One action of any process keeps the invariant. */
  lemma {:induction false} StepKeepsInv(policy: Policy, s: System, a: Action)
    requires Inv(s)
    ensures Inv(Step(policy, s, a))
  {
    var t := Step(policy, s, a);
    var rows := t.history[|s.history|];
    if Enabled(s, a) && !a.Begin? {
      EffectKeepsTable(s.calls[a.process].stage, s.Rows());
    }
    HistoryAppend(s.history, rows);
    forall p | p in t.calls
      ensures CallInv(t.history, t.calls[p])
    {
      if p in s.calls {
        CallStays(s.history, rows, s.calls[p]);
      }
      if Enabled(s, a) && p == a.process && a.Proceed? {
        NextCallInv(policy, s, p, a.count);
      }
    }
  }

  lemma {:induction false} ExecKeepsInv(policy: Policy, actions: seq<Action>)
    ensures Inv(Exec(policy, actions))
  {
    if |actions| > 0 {
      ExecKeepsInv(policy, actions[..|actions| - 1]);
      StepKeepsInv(policy, Exec(policy, actions[..|actions| - 1]), actions[|actions| - 1]);
    }
  }

  /** However the calls of any processes interleave and fail: at every step at most one hold is
      open, and a hold that has ended is never touched again. */
  lemma {:induction false} HoldsEndOnce(policy: Policy, actions: seq<Action>, i: int, j: int, k: int)
    requires 0 <= i <= j < |Exec(policy, actions).history| && 0 <= k < |Exec(policy, actions).history[i]|
    ensures var h := Exec(policy, actions).history;
      && Consistent(h[i])
      && k < |h[j]| && h[j][k].startedAt == h[i][k].startedAt
      && (!IsOpen(h[i][k]) ==> h[j][k] == h[i][k])
  {
    ExecKeepsInv(policy, actions);
    var h := Exec(policy, actions).history;
    assert Grows(h[i], h[j]);
  }

  /** What a call returns was the open hold of the table at some step while the call ran. */
  lemma {:induction false} ReturnedViewWasTrue(policy: Policy, actions: seq<Action>, p: Id)
    requires var s := Exec(policy, actions); p in s.calls && s.calls[p].stage.Returned?
    ensures var s := Exec(policy, actions); Seen(s.history, s.calls[p].stage.view, s.calls[p].begin, s.calls[p].end)
  {
    ExecKeepsInv(policy, actions);
    var s := Exec(policy, actions);
    assert CallInv(s.history, s.calls[p]);
  }

  /** A step that ends a hold is the end call of a process that, since its evaluation began, saw
      a hold open that started when the ended one did. */
  lemma {:induction false} EndedHoldWasSeen(policy: Policy, actions: seq<Action>, a: Action, k: int)
    requires var s := Exec(policy, actions);
      0 <= k < |s.Rows()| && IsOpen(s.Rows()[k]) && k < |Step(policy, s, a).Rows()|
        && !IsOpen(Step(policy, s, a).Rows()[k])
    ensures var s := Exec(policy, actions);
      && a.process in s.calls && s.calls[a.process].stage.Ending?
      && Seen(s.history, Some(s.Rows()[k].startedAt), s.calls[a.process].begin, s.calls[a.process].end)
  {
    ExecKeepsInv(policy, actions);
    var s := Exec(policy, actions);
    if a.process in s.calls {
      assert CallInv(s.history, s.calls[a.process]);
    }
  }

  /** A call decides on the hold that it found and the pages that it counted, whatever is open by then. */
  lemma {:induction false} DecidesOnWhatItSaw(policy: Policy, actions: seq<Action>, p: Id,
      count: HeartbeatLossCount)
    requires var s := Exec(policy, actions); p in s.calls && s.calls[p].stage.Counting?
    ensures var s, n := Exec(policy, actions), Exec(policy, actions + [Proceed(p, count)]);
            var now, open := s.calls[p].stage.now, s.calls[p].stage.open;
            var enough, share := count.recent >= policy.minDevices, policy.threshold * count.recent as real;
            var many, few := enough && count.lost as real >= share, enough && (count.lost as real) < share;
            var over := open.Some? && now >= open.value + policy.maxDuration;
      && n.Rows() == s.Rows() && p in n.calls
      && n.calls[p].stage ==
           if over || (open.Some? && few) then Ending(now, open.value, many, count.lost)
           else if open == None && many then Starting(now, count.lost) else Returned(open)
  {
    assert (actions + [Proceed(p, count)])[..|actions|] == actions;
    hide OpenSince, AfterStart, AfterEnd;
  }

  /** A call that nothing interrupts does and returns what one sequential evaluation does. */
  function Alone(policy: Policy, s: System, p: Id, count: HeartbeatLossCount, steps: nat): System {
    if steps == 0 then s else Step(policy, Alone(policy, s, p, count, steps - 1), Proceed(p, count))
  }

  lemma {:induction false} StepAlone(policy: Policy, s: System, p: Id, count: HeartbeatLossCount)
    requires |s.history| > 0 && p in s.calls
    ensures var t := Step(policy, s, Proceed(p, count));
      && |t.history| > 0 && p in t.calls
      && t.Rows() == Effect(s.calls[p].stage, s.Rows())
      && t.calls[p].stage == NextStage(policy, s.calls[p].stage, s.Rows(), count)
  {
    hide AfterEnd, AfterStart, OpenSince, Policy.Decide;
  }

  /** The table and where a call stands, after the next repository calls of that call alone. */
  function Onward(policy: Policy, rows: seq<HoldRow>, stage: Stage, count: HeartbeatLossCount,
      steps: nat): (seq<HoldRow>, Stage)
  {
    if steps == 0 then (rows, stage)
    else
      var (r, g) := Onward(policy, rows, stage, count, steps - 1);
      (Effect(g, r), NextStage(policy, g, r, count))
  }

  lemma {:induction false} AloneGoesOn(policy: Policy, s: System, p: Id, count: HeartbeatLossCount, steps: nat)
    requires |s.history| > 0 && p in s.calls
    ensures var t := Alone(policy, s, p, count, steps);
      && |t.history| > 0 && p in t.calls
      && (t.Rows(), t.calls[p].stage) == Onward(policy, s.Rows(), s.calls[p].stage, count, steps)
  {
    hide Effect, NextStage, Step;
    if steps > 0 {
      AloneGoesOn(policy, s, p, count, steps - 1);
      StepAlone(policy, Alone(policy, s, p, count, steps - 1), p, count);
    }
  }

  lemma {:induction false} OnwardIsSequential(policy: Policy, rows: seq<HoldRow>, now: Time, devices: seq<Device>)
    ensures var count := CountOf(devices, policy.RecentSince(now), policy.LostBefore(now));
      var o := Evaluation(policy, rows, devices, now, None);
      Onward(policy, rows, Finding(now), count, 5) == (o.rows, Returned(o.hold.value.startedAt))
  {
    hide CountOf, AfterEnd, AfterStart, OpenSince, Policy.Decide;
    var count := CountOf(devices, policy.RecentSince(now), policy.LostBefore(now));
    var second := Onward(policy, rows, Finding(now), count, 2);
    assert Onward(policy, rows, Finding(now), count, 1) == (rows, Counting(now, OpenSince(rows)));
    var third := Onward(policy, rows, Finding(now), count, 3);
    var fourth := Onward(policy, rows, Finding(now), count, 4);
  }

  lemma {:induction false} AloneIsSequential(policy: Policy, s: System, p: Id, now: Time, devices: seq<Device>)
    requires |s.history| > 0 && Enabled(s, Begin(p, now))
    ensures var count := CountOf(devices, policy.RecentSince(now), policy.LostBefore(now));
      var t := Alone(policy, Step(policy, s, Begin(p, now)), p, count, 5);
      var o := Evaluation(policy, s.Rows(), devices, now, None);
      t.Rows() == o.rows && p in t.calls && t.calls[p].stage == Returned(o.hold.value.startedAt)
  {
    var count := CountOf(devices, policy.RecentSince(now), policy.LostBefore(now));
    var begun := Step(policy, s, Begin(p, now));
    assert begun.Rows() == s.Rows() && begun.calls[p].stage == Finding(now);
    hide CountOf, Step, Evaluation, Onward, Alone;
    OnwardIsSequential(policy, s.Rows(), now, devices);
    AloneGoesOn(policy, begun, p, count, 5);
  }
}
