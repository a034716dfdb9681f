/**
 resolver.go: the watcher goroutine and the goroutines that wake it, as interleaved steps.

 `ResolveNow` sends to a channel of capacity one and drops its token when the buffer is
 full; `OnInstancesUpdate` waits instead. One goroutine receives: it selects between
 cancellation, a token and a timer tick, and refreshes after a token or a tick. A receive
 from a full buffer moves the longest-waiting sender's token into the buffer.

 `unserved` is the history variable: the requests after which no lookup has begun yet.
 Requests are numbered in the order of their calls.
 */
module Watcher {
  import opened Wrappers

  /** Where the watcher goroutine is. `Woken` and `Ticked` have not begun their lookup. */
  datatype Pc = Selecting | Woken | Ticked | LookingUp | Stopped

  datatype Tally = Tally(accepted: nat, dropped: nat, abandoned: nat, received: nat, ticks: nat, lookups: nat)

  datatype Watch = Watch(buffered: bool, waiting: seq<nat>, pc: Pc, cancelled: bool, next: nat,
                         unserved: set<nat>, tally: Tally)

  datatype Action = ResolveNow | OnInstancesUpdate | Close | Receive | Tick | BeginLookup | EndLookup | Stop

  function Init(): Watch {
    Watch(false, [], Selecting, false, 0, {}, Tally(0, 0, 0, 0, 0, 0))
  }

  /** A step of the watcher goroutine itself. */
  predicate IsWatcherStep(a: Action) {
    a == Receive || a == Tick || a == BeginLookup || a == EndLookup || a == Stop
  }

  /** gRPC does not call `ResolveNow` after `Close`. */
  predicate Enabled(s: Watch, a: Action) {
    match a
    case ResolveNow => !s.cancelled
    case OnInstancesUpdate => true
    case Close => true
    case Receive => s.pc == Selecting && s.buffered
    case Tick => s.pc == Selecting
    case BeginLookup => s.pc == Woken || s.pc == Ticked
    case EndLookup => s.pc == LookingUp
    case Stop => s.pc == Selecting && s.cancelled
  }

  function Request(s: Watch): Watch {
    s.(next := s.next + 1, unserved := s.unserved + {s.next})
  }

  function Apply(s: Watch, a: Action): Watch {
    var t := s.tally;
    match a
    case ResolveNow =>
      if s.buffered then Request(s).(tally := t.(dropped := t.dropped + 1))
      else Request(s).(buffered := true, tally := t.(accepted := t.accepted + 1))
    case OnInstancesUpdate =>
      if s.pc == Stopped then Request(s).(tally := t.(abandoned := t.abandoned + 1))
      else if s.buffered then Request(s).(waiting := s.waiting + [s.next])
      else Request(s).(buffered := true, tally := t.(accepted := t.accepted + 1))
    case Close => s.(cancelled := true)
    case Receive =>
      if s.waiting == [] then s.(pc := Woken, buffered := false, tally := t.(received := t.received + 1))
      else s.(pc := Woken, waiting := s.waiting[1..],
              tally := t.(received := t.received + 1, accepted := t.accepted + 1))
    case Tick => s.(pc := Ticked, tally := t.(ticks := t.ticks + 1))
    case BeginLookup => s.(pc := LookingUp, unserved := {}, tally := t.(lookups := t.lookups + 1))
    case EndLookup => s.(pc := Selecting)
    case Stop => s.(pc := Stopped, waiting := [], tally := t.(abandoned := t.abandoned + |s.waiting|))
  }

  /** `actions` is a schedule the goroutines can follow from `s`. */
  predicate Feasible(s: Watch, actions: seq<Action>)
    decreases |actions|
  {
    actions == [] || (Enabled(s, actions[0]) && Feasible(Apply(s, actions[0]), actions[1..]))
  }

  function After(s: Watch, actions: seq<Action>): Watch
    decreases |actions|
  {
    if actions == [] then s else After(Apply(s, actions[0]), actions[1..])
  }

  // ---------- the invariant ----------

  /** A token or a received token stands for every unserved request. */
  ghost predicate InOrder(s: Watch) {
    && (s.waiting != [] ==> s.buffered && s.pc != Stopped)
    && (s.pc == Stopped ==> s.cancelled)
    && (forall r :: r in s.unserved ==> r < s.next)
    && (forall i :: 0 <= i < |s.waiting| ==> s.waiting[i] < s.next)
    && (s.pc != Stopped && s.unserved != {} ==> s.buffered || s.pc == Woken)
  }

  /** Every call, token and lookup is accounted for. */
  ghost predicate Balanced(s: Watch) {
    && s.next == s.tally.accepted + s.tally.dropped + s.tally.abandoned + |s.waiting|
    && s.tally.accepted == s.tally.received + (if s.buffered then 1 else 0)
    && s.tally.received + s.tally.ticks
         == s.tally.lookups + (if s.pc == Woken || s.pc == Ticked then 1 else 0)
  }

  lemma StepInOrder(s: Watch, a: Action)
    requires InOrder(s) && Enabled(s, a)
    ensures InOrder(Apply(s, a))
  {
  }

  lemma {:induction false} RunInOrder(s: Watch, actions: seq<Action>)
    requires InOrder(s) && Feasible(s, actions)
    ensures InOrder(After(s, actions))
    decreases |actions|
  {
    if actions != [] {
      StepInOrder(s, actions[0]);
      RunInOrder(Apply(s, actions[0]), actions[1..]);
    }
  }

  /** No lost wake-up: in every interleaving, until the watcher stops, a request that no
      lookup has followed is covered by a buffered token or by one received whose lookup has
      not begun; in particular a dropped `ResolveNow` is covered by the buffered token. */
  lemma {:induction false} NoLostWakeup(actions: seq<Action>)
    requires Feasible(Init(), actions)
    ensures var s := After(Init(), actions);
            && (s.pc != Stopped && s.unserved != {} ==> s.buffered || s.pc == Woken)
            && (s.waiting != [] ==> s.buffered)
            && (Enabled(s, ResolveNow) ==> s.next in Apply(s, ResolveNow).unserved && Apply(s, ResolveNow).buffered)
  {
    RunInOrder(Init(), actions);
  }

  /** Close releases everyone: once the watcher has stopped no sender waits, now or later. */
  lemma {:induction false} StoppedReleases(actions: seq<Action>)
    requires Feasible(Init(), actions) && After(Init(), actions).pc == Stopped
    ensures var s := After(Init(), actions);
            && s.waiting == [] && s.cancelled
            && Apply(s, OnInstancesUpdate).waiting == []
            && forall a :: IsWatcherStep(a) ==> !Enabled(s, a)
  {
    RunInOrder(Init(), actions);
  }

  lemma StepBalanced(s: Watch, a: Action)
    requires InOrder(s) && Balanced(s) && Enabled(s, a)
    ensures Balanced(Apply(s, a))
  {
  }

  lemma {:induction false} RunBalanced(s: Watch, actions: seq<Action>)
    requires InOrder(s) && Balanced(s) && Feasible(s, actions)
    ensures Balanced(After(s, actions))
    decreases |actions|
  {
    if actions != [] {
      StepInOrder(s, actions[0]);
      StepBalanced(s, actions[0]);
      RunBalanced(Apply(s, actions[0]), actions[1..]);
    }
  }

  /** Conservation in every interleaving: each call was accepted, dropped, abandoned or is
      waiting; each accepted token was received or is buffered; each receive and each tick
      makes one lookup. */
  lemma {:induction false} Conservation(actions: seq<Action>)
    requires Feasible(Init(), actions)
    ensures Balanced(After(Init(), actions))
  {
    RunBalanced(Init(), actions);
  }

  // ---------- the calls of a schedule ----------

  predicate IsCall(a: Action) {
    a == ResolveNow || a == OnInstancesUpdate
  }

  /** The calls made, in order: the call numbered `r` is `Calls(actions)[r]`. */
  function Calls(actions: seq<Action>): seq<Action> {
    if actions == [] then []
    else
      var earlier, a := Calls(actions[..|actions| - 1]), actions[|actions| - 1];
      if IsCall(a) then earlier + [a] else earlier
  }

  /** The number of calls made before the latest lookup began. */
  function CallsBeforeLookup(actions: seq<Action>): nat {
    if actions == [] then 0
    else if actions[|actions| - 1] == BeginLookup then |Calls(actions[..|actions| - 1])|
    else CallsBeforeLookup(actions[..|actions| - 1])
  }

  lemma {:induction false} AfterSnoc(s: Watch, actions: seq<Action>, a: Action)
    ensures After(s, actions + [a]) == Apply(After(s, actions), a)
    ensures Feasible(s, actions + [a]) <==> Feasible(s, actions) && Enabled(After(s, actions), a)
    decreases |actions|
  {
    var all := actions + [a];
    if actions == [] {
      assert all[1..] == [];
    } else {
      assert all[1..] == actions[1..] + [a];
      AfterSnoc(Apply(s, actions[0]), actions[1..], a);
    }
  }

  lemma {:induction false} LastAction(actions: seq<Action>) returns (front: seq<Action>, a: Action)
    requires actions != [] && Feasible(Init(), actions)
    ensures actions == front + [a] && front == actions[..|actions| - 1] && a == actions[|actions| - 1]
    ensures Feasible(Init(), front) && Enabled(After(Init(), front), a)
    ensures After(Init(), actions) == Apply(After(Init(), front), a)
  {
    front, a := actions[..|actions| - 1], actions[|actions| - 1];
    assert actions == front + [a];
    AfterSnoc(Init(), front, a);
  }

  /** `calls` are the calls made so far, the first `served` of them before a lookup began. */
  ghost predicate Remembers(s: Watch, calls: seq<Action>, served: nat, closed: bool, stopped: bool) {
    && s.next == |calls| && served <= |calls|
    && (forall r :: r in s.unserved <==> served <= r < |calls|)
    && (s.cancelled <==> closed)
    && (s.pc == Stopped <==> stopped)
  }

  lemma StepRemembers(s: Watch, a: Action, calls: seq<Action>, served: nat, closed: bool, stopped: bool)
    requires Remembers(s, calls, served, closed, stopped) && Enabled(s, a)
    ensures Remembers(Apply(s, a), if IsCall(a) then calls + [a] else calls,
                      if a == BeginLookup then |calls| else served, closed || a == Close, stopped || a == Stop)
  {
  }

  /** In every interleaving the unserved requests are the calls made since the latest lookup
      began; the watcher is cancelled if and only if `Close` was called, and stopped if and
      only if it took that case of its select. */
  lemma {:induction false} HistoryExact(actions: seq<Action>)
    requires Feasible(Init(), actions)
    ensures Remembers(After(Init(), actions), Calls(actions), CallsBeforeLookup(actions),
                      Close in actions, Stop in actions)
  {
    if actions != [] {
      var front, a := LastAction(actions);
      HistoryExact(front);
      StepRemembers(After(Init(), front), a, Calls(front), CallsBeforeLookup(front), Close in front, Stop in front);
      assert Close in actions <==> Close in front || a == Close;
      assert Stop in actions <==> Stop in front || a == Stop;
    }
  }

  /** The calls that had to wait, in order: those of `OnInstancesUpdate` that met a full
      buffer before the watcher stopped. */
  function Blocked(actions: seq<Action>): seq<nat> {
    if actions == [] then []
    else
      var front, a := actions[..|actions| - 1], actions[|actions| - 1];
      if a == OnInstancesUpdate && After(Init(), front).buffered && After(Init(), front).pc != Stopped
      then Blocked(front) + [|Calls(front)|]
      else Blocked(front)
  }

  /** The `ResolveNow` calls that met a full buffer. */
  function MetFull(actions: seq<Action>): nat {
    if actions == [] then 0
    else
      var front, a := actions[..|actions| - 1], actions[|actions| - 1];
      MetFull(front) + if a == ResolveNow && After(Init(), front).buffered then 1 else 0
  }

  /** The senders that wait are the latest of `blocked`, all of them calls of
      `OnInstancesUpdate`. */
  ghost predicate Queued(s: Watch, calls: seq<Action>, blocked: seq<nat>) {
    && |s.waiting| <= |blocked| && s.waiting == blocked[|blocked| - |s.waiting|..]
    && forall w :: w in blocked ==> w < |calls| && calls[w] == OnInstancesUpdate
  }

  lemma StepQueued(s: Watch, a: Action, calls: seq<Action>, blocked: seq<nat>)
    requires Queued(s, calls, blocked) && s.next == |calls|
    ensures Queued(Apply(s, a), if IsCall(a) then calls + [a] else calls,
                   if a == OnInstancesUpdate && s.buffered && s.pc != Stopped then blocked + [|calls|] else blocked)
  {
  }

  /** Over every interleaving: only calls of `OnInstancesUpdate` ever wait, those that still
      do are the latest of them, in order, so the longest-waiting one is released first;
      what is dropped are exactly the `ResolveNow` calls that met a full buffer. */
  lemma {:induction false} OnlyUpdatesWait(actions: seq<Action>)
    requires Feasible(Init(), actions)
    ensures Queued(After(Init(), actions), Calls(actions), Blocked(actions))
    ensures After(Init(), actions).tally.dropped == MetFull(actions)
  {
    if actions != [] {
      var front, a := LastAction(actions);
      OnlyUpdatesWait(front);
      HistoryExact(front);
      StepQueued(After(Init(), front), a, Calls(front), Blocked(front));
    }
  }

  /** In particular a waiting sender is never a `ResolveNow`, which always returns at once. */
  lemma {:induction false} ResolveNowNeverWaits(actions: seq<Action>)
    requires Feasible(Init(), actions)
    ensures var s, s' := After(Init(), actions), Apply(After(Init(), actions), ResolveNow);
            && (forall w :: w in s.waiting ==> w < |Calls(actions)| && Calls(actions)[w] == OnInstancesUpdate)
            && s'.waiting == s.waiting && s'.buffered
            && s'.tally == if s.buffered then s.tally.(dropped := s.tally.dropped + 1)
                           else s.tally.(accepted := s.tally.accepted + 1)
  {
    OnlyUpdatesWait(actions);
    var s := After(Init(), actions);
    assert forall w :: w in s.waiting ==> w in Blocked(actions);
  }

  /** An `OnInstancesUpdate` is never dropped: it waits exactly when the buffer is full and
      the channel still open, and only a closed channel makes it give up. */
  lemma {:induction false} UpdatesAreNeverDropped(actions: seq<Action>)
    requires Feasible(Init(), actions)
    ensures var s, s' := After(Init(), actions), Apply(After(Init(), actions), OnInstancesUpdate);
            && s'.waiting == s.waiting + (if s.buffered && Stop !in actions then [|Calls(actions)|] else [])
            && s'.tally.dropped == s.tally.dropped
            && s'.tally.abandoned == s.tally.abandoned + (if Stop in actions then 1 else 0)
            && s'.tally.accepted == s.tally.accepted + (if s.buffered || Stop in actions then 0 else 1)
  {
    HistoryExact(actions);
  }

  // ---------- progress ----------

  /** The watcher steps still needed before a lookup begins for what is unserved. */
  function Distance(pc: Pc): nat {
    match pc
    case Woken => 1
    case Ticked => 1
    case Selecting => 2
    case LookingUp => 3
    case Stopped => 0
  }

  function WatcherSteps(actions: seq<Action>): nat {
    if actions == [] then 0
    else (if IsWatcherStep(actions[0]) then 1 else 0) + WatcherSteps(actions[1..])
  }

  /** Whatever else happens in between, each watcher step brings the lookup closer. */
  lemma {:induction false} ServedByDistance(s: Watch, actions: seq<Action>, r: nat)
    requires InOrder(s) && Feasible(s, actions) && s.pc != Stopped
    requires r in s.unserved && Stop !in actions
    requires WatcherSteps(actions) >= Distance(s.pc)
    ensures r !in After(s, actions).unserved
    decreases |actions|
  {
    var a := actions[0];
    var s' := Apply(s, a);
    StepInOrder(s, a);
    assert forall x :: x in actions[1..] ==> x in actions;
    if a == BeginLookup {
      ServedForGood(s', actions[1..], r);
    } else {
      ServedByDistance(s', actions[1..], r);
    }
  }

  lemma {:induction false} ServedForGood(s: Watch, actions: seq<Action>, r: nat)
    requires r !in s.unserved && r < s.next
    ensures r !in After(s, actions).unserved
    decreases |actions|
  {
    if actions != [] {
      ServedForGood(Apply(s, actions[0]), actions[1..], r);
    }
  }

  /** Every request is followed by a lookup that begins within three further steps of the
      watcher, in every interleaving in which it has not stopped. */
  lemma {:induction false} ServedWithinThree(before: seq<Action>, actions: seq<Action>, r: nat)
    requires Feasible(Init(), before) && Feasible(After(Init(), before), actions)
    requires After(Init(), before).pc != Stopped && Stop !in actions
    requires r in After(Init(), before).unserved && WatcherSteps(actions) >= 3
    ensures r !in After(After(Init(), before), actions).unserved
  {
    RunInOrder(Init(), before);
    ServedByDistance(After(Init(), before), actions, r);
  }

  /** The watcher is never stuck while a request is unserved, even if the timer never fires. */
  lemma {:induction false} NeverStuck(actions: seq<Action>)
    requires Feasible(Init(), actions)
    requires After(Init(), actions).pc != Stopped && After(Init(), actions).unserved != {}
    ensures exists a :: IsWatcherStep(a) && a != Tick && a != Stop && Enabled(After(Init(), actions), a)
  {
    RunInOrder(Init(), actions);
    var s := After(Init(), actions);
    assert Enabled(s, if s.pc == Selecting then Receive else if s.pc == LookingUp then EndLookup else BeginLookup);
  }

  // ---------- the object ----------

  class PolarisNamingResolver {
    var eventCh: bool
    var senders: seq<nat>
    var pc: Pc
    var cancelled: bool
    ghost var next: nat
    ghost var unserved: set<nat>
    ghost var tally: Tally

    ghost function View(): Watch
      reads this
    {
      Watch(eventCh, senders, pc, cancelled, next, unserved, tally)
    }

    constructor ()
      ensures View() == Init()
    {
      eventCh, senders, pc, cancelled := false, [], Selecting, false;
      next, unserved, tally := 0, {}, Tally(0, 0, 0, 0, 0, 0);
    }

    /** A send that gives up at once when the buffer is full. */
    method ResolveNow()
      requires Enabled(View(), Action.ResolveNow)
      modifies this
      ensures View() == Apply(old(View()), Action.ResolveNow)
      ensures eventCh && senders == old(senders) && pc == old(pc)
      ensures tally == if old(eventCh) then old(tally).(dropped := old(tally).dropped + 1)
                       else old(tally).(accepted := old(tally).accepted + 1)
    {
      if eventCh {
        tally := tally.(dropped := tally.dropped + 1);
      } else {
        eventCh := true;
        tally := tally.(accepted := tally.accepted + 1);
      }
      unserved, next := unserved + {next}, next + 1;
    }

    /** A send that waits; on a closed channel it panics and recovers. `id` names the sender. */
    method OnInstancesUpdate(id: nat)
      requires id == next
      modifies this
      ensures View() == Apply(old(View()), Action.OnInstancesUpdate)
      ensures senders == if old(eventCh) && pc != Stopped then old(senders) + [id] else old(senders)
      ensures tally.dropped == old(tally).dropped && pc == old(pc)
    {
      if pc == Stopped {
        tally := tally.(abandoned := tally.abandoned + 1);
      } else if eventCh {
        senders := senders + [id];
      } else {
        eventCh := true;
        tally := tally.(accepted := tally.accepted + 1);
      }
      unserved, next := unserved + {next}, next + 1;
    }

    method Close()
      modifies `cancelled
      ensures View() == Apply(old(View()), Action.Close)
    {
      cancelled := true;
    }

    /** The select of the watcher loop: `ticked` says whether the timer has fired, and
        `prefer` resolves the choice among the ready cases. */
    method Select(ticked: bool, prefer: Action) returns (taken: Action)
      requires pc == Selecting && (cancelled || eventCh || ticked)
      modifies this
      ensures taken == Action.Stop || taken == Receive || taken == Tick
      ensures Enabled(old(View()), taken) && View() == Apply(old(View()), taken)
      ensures taken == Tick ==> ticked
      ensures IsWatcherStep(prefer) && Enabled(old(View()), prefer) && (prefer == Tick ==> ticked) ==> taken == prefer
    {
      if cancelled && (prefer == Action.Stop || (!eventCh && !ticked)) {
        tally := tally.(abandoned := tally.abandoned + |senders|);
        pc, senders := Stopped, [];
        taken := Action.Stop;
      } else if eventCh && (prefer == Receive || !ticked) {
        if senders == [] {
          eventCh := false;
          tally := tally.(received := tally.received + 1);
        } else {
          senders := senders[1..];
          tally := tally.(received := tally.received + 1, accepted := tally.accepted + 1);
        }
        pc := Woken;
        taken := Receive;
      } else {
        tally := tally.(ticks := tally.ticks + 1);
        pc := Ticked;
        taken := Tick;
      }
    }

    /** `doRefresh`, up to the start of its lookup. */
    method StartRefresh()
      requires pc == Woken || pc == Ticked
      modifies this
      ensures View() == Apply(old(View()), BeginLookup)
    {
      pc, unserved := LookingUp, {};
      tally := tally.(lookups := tally.lookups + 1);
    }

    /** `doRefresh`, once its outcome has been reported. */
    method FinishRefresh()
      requires pc == LookingUp
      modifies this
      ensures View() == Apply(old(View()), EndLookup)
    {
      pc := Selecting;
    }
  }
}
