/** Completion observers (CompletionObserver.java): the guarded state machines that bridge an
    animated text's "finished" signal to one deferred run of a trigger list. */
module Observers {

  /** The two concrete observers: AnimatedTextAfterClickObserver and AnimatedTextImmediateObserver. */
  datatype Kind = AfterClick | Immediate

  /** An observer attached to an animated text. `list` is the triggerID of the sequence whose trigger
      list it holds (the list object is shared with the sequence, so it is named rather than copied);
      `pending` is true while its timer task is scheduled and has not yet run. `done` and `count`
      are the immediate observer's own fields. */
  datatype Observer = Observer(kind: Kind, list: string, delay: real, done: bool, count: nat, pending: bool)

  /** The observable animated text, as far as the observers see it: its finished() answer, the
      clickOnce and clickable flags, and the handles of the completion observers added to it. */
  datatype Subject = Subject(finished: bool, clickOnce: bool, clickable: bool, observers: seq<nat>)

  /** A freshly constructed observer: not yet scheduled, never done, count zero. */
  function NewObserver(kind: Kind, list: string, delay: real): Observer
  {
    Observer(kind, list, delay, false, 0, false)
  }

  /** The guard of update(): does a notification from `s` schedule the observer's task? */
  predicate Schedules(o: Observer, s: Subject)
  {
    s.finished && match o.kind
                  case AfterClick => !s.clickOnce
                  case Immediate => !o.done
  }

  /** One call of update(animText, arg): the new observer and the new subject. */
  function Update(o: Observer, s: Subject): (r: (Observer, Subject))
    ensures !s.finished ==> r == (o, s)
    ensures r.0.pending == (o.pending || Schedules(o, s))
    ensures r.0.kind == o.kind && r.0.list == o.list && r.0.delay == o.delay
    ensures r.0.done == (o.done || (o.kind == Immediate && s.finished))
    ensures r.0.count == o.count + (if o.kind == Immediate && Schedules(o, s) then 1 else 0)
    ensures r.1.clickOnce == (s.clickOnce || (o.kind == AfterClick && s.finished))
    ensures r.1.finished == s.finished && r.1.clickable == s.clickable && r.1.observers == s.observers
  {
    if !Schedules(o, s) then (o, s)
    else match o.kind
      case AfterClick => (o.(pending := true), s.(clickOnce := true))
      case Immediate => (o.(pending := true, count := o.count + 1, done := true), s)
  }

  /** The state after a series of notifications, and how many of them scheduled the task. */
  datatype Trace = Trace(obs: Observer, subj: Subject, schedules: nat)

  /** Deliver one notification per element of `finished`; before the i-th one the subject's own
      reveal logic has set its finished() answer to finished[i]. */
  function Deliver(o: Observer, s: Subject, finished: seq<bool>): Trace
    decreases |finished|
  {
    if finished == [] then Trace(o, s, 0)
    else
      var s1 := s.(finished := finished[0]);
      var r := Update(o, s1);
      var rest := Deliver(r.0, r.1, finished[1..]);
      rest.(schedules := rest.schedules + if Schedules(o, s1) then 1 else 0)
  }

  lemma FirstAndRest(finished: seq<bool>)
    requires finished != []
    ensures (true in finished) == (finished[0] || true in finished[1..])
  {
    assert finished == [finished[0]] + finished[1..];
  }

  /** The immediate observer schedules at most once over any series of notifications: exactly once
      if it was not done and some notification saw the text finished, and `count` counts it. */
  lemma {:induction false} ImmediateSchedulesAtMostOnce(o: Observer, s: Subject, finished: seq<bool>)
    requires o.kind == Immediate
    ensures var r := Deliver(o, s, finished);
      && r.schedules == (if !o.done && true in finished then 1 else 0)
      && r.obs.done == (o.done || true in finished)
      && r.obs.count == o.count + r.schedules
      && r.obs.pending == (o.pending || r.schedules == 1)
      && r.subj.clickOnce == s.clickOnce && r.subj.clickable == s.clickable
    decreases |finished|
  {
    if finished != [] {
      FirstAndRest(finished);
      var s1 := s.(finished := finished[0]);
      var r := Update(o, s1);
      ImmediateSchedulesAtMostOnce(r.0, r.1, finished[1..]);
    }
  }

  /** count == number of schedules made, hence never above one, is kept by every series. */
  lemma ImmediateCountAtMostOne(o: Observer, s: Subject, finished: seq<bool>)
    requires o.kind == Immediate && o.count == (if o.done then 1 else 0)
    ensures Deliver(o, s, finished).obs.count == (if Deliver(o, s, finished).obs.done then 1 else 0)
    ensures Deliver(o, s, finished).obs.count <= 1
  {
    ImmediateSchedulesAtMostOnce(o, s, finished);
  }

  /** The click-gated observer schedules only while the subject's clickOnce is still false, and the
      first finished notification sets it: at most one schedule over any series. */
  lemma {:induction false} AfterClickSchedulesAtMostOnce(o: Observer, s: Subject, finished: seq<bool>)
    requires o.kind == AfterClick
    ensures var r := Deliver(o, s, finished);
      && r.schedules == (if !s.clickOnce && true in finished then 1 else 0)
      && r.subj.clickOnce == (s.clickOnce || true in finished)
      && r.obs.pending == (o.pending || r.schedules == 1)
      && r.obs.done == o.done && r.obs.count == o.count && r.subj.clickable == s.clickable
    decreases |finished|
  {
    if finished != [] {
      FirstAndRest(finished);
      var s1 := s.(finished := finished[0]);
      var r := Update(o, s1);
      AfterClickSchedulesAtMostOnce(r.0, r.1, finished[1..]);
    }
  }

  /** The click guard lives on the subject: once one click-gated observer has scheduled, no other
      click-gated observer of the same subject schedules on any later series of notifications. */
  lemma ClickGuardIsShared(o1: Observer, o2: Observer, s: Subject, later: seq<bool>)
    requires o1.kind == AfterClick && o2.kind == AfterClick
    requires Schedules(o1, s)
    ensures !Schedules(o2, Update(o1, s).1)
    ensures Deliver(o2, Update(o1, s).1, later).schedules == 0
  {
    AfterClickSchedulesAtMostOnce(o2, Update(o1, s).1, later);
  }

  /** A subject that reports finished on three consecutive ticks has its immediate observer's
      downstream triggers scheduled exactly once. */
  lemma ThreeFinishedTicksScheduleOnce(list: string, delay: real, s: Subject)
    ensures Deliver(NewObserver(Immediate, list, delay), s, [true, true, true]).schedules == 1
  {
    ImmediateSchedulesAtMostOnce(NewObserver(Immediate, list, delay), s, [true, true, true]);
  }
}
