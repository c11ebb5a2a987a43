/** What the scene semantics promises: the order and fault behaviour of a trigger pass, the lists of
    sequences that only ever grow, the observers that arming attaches, fresh handles, and the ends
    of the two fades. */
module SceneProperties {
  import opened Observers
  import opened SceneData
  import opened Resolution
  import opened Fades
  import opened SceneSpec

  /** Continue a pass with `rest` unless it has already thrown. */
  function Then(tm: TriggerMap, r: Run, rest: seq<Option<Trigger>>, depth: nat): Run
  {
    if r.outcome.Failed? then r else ExecAll(tm, r.state, rest, depth)
  }

  /** A pass over a + b is the pass over a followed, unless it threw, by the pass over b:
      entries run strictly in index order, each once. */
  lemma {:induction false} ExecAllSplit(tm: TriggerMap, st: SceneState, a: seq<Option<Trigger>>,
                                         b: seq<Option<Trigger>>, depth: nat)
    ensures ExecAll(tm, st, a + b, depth) == Then(tm, ExecAll(tm, st, a, depth), b, depth)
    decreases |b|
  {
    if b == [] {
      assert a + b == a;
    } else {
      var b' := b[..|b| - 1];
      assert (a + b)[..|a + b| - 1] == a + b';
      assert (a + b)[|a + b| - 1] == b[|b| - 1];
      ExecAllSplit(tm, st, a, b', depth);
    }
  }

  /** A pass whose first i entries finished continues with entry i on the state they left. */
  lemma ExecAllSnoc(tm: TriggerMap, st: SceneState, es: seq<Option<Trigger>>, i: nat, depth: nat)
    requires i < |es| && ExecAll(tm, st, es[..i], depth).outcome == Done
    ensures ExecAll(tm, st, es[..i + 1], depth) == ExecEntry(tm, ExecAll(tm, st, es[..i], depth).state, es[i], depth)
  {
    assert es[..i + 1][..i] == es[..i];
  }

  /** Once a prefix of the pass has thrown, nothing after it runs. */
  lemma FailureEndsPass(tm: TriggerMap, st: SceneState, es: seq<Option<Trigger>>, k: nat, depth: nat)
    requires k <= |es| && ExecAll(tm, st, es[..k], depth).outcome.Failed?
    ensures ExecAll(tm, st, es, depth) == ExecAll(tm, st, es[..k], depth)
  {
    ExecAllSplit(tm, st, es[..k], es[k..], depth);
    assert es[..k] + es[k..] == es;
  }

  /** A null entry (an ID that was missing from the trigger map) throws when the pass reaches it:
      the entries before it have run, the entries after it do not. */
  lemma NullEntryEndsPass(tm: TriggerMap, st: SceneState, es: seq<Option<Trigger>>, k: nat, depth: nat)
    requires k < |es| && es[k] == None
    requires ExecAll(tm, st, es[..k], depth).outcome == Done
    ensures ExecAll(tm, st, es, depth) == Run(ExecAll(tm, st, es[..k], depth).state, Failed(NullTrigger))
  {
    assert es[..k + 1][..k] == es[..k];
    FailureEndsPass(tm, st, es, k + 1, depth);
  }

  /** The first entry runs first, on the state the pass started from, one level deeper. */
  lemma PassStartsWithFirstEntry(tm: TriggerMap, st: SceneState, t: Trigger, rest: seq<Option<Trigger>>, depth: nat)
    requires depth > 0
    ensures ExecAll(tm, st, [Some(t)] + rest, depth) == Then(tm, Exec(tm, st, t, depth - 1), rest, depth)
  {
    ExecAllSplit(tm, st, [Some(t)], rest, depth);
    assert [Some(t)][..0] == [];
  }

  // ---- sequence lists are never cleared ----

  /** Every sequence's list in st' extends the one in st, and no handle is taken back. */
  ghost predicate Extends(st: SceneState, st': SceneState)
  {
    && (forall k :: k in st.sequences ==> k in st'.sequences)
    && (forall k :: ListOf(st, k) <= ListOf(st', k))
    && st.next <= st'.next
  }

  lemma ExtendsTransitive(a: SceneState, b: SceneState, c: SceneState)
    requires Extends(a, b) && Extends(b, c)
    ensures Extends(a, c)
  {
    forall k ensures ListOf(a, k) <= ListOf(c, k) {
      var x, y, z := ListOf(a, k), ListOf(b, k), ListOf(c, k);
      assert x <= y && y <= z;
      assert x == y[..|x|] && y == z[..|y|];
      assert x == z[..|x|];
    }
  }

  lemma AppendExtends(st: SceneState, key: string, es: seq<Option<Trigger>>)
    ensures Extends(st, AppendList(st, key, es))
  {
    var r := AppendList(st, key, es);
    assert ListOf(st, key) <= ListOf(st, key) + es;
    forall k ensures ListOf(st, k) <= ListOf(r, k) {
      if k == key { assert ListOf(r, k) == ListOf(st, k) + es; }
    }
  }

  /** A trigger outside sequencing is executed by ExecLeaf, whatever the depth. */
  lemma LeafIgnoresDepth(tm: TriggerMap, st: SceneState, t: Trigger, depth: nat)
    requires !Sequencing(t.action)
    ensures Exec(tm, st, t, depth) == ExecLeaf(tm, st, t)
  {
  }

  /** Executing any trigger leaves every sequence's list with its old contents as a prefix. */
  lemma {:induction false} ExecExtends(tm: TriggerMap, st: SceneState, t: Trigger, depth: nat)
    ensures Extends(st, Exec(tm, st, t, depth).state)
    decreases depth, 1, 0
  {
    if t.action.RunMultipleTriggers? {
      var ids := t.action.triggerIDs;
      var st1 := AppendList(st, t.triggerID, Resolve(tm, ids));
      AppendExtends(st, t.triggerID, Resolve(tm, ids));
      ExecAllExtends(tm, st1, ListOf(st1, t.triggerID), depth);
      ExtendsTransitive(st, st1, Exec(tm, st, t, depth).state);
    } else {
      SingleStepExtends(tm, st, t, depth);
    }
  }

  /** The same for every trigger that does not run a nested pass. */
  lemma SingleStepExtends(tm: TriggerMap, st: SceneState, t: Trigger, depth: nat)
    requires !t.action.RunMultipleTriggers?
    ensures Extends(st, Exec(tm, st, t, depth).state)
  {
    if !Sequencing(t.action) {
      LeafIgnoresDepth(tm, st, t, depth);
      SameSequencesExtends(st, ExecLeaf(tm, st, t).state);
    } else {
      var st1 := AppendList(st, t.triggerID, Resolve(tm, SequenceIDs(t.action)));
      var r := Exec(tm, st, t, depth).state;
      AppendExtends(st, t.triggerID, Resolve(tm, SequenceIDs(t.action)));
      assert r.sequences == st1.sequences && st1.next <= r.next;
      SameSequencesExtends(st1, r);
      ExtendsTransitive(st, st1, r);
    }
  }

  lemma SameSequencesExtends(st: SceneState, st': SceneState)
    requires st.sequences == st'.sequences && st.next <= st'.next
    ensures Extends(st, st')
  {
    forall k ensures ListOf(st, k) <= ListOf(st', k) {
      assert ListOf(st, k) == ListOf(st', k);
    }
  }

  lemma {:induction false} ExecAllExtends(tm: TriggerMap, st: SceneState, es: seq<Option<Trigger>>, depth: nat)
    ensures Extends(st, ExecAll(tm, st, es, depth).state)
    decreases depth, 0, |es|
  {
    if es != [] {
      var r := ExecAll(tm, st, es[..|es| - 1], depth);
      ExecAllExtends(tm, st, es[..|es| - 1], depth);
      if r.outcome.Done? && es[|es| - 1].Some? && depth > 0 {
        ExecExtends(tm, r.state, es[|es| - 1].value, depth - 1);
        assert ExecAll(tm, st, es, depth) == Exec(tm, r.state, es[|es| - 1].value, depth - 1);
        ExtendsTransitive(st, r.state, ExecAll(tm, st, es, depth).state);
      }
    }
  }

  /** Each execution of a RunMultipleTriggers grows its list by exactly one resolved entry per ID
      before running it, and the pass runs the whole accumulated list, earlier batches included;
      whatever the pass does, the list afterwards still starts with all of it. */
  lemma RunMultipleReplaysWholeList(tm: TriggerMap, st: SceneState, t: Trigger, depth: nat)
    requires t.action.RunMultipleTriggers?
    ensures var batch := ListOf(st, t.triggerID) + Resolve(tm, t.action.triggerIDs);
      && |batch| == |ListOf(st, t.triggerID)| + |t.action.triggerIDs|
      && Exec(tm, st, t, depth) == ExecAll(tm, AppendList(st, t.triggerID, Resolve(tm, t.action.triggerIDs)), batch, depth)
      && batch <= ListOf(Exec(tm, st, t, depth).state, t.triggerID)
  {
    var st1 := AppendList(st, t.triggerID, Resolve(tm, t.action.triggerIDs));
    ExecAllExtends(tm, st1, ListOf(st1, t.triggerID), depth);
  }

  /** Run a sequence twice from a state whose list for it is empty: if the first pass leaves exactly
      its own batch there, the second pass runs that batch again and then the new one. */
  lemma SecondRunRerunsFirstBatch(tm: TriggerMap, st: SceneState, t: Trigger, depth: nat)
    requires t.action.RunMultipleTriggers? && ListOf(st, t.triggerID) == []
    requires var batch := Resolve(tm, t.action.triggerIDs);
      ListOf(Exec(tm, st, t, depth).state, t.triggerID) == batch
    ensures var batch := Resolve(tm, t.action.triggerIDs);
      var st1 := Exec(tm, st, t, depth).state;
      Exec(tm, st1, t, depth) == ExecAll(tm, AppendList(st1, t.triggerID, batch), batch + batch, depth)
  {
    RunMultipleReplaysWholeList(tm, Exec(tm, st, t, depth).state, t, depth);
  }

  // ---- fresh handles ----

  lemma PutCommandValid(st: SceneState, layer: int, id: string, c: DrawCommand)
    requires Valid(st)
    ensures Valid(PutCommand(st, layer, id, c))
  {
  }

  lemma ArmValid(st: SceneState, t: Trigger, kind: Kind, delay: real)
    requires Valid(st) && t.triggerID in st.sequences
    ensures Valid(Arm(st, t, kind, delay).state)
  {
  }

  lemma AppendValid(st: SceneState, key: string, es: seq<Option<Trigger>>)
    requires Valid(st)
    ensures Valid(AppendList(st, key, es)) && key in AppendList(st, key, es).sequences
  {
  }

  /** Execution keeps every handle below `next` and every observer's list registered. */
  lemma {:induction false} ExecValid(tm: TriggerMap, st: SceneState, t: Trigger, depth: nat)
    requires Valid(st)
    ensures Valid(Exec(tm, st, t, depth).state)
    decreases depth, 1, 0
  {
    if !Sequencing(t.action) {
      LeafIgnoresDepth(tm, st, t, depth);
    } else if t.action.RunMultipleTriggers? {
      var ids := t.action.triggerIDs;
      var st1 := AppendList(st, t.triggerID, Resolve(tm, ids));
      AppendValid(st, t.triggerID, Resolve(tm, ids));
      ExecAllValid(tm, st1, ListOf(st1, t.triggerID), depth);
    } else if t.action.StartTimeBasedSequence? {
      AppendValid(st, t.triggerID, Resolve(tm, t.action.timedIDs));
    } else if t.action.RunAfterAnimatedTextClicked? {
      var ids := t.action.clickIDs;
      AppendValid(st, t.triggerID, Resolve(tm, ids));
      ArmValid(AppendList(st, t.triggerID, Resolve(tm, ids)), t, AfterClick, t.action.clickDelay);
    } else {
      var ids := t.action.directIDs;
      AppendValid(st, t.triggerID, Resolve(tm, ids));
      ArmValid(AppendList(st, t.triggerID, Resolve(tm, ids)), t, Immediate, t.action.directDelay);
    }
  }

  lemma {:induction false} ExecAllValid(tm: TriggerMap, st: SceneState, es: seq<Option<Trigger>>, depth: nat)
    requires Valid(st)
    ensures Valid(ExecAll(tm, st, es, depth).state)
    decreases depth, 0, |es|
  {
    if es != [] {
      var r := ExecAll(tm, st, es[..|es| - 1], depth);
      ExecAllValid(tm, st, es[..|es| - 1], depth);
      if r.outcome.Done? && es[|es| - 1].Some? && depth > 0 {
        ExecValid(tm, r.state, es[|es| - 1].value, depth - 1);
        assert ExecAll(tm, st, es, depth) == Exec(tm, r.state, es[|es| - 1].value, depth - 1);
      }
    }
  }

  // ---- arming observers ----

  /** RunDirectlyAfterAnimatedText on an animated text: its list is extended, the text's clickable
      becomes false and exactly one new immediate observer, under a fresh handle, is added to it. */
  lemma RunDirectlyArmsImmediateObserver(tm: TriggerMap, st: SceneState, t: Trigger, depth: nat)
    requires Valid(st) && t.action.RunDirectlyAfterAnimatedText?
    requires CommandAt(st, t.layer, t.dataID).Some? && CommandAt(st, t.layer, t.dataID).value.DrawAnimatedText?
    ensures var r := Exec(tm, st, t, depth);
      var s := CommandAt(st, t.layer, t.dataID).value.subject;
      && r.outcome == Done
      && st.next !in st.observers
      && r.state.observers == st.observers[st.next := NewObserver(Immediate, t.triggerID, t.action.directDelay)]
      && CommandAt(r.state, t.layer, t.dataID).Some?
      && CommandAt(r.state, t.layer, t.dataID).value.DrawAnimatedText?
      && CommandAt(r.state, t.layer, t.dataID).value.subject
         == s.(clickable := false, observers := s.observers + [st.next])
      && ListOf(r.state, t.triggerID) == ListOf(st, t.triggerID) + Resolve(tm, t.action.directIDs)
  {
  }

  /** RunAfterAnimatedTextClicked on an animated text: the same, with one click-gated observer and the
      text's clickable left as it was. */
  lemma RunAfterClickArmsClickGatedObserver(tm: TriggerMap, st: SceneState, t: Trigger, depth: nat)
    requires Valid(st) && t.action.RunAfterAnimatedTextClicked?
    requires CommandAt(st, t.layer, t.dataID).Some? && CommandAt(st, t.layer, t.dataID).value.DrawAnimatedText?
    ensures var r := Exec(tm, st, t, depth);
      var s := CommandAt(st, t.layer, t.dataID).value.subject;
      && r.outcome == Done
      && st.next !in st.observers
      && r.state.observers == st.observers[st.next := NewObserver(AfterClick, t.triggerID, t.action.clickDelay)]
      && CommandAt(r.state, t.layer, t.dataID).Some?
      && CommandAt(r.state, t.layer, t.dataID).value.DrawAnimatedText?
      && CommandAt(r.state, t.layer, t.dataID).value.subject == s.(observers := s.observers + [st.next])
      && ListOf(r.state, t.triggerID) == ListOf(st, t.triggerID) + Resolve(tm, t.action.clickIDs)
  {
  }

  /** Without an animated text at (layer, dataID) either arming trigger throws, after its list has
      already been extended, and attaches nothing. */
  lemma ArmingWithoutAnimatedTextThrows(tm: TriggerMap, st: SceneState, t: Trigger, depth: nat)
    requires t.action.RunAfterAnimatedTextClicked? || t.action.RunDirectlyAfterAnimatedText?
    requires CommandAt(st, t.layer, t.dataID).None? || !CommandAt(st, t.layer, t.dataID).value.DrawAnimatedText?
    ensures var r := Exec(tm, st, t, depth);
      var ids := if t.action.RunAfterAnimatedTextClicked? then t.action.clickIDs else t.action.directIDs;
      && r.outcome.Failed?
      && r.state == AppendList(st, t.triggerID, Resolve(tm, ids))
  {
  }

  // ---- registry ----

  /** Removing the command in a slot twice is the same as removing it once. */
  lemma RemoveTwiceIsRemoveOnce(st: SceneState, layer: int, id: string)
    ensures DropCommand(DropCommand(st, layer, id), layer, id) == DropCommand(st, layer, id)
  {
    if layer in st.layers {
      var once := st.layers[layer] - {id};
      assert once - {id} == once;
    }
  }

  // ---- update commands ----

  /** A music fade tick on a registered music command sets the level exactly when it stays >= 0;
      otherwise end() removes the audio command and deregisters the update. */
  lemma MusicTickContract(st: SceneState, h: nat, elapsed: nat)
    requires h in st.updates && st.updates[h].FadeOutMusic?
    requires st.updates[h].musicID in st.audio && st.audio[st.updates[h].musicID].MusicCommand?
    ensures var id, step := st.updates[h].musicID, st.updates[h].step;
      var level := st.audio[id].level;
      var r := Tick(st, h, elapsed);
      && r.outcome == Done
      && (level - step >= 0.0 ==>
            r.state == st.(audio := st.audio[id := st.audio[id].(level := level - step)]))
      && (level - step < 0.0 ==>
            id !in r.state.audio && h !in r.state.updates && r.state.layers == st.layers
            && r == Run(DropUpdate(DropAudio(st, id), h), Done))
  {
  }

  /** The two ways a music fade tick throws: nothing is registered under its id (the captured
      command was null), or the id holds a sound command. Either way nothing changes and the
      update stays active. */
  lemma MusicTickFaults(st: SceneState, h: nat, elapsed: nat)
    requires h in st.updates && st.updates[h].FadeOutMusic?
    ensures var id := st.updates[h].musicID;
      && (id !in st.audio ==> Tick(st, h, elapsed) == Run(st, Failed(NullAudio)))
      && (id in st.audio && st.audio[id].SoundCommand? ==> Tick(st, h, elapsed) == Run(st, Failed(NotMusic)))
  {
  }

  /** A background fade tick before the duration stores the coefficient elapsed / duration, which
      lies in [0, 1), and changes nothing else; from the duration on, end() empties the slot
      (layer, id) and deregisters the update, and changes nothing else. */
  lemma BackgroundTickContract(st: SceneState, h: nat, elapsed: nat)
    requires h in st.updates && st.updates[h].FadeOutBackground?
    ensures var u := st.updates[h];
      var r := Tick(st, h, elapsed);
      && ((elapsed as real) < u.duration ==>
            h in r.state.updates && r.state.updates[h].FadeOutBackground?
            && 0.0 <= r.state.updates[h].coef < 1.0
            && r.state == st.(updates := st.updates[h := u.(coef := elapsed as real / u.duration)])
            && (r.outcome == Done <==> u.hasSprite))
      && ((elapsed as real) >= u.duration ==>
            r.outcome == Done && h !in r.state.updates && CommandAt(r.state, u.bgLayer, u.bgID) == None
            && r == Run(DropUpdate(DropCommand(st, u.bgLayer, u.bgID), h), Done))
  {
  }

  // ---- notifications and the timer ----

  /** A notification while the text is not finished changes nothing. */
  lemma UnfinishedNotificationChangesNothing(st: SceneState, layer: int, id: string, o: nat)
    requires CommandAt(st, layer, id).Some? && CommandAt(st, layer, id).value.DrawAnimatedText?
    requires o in st.observers && o in CommandAt(st, layer, id).value.subject.observers
    ensures var c := CommandAt(st, layer, id).value;
      Notify(st, layer, id, o, false) == PutCommand(st, layer, id, c.(subject := c.subject.(finished := false)))
    ensures !CommandAt(st, layer, id).value.subject.finished ==> Notify(st, layer, id, o, false) == st
  {
    var c := st.layers[layer][id];
    assert st.observers[o := st.observers[o]] == st.observers;
    if !c.subject.finished {
      assert c.(subject := c.subject.(finished := false)) == c;
      assert st.layers[layer][id := c] == st.layers[layer];
      assert st.layers[layer := st.layers[layer]] == st.layers;
    }
  }

  /** From the empty scene: an animated text, then a click-gated sequence on it. The first
      notification that finds the text finished schedules the sequence's observer. */
  lemma ClickedTextSchedulesFromEmptyScene(tm: TriggerMap, t1: Trigger, t2: Trigger, depth: nat)
    requires t1.action.AddAnimatedText? && t2.action.RunAfterAnimatedTextClicked?
    requires t2.layer == t1.layer && t2.dataID == t1.dataID
    ensures var st1 := Exec(tm, EmptyScene, t1, depth).state;
      var st2 := Exec(tm, st1, t2, depth).state;
      && CommandAt(st2, t2.layer, t2.dataID).Some? && CommandAt(st2, t2.layer, t2.dataID).value.DrawAnimatedText?
      && st1.next in st2.observers && st1.next in CommandAt(st2, t2.layer, t2.dataID).value.subject.observers
      && Notify(st2, t2.layer, t2.dataID, st1.next, true).observers[st1.next].pending
  {
    var st1 := Exec(tm, EmptyScene, t1, depth).state;
    assert CommandAt(st1, t1.layer, t1.dataID).Some? && CommandAt(st1, t1.layer, t1.dataID).value.subject == FreshSubject;
    var a := AppendList(st1, t2.triggerID, Resolve(tm, t2.action.clickIDs));
    assert Exec(tm, st1, t2, depth) == Arm(a, t2, AfterClick, t2.action.clickDelay);
  }

  /** A pending observer schedules no copy of its list: whatever is appended to the sequence before
      the timer fires is run too, after the entries held when the observer was attached. */
  lemma FiredTaskSeesLaterEntries(tm: TriggerMap, st: SceneState, o: nat, es: seq<Option<Trigger>>, depth: nat)
    requires o in st.observers && st.observers[o].pending
    ensures var key := st.observers[o].list;
      var st1 := AppendList(st, key, es);
      Fire(tm, st1, o, depth)
        == ExecAll(tm, st1.(observers := st.observers[o := st.observers[o].(pending := false)]), ListOf(st, key) + es, depth)
  {
  }

  /** A click-gated sequence executed twice on a not yet clicked text. Observable notifies the
      observer added last first, so the finished notification reaches the second execution's
      observer, which takes the click guard; its task runs the shared list with both batches. */
  lemma RearmedSequenceRunsBothBatches(tm: TriggerMap, st: SceneState, t: Trigger, depth: nat)
    requires t.action.RunAfterAnimatedTextClicked?
    requires CommandAt(st, t.layer, t.dataID).Some? && CommandAt(st, t.layer, t.dataID).value.DrawAnimatedText?
    requires !CommandAt(st, t.layer, t.dataID).value.subject.clickOnce
    ensures var st2 := Exec(tm, Exec(tm, st, t, depth).state, t, depth).state;
      var o := st.next + 1;
      && CommandAt(st2, t.layer, t.dataID).Some? && CommandAt(st2, t.layer, t.dataID).value.DrawAnimatedText?
      && o in st2.observers && o in CommandAt(st2, t.layer, t.dataID).value.subject.observers
      && (var st3 := Notify(st2, t.layer, t.dataID, o, true);
          var b := Resolve(tm, t.action.clickIDs);
          && st3.observers[o].pending
          && CommandAt(st3, t.layer, t.dataID).value.subject.clickOnce
          && Fire(tm, st3, o, depth)
               == ExecAll(tm, st3.(observers := st3.observers[o := st3.observers[o].(pending := false)]),
                          ListOf(st, t.triggerID) + b + b, depth))
  {
    var b := Resolve(tm, t.action.clickIDs);
    var o := st.next + 1;
    var a1 := AppendList(st, t.triggerID, b);
    var r1 := Exec(tm, st, t, depth);
    assert r1 == Arm(a1, t, AfterClick, t.action.clickDelay);
    assert r1.outcome == Done;
    var st1 := r1.state;
    assert ListOf(st1, t.triggerID) == ListOf(st, t.triggerID) + b;
    var a2 := AppendList(st1, t.triggerID, b);
    var r2 := Exec(tm, st1, t, depth);
    assert r2 == Arm(a2, t, AfterClick, t.action.clickDelay);
    assert r2.outcome == Done;
    var st2 := r2.state;
    assert st1.next == o;
    assert st2.observers == st1.observers[o := NewObserver(AfterClick, t.triggerID, t.action.clickDelay)];
    assert st2.observers[o] == NewObserver(AfterClick, t.triggerID, t.action.clickDelay);
    var c2 := CommandAt(st2, t.layer, t.dataID).value;
    assert c2.subject.observers == CommandAt(st1, t.layer, t.dataID).value.subject.observers + [o];
    assert !c2.subject.clickOnce;
    var st3 := Notify(st2, t.layer, t.dataID, o, true);
    assert Schedules(st2.observers[o], c2.subject.(finished := true));
    assert st3.observers[o].list == t.triggerID;
    assert ListOf(st3, t.triggerID) == ListOf(st2, t.triggerID) == ListOf(st, t.triggerID) + b + b;
  }

  /** Every update command keeps the handles below `next` and the observers' lists registered. */
  lemma TickValid(st: SceneState, h: nat, elapsed: nat)
    requires Valid(st) && h in st.updates
    ensures Valid(Tick(st, h, elapsed).state)
  {
  }

  /** So does a notification. */
  lemma NotifyValid(st: SceneState, layer: int, id: string, o: nat, finished: bool)
    requires CommandAt(st, layer, id).Some? && CommandAt(st, layer, id).value.DrawAnimatedText?
    requires o in st.observers && o in CommandAt(st, layer, id).value.subject.observers
    requires Valid(st)
    ensures Valid(Notify(st, layer, id, o, finished))
  {
  }

  /** And so does the timer task of a pending observer. */
  lemma FireValid(tm: TriggerMap, st: SceneState, o: nat, depth: nat)
    requires o in st.observers && st.observers[o].pending && Valid(st)
    ensures Valid(Fire(tm, st, o, depth).state)
  {
    var ob := st.observers[o];
    ExecAllValid(tm, st.(observers := st.observers[o := ob.(pending := false)]),
                 ListOf(st, ob.list), depth);
  }
}
