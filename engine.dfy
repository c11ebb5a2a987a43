/** The scene as an object whose registries the triggers update in place. Every method is proved to
    leave the object in the state the value semantics of SceneSpec prescribes, so the properties
    proved there hold of it. */
module Engine {
  import opened Observers
  import opened SceneData
  import opened Resolution
  import opened Fades
  import opened SceneSpec
  import opened SceneProperties

  class Scene {
    /** scene.getTriggers(): fixed once the scene is loaded. */
    const triggers: TriggerMap
    var layers: map<int, map<string, DrawCommand>>
    var audio: map<string, AudioCommand>
    /** The `triggers` array of every MultiTriggerSequence that has run, by its triggerID. */
    var sequences: map<string, seq<Option<Trigger>>>
    /** The lists handed to TimeTriggerHandler.scheduleTriggers, in order. */
    var timed: seq<seq<Option<Trigger>>>
    var updates: map<nat, UpdateCommand>
    var observers: map<nat, Observer>
    var next: nat

    /** The value the object currently stands for. */
    function State(): SceneState
      reads this
    {
      SceneState(layers, audio, sequences, timed, updates, observers, next)
    }

    constructor (triggers: TriggerMap)
      ensures this.triggers == triggers
      ensures State() == EmptyScene
    {
      this.triggers := triggers;
      layers := map[];
      audio := map[];
      sequences := map[];
      timed := [];
      updates := map[];
      observers := map[];
      next := 0;
    }

    // ---- registry operations ----

    method GetDrawingCommand(layer: int, id: string) returns (c: Option<DrawCommand>)
      ensures c == CommandAt(State(), layer, id)
    {
      if layer in layers && id in layers[layer] {
        c := Some(layers[layer][id]);
      } else {
        c := None;
      }
    }

    method AddCommandToLayer(layer: int, id: string, c: DrawCommand)
      modifies this
      ensures State() == PutCommand(old(State()), layer, id, c)
    {
      var slots := if layer in layers then layers[layer] else map[];
      layers := layers[layer := slots[id := c]];
    }

    method RemoveCommandFromLayer(layer: int, id: string)
      modifies this
      ensures State() == DropCommand(old(State()), layer, id)
    {
      if layer in layers {
        layers := layers[layer := layers[layer] - {id}];
      }
    }

    method AddAudio(id: string, a: AudioCommand)
      modifies this
      ensures State() == PutAudio(old(State()), id, a)
    {
      audio := audio[id := a];
    }

    method RemoveAudio(id: string)
      modifies this
      ensures State() == DropAudio(old(State()), id)
    {
      audio := audio - {id};
    }

    method AddUpdate(u: UpdateCommand)
      modifies this
      ensures State() == PutUpdate(old(State()), u)
    {
      updates := updates[next := u];
      next := next + 1;
    }

    method RemoveUpdate(h: nat)
      modifies this
      ensures State() == DropUpdate(old(State()), h)
    {
      updates := updates - {h};
    }

    // ---- trigger execution ----

    /** mapIDsToTriggers: look up every ID in order and append the result, null included. */
    method MapIDsToTriggers(key: string, ids: seq<string>)
      modifies this
      ensures State() == AppendList(old(State()), key, Resolve(triggers, ids))
    {
      var es := ResolveItems(triggers, ids);
      sequences := sequences[key := ListOf(State(), key) + es];
    }

    method Play(id: string) returns (out: Outcome)
      modifies this
      ensures Run(State(), out) == SceneSpec.Play(old(State()), id)
    {
      if id !in audio {
        return Failed(NullAudio);
      }
      match audio[id] {
        case SoundCommand(p, v, l, n) => AddAudio(id, SoundCommand(p, v, l, n + 1));
        case MusicCommand(p, v, l, lv, n) => AddAudio(id, MusicCommand(p, v, l, lv, n + 1));
      }
      out := Done;
    }

    /** Cast the command at (layer, dataID) to an animated text and attach a new observer of `kind` to
        it; the immediate kind first turns the text's clickable off. */
    method AttachObserver(t: Trigger, kind: Kind, delay: real) returns (out: Outcome)
      modifies this
      ensures Run(State(), out) == Arm(old(State()), t, kind, delay)
    {
      var c := GetDrawingCommand(t.layer, t.dataID);
      if c.None? {
        return Failed(NullCommand);
      }
      var cmd := c.value;
      if !cmd.DrawAnimatedText? {
        return Failed(NotAnimatedText);
      }
      var s := cmd.subject;
      if kind == Immediate {
        s := s.(clickable := false);
      }
      var o := next;
      s := s.(observers := s.observers + [o]);
      AddCommandToLayer(t.layer, t.dataID, cmd.(subject := s));
      observers := observers[o := NewObserver(kind, t.triggerID, delay)];
      next := next + 1;
      out := Done;
    }

    method SetCommand(layer: int, id: string, c: DrawCommand)
      modifies this
      ensures State() == Replace(old(State()), layer, id, c)
    {
      var prev := GetDrawingCommand(layer, id);
      if prev.Some? && prev.value.DrawBackground? == c.DrawBackground? && prev.value.DrawTextbox? == c.DrawTextbox? {
        AddCommandToLayer(layer, id, c);
      }
    }

    method AddMenuCommand(t: Trigger, prompt: Option<string>, ids: seq<string>, names: seq<string>)
      returns (out: Outcome)
      modifies this
      ensures Run(State(), out) == SceneSpec.AddMenuCommand(triggers, old(State()), t, prompt, ids, names)
    {
      var items := PairMenuItems(triggers, ids, names);
      if items.None? {
        return Failed(IndexOutOfBounds);
      }
      var c := match prompt case None => DrawMenu(items.value) case Some(p) => DrawGameChoiceMenu(p, items.value);
      AddCommandToLayer(t.layer, t.dataID, c);
      out := Done;
    }

    /** Trigger.execute() of a trigger outside sequencing. */
    method ExecuteLeaf(t: Trigger) returns (out: Outcome)
      requires !Sequencing(t.action)
      modifies this
      ensures Run(State(), out) == ExecLeaf(triggers, old(State()), t)
    {
      if AudioOrFade(t.action) {
        out := ExecuteAudio(t);
      } else {
        out := ExecuteDrawing(t);
      }
    }

    /** Trigger.execute() of the audio and fade triggers. */
    method ExecuteAudio(t: Trigger) returns (out: Outcome)
      requires AudioOrFade(t.action)
      modifies this
      ensures Run(State(), out) == ExecAudio(old(State()), t)
    {
      out := Done;
      match t.action {
        case StartMusicFadeOut(step) =>
          if t.dataID in audio && audio[t.dataID].SoundCommand? {
            out := Failed(NotMusic);
          } else {
            AddUpdate(FadeOutMusic(t.dataID, step));
          }
        case StartFadeOutBackground(time) =>
          var c := GetDrawingCommand(t.layer, t.dataID);
          var sprite := c.Some? && HasSprite(c.value);
          AddUpdate(FadeOutBackground(t.dataID, t.layer, FadeDuration(time), 0.0, sprite));
        case AddSound(p, v, l) => AddAudio(t.dataID, SoundCommand(p, v, l, 0));
        case PlaySound => out := Play(t.dataID);
        case AddMusic(p, v, l) => AddAudio(t.dataID, MusicCommand(p, v, l, BackendDefaultLevel, 0));
        case PlayMusic => out := Play(t.dataID);
      }
    }

    /** Trigger.execute() of the triggers that add, replace or remove a drawing command. */
    method ExecuteDrawing(t: Trigger) returns (out: Outcome)
      requires !Sequencing(t.action) && !AudioOrFade(t.action)
      modifies this
      ensures Run(State(), out) == ExecDrawing(triggers, old(State()), t)
    {
      out := Done;
      if Removal(t.action) {
        RemoveCommandFromLayer(t.layer, t.dataID);
        return;
      }
      match t.action {
        case AddNewBackground(p) => AddCommandToLayer(t.layer, t.dataID, DrawBackground(p));
        case SetBackground(p) => SetCommand(t.layer, t.dataID, DrawBackground(p));
        case AddTextbox(p, x, y, w, h) => AddCommandToLayer(t.layer, t.dataID, DrawTextbox(p, x, y, w, h));
        case SetTextbox(p, x, y, w, h) => SetCommand(t.layer, t.dataID, DrawTextbox(p, x, y, w, h));
        case AddAnimatedText(text, font, x, y, len, lines, speed) =>
          AddCommandToLayer(t.layer, t.dataID, DrawAnimatedText(FreshSubject, text, font, x, y, len, lines, speed));
        case AddStaticText(text, x, y, font) =>
          AddCommandToLayer(t.layer, t.dataID, DrawStaticText(text, x, y, font));
        case AddGameChoiceMenu(prompt, ids, names) => out := AddMenuCommand(t, Some(prompt), ids, names);
        case AddMenu(ids, names) => out := AddMenuCommand(t, None, ids, names);
      }
    }

    /** Trigger.execute(), with `depth` nested executions of the stack left. */
    method Execute(t: Trigger, depth: nat) returns (out: Outcome)
      modifies this
      decreases depth, 2, 0
      ensures Run(State(), out) == Exec(triggers, old(State()), t, depth)
    {
      if Sequencing(t.action) {
        out := ExecuteSequence(t, depth);
      } else {
        out := ExecuteLeaf(t);
      }
    }

    /** execute() of the MultiTriggerSequence variants: mapIDsToTriggers, then run, schedule or arm. */
    method ExecuteSequence(t: Trigger, depth: nat) returns (out: Outcome)
      requires Sequencing(t.action)
      modifies this
      decreases depth, 1, 0
      ensures Run(State(), out) == Exec(triggers, old(State()), t, depth)
    {
      MapIDsToTriggers(t.triggerID, SequenceIDs(t.action));
      match t.action {
        case StartTimeBasedSequence(_) =>
          timed := timed + [sequences[t.triggerID]];
          out := Done;
        case RunMultipleTriggers(_) => out := RunAll(sequences[t.triggerID], depth);
        case RunAfterAnimatedTextClicked(_, delay) => out := AttachObserver(t, AfterClick, delay);
        case RunDirectlyAfterAnimatedText(_, delay) => out := AttachObserver(t, Immediate, delay);
      }
    }

    /** One iteration of the loop: a null entry throws, a trigger executes one level deeper. */
    method RunEntry(e: Option<Trigger>, depth: nat) returns (out: Outcome)
      modifies this
      decreases depth, 0, 0
      ensures Run(State(), out) == ExecEntry(triggers, old(State()), e, depth)
    {
      match e {
        case None => out := Failed(NullTrigger);
        case Some(t) =>
          if depth == 0 {
            out := Failed(StackOverflow);
          } else {
            out := Execute(t, depth - 1);
          }
      }
    }

    /** `for (Trigger trigger : es) trigger.execute();` over a list taken when the loop starts. */
    method RunAll(es: seq<Option<Trigger>>, depth: nat) returns (out: Outcome)
      modifies this
      decreases depth, 0, |es|
      ensures Run(State(), out) == ExecAll(triggers, old(State()), es, depth)
    {
      ghost var st0 := State();
      var i := 0;
      while i < |es|
        invariant 0 <= i <= |es|
        invariant ExecAll(triggers, st0, es[..i], depth) == Run(State(), Done)
      {
        ExecAllSnoc(triggers, st0, es, i, depth);
        out := RunEntry(es[i], depth);
        if out.Failed? {
          FailureEndsPass(triggers, st0, es, i + 1, depth);
          return;
        }
        i := i + 1;
      }
      assert es[..i] == es;
      out := Done;
    }

    // ---- update commands, notifications and the timer ----

    /** update() of the active update command h, `elapsed` milliseconds after a background fade began. */
    method TickUpdate(h: nat, elapsed: nat) returns (out: Outcome)
      requires h in updates
      modifies this
      ensures Run(State(), out) == Tick(old(State()), h, elapsed)
    {
      out := Done;
      match updates[h] {
        case FadeOutMusic(id, step) =>
          if id !in audio {
            return Failed(NullAudio);
          }
          var a := audio[id];
          if a.SoundCommand? {
            return Failed(NotMusic);
          }
          var volume := a.level;
          if volume - step >= 0.0 {
            AddAudio(id, a.(level := volume - step));
          } else {
            RemoveAudio(id);
            RemoveUpdate(h);
          }
        case FadeOutBackground(id, layer, duration, coef, sprite) =>
          if (elapsed as real) < duration {
            updates := updates[h := FadeOutBackground(id, layer, duration, elapsed as real / duration, sprite)];
            if !sprite {
              out := Failed(NullSprite);
            }
          } else {
            RemoveCommandFromLayer(layer, id);
            RemoveUpdate(h);
          }
      }
    }

    /** The animated text at (layer, id) calls update() on its observer o. */
    method NotifyObserver(layer: int, id: string, o: nat, finished: bool)
      requires CommandAt(State(), layer, id).Some? && CommandAt(State(), layer, id).value.DrawAnimatedText?
      requires o in observers && o in CommandAt(State(), layer, id).value.subject.observers
      modifies this
      ensures State() == Notify(old(State()), layer, id, o, finished)
    {
      var cmd := layers[layer][id];
      var s := cmd.subject.(finished := finished);
      var ob := observers[o];
      match ob.kind {
        case AfterClick =>
          if s.finished && !s.clickOnce {
            ob := ob.(pending := true);
            s := s.(clickOnce := true);
          }
        case Immediate =>
          if s.finished && !ob.done {
            ob := ob.(pending := true, count := ob.count + 1, done := true);
          }
      }
      AddCommandToLayer(layer, id, cmd.(subject := s));
      observers := observers[o := ob];
    }

    /** runOnCompletion: execute every entry of the list observer o holds, in order. */
    method RunOnCompletion(o: nat, depth: nat) returns (out: Outcome)
      requires o in observers
      modifies this
      ensures Run(State(), out) == ExecAll(triggers, old(State()), ListOf(old(State()), old(observers[o].list)), depth)
    {
      var list := if observers[o].list in sequences then sequences[observers[o].list] else [];
      out := RunAll(list, depth);
    }

    /** The timer runs the task scheduled for observer o. */
    method FireTask(o: nat, depth: nat) returns (out: Outcome)
      requires o in observers && observers[o].pending
      modifies this
      ensures Run(State(), out) == Fire(triggers, old(State()), o, depth)
    {
      observers := observers[o := observers[o].(pending := false)];
      out := RunOnCompletion(o, depth);
    }
  }
}
