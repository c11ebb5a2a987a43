/** The scene registry as a value, and what trigger execution, update ticks, observer notifications
    and timer firings do to it (Trigger.java, CompletionObserver.java). The registry operations stand
    for the ones SceneScreen offers: add/remove/get a drawing command under (layer, id), add/remove/get
    an audio command under id, add/remove an update command, and the trigger map. */
module SceneSpec {
  import opened Observers
  import opened SceneData
  import opened Resolution
  import opened Fades

  /** The registry: layer -> (id -> drawing command), id -> audio command, the trigger list of every
      sequence that has run (by its triggerID), the lists handed to time-based scheduling, the active
      update commands and the attached completion observers (by handle), and the next free handle. */
  datatype SceneState = SceneState(
    layers: map<int, map<string, DrawCommand>>,
    audio: map<string, AudioCommand>,
    sequences: map<string, seq<Option<Trigger>>>,
    timed: seq<seq<Option<Trigger>>>,
    updates: map<nat, UpdateCommand>,
    observers: map<nat, Observer>,
    next: nat)

  const EmptyScene: SceneState := SceneState(map[], map[], map[], [], map[], map[], 0)

  /** The result of running something: the new registry and whether it finished or threw. */
  datatype Run = Run(state: SceneState, outcome: Outcome)

  /** Handles in use are below `next`, and every observer's list belongs to a sequence that has run. */
  ghost predicate Valid(st: SceneState)
  {
    && (forall h :: h in st.updates ==> h < st.next)
    && (forall o :: o in st.observers ==> o < st.next && st.observers[o].list in st.sequences)
  }

  // ---- registry operations ----

  /** getDrawingCommand(layer, id), null when absent. */
  function CommandAt(st: SceneState, layer: int, id: string): Option<DrawCommand>
  {
    if layer in st.layers && id in st.layers[layer] then Some(st.layers[layer][id]) else None
  }

  /** addCommandToLayer: the command occupies slot (layer, id), the previous one there is replaced. */
  function PutCommand(st: SceneState, layer: int, id: string, c: DrawCommand): (r: SceneState)
    ensures CommandAt(r, layer, id) == Some(c)
    ensures forall l, i :: (l, i) != (layer, id) ==> CommandAt(r, l, i) == CommandAt(st, l, i)
    ensures r == st.(layers := r.layers)
  {
    var slots := if layer in st.layers then st.layers[layer] else map[];
    st.(layers := st.layers[layer := slots[id := c]])
  }

  /** removeCommandFromLayer(layer, id) and the removeBackground / removeTextbox / removeAnimatedText /
      removeStaticText / removeCommandWithTexture calls: slot (layer, id) becomes empty. */
  function DropCommand(st: SceneState, layer: int, id: string): (r: SceneState)
    ensures CommandAt(r, layer, id) == None
    ensures forall l, i :: (l, i) != (layer, id) ==> CommandAt(r, l, i) == CommandAt(st, l, i)
    ensures r == st.(layers := r.layers)
  {
    if layer in st.layers then st.(layers := st.layers[layer := st.layers[layer] - {id}]) else st
  }

  /** addAudio: the command is registered under its id, replacing any earlier one there; no other id
      and no other registry changes. */
  function PutAudio(st: SceneState, id: string, a: AudioCommand): (r: SceneState)
    ensures id in r.audio && r.audio[id] == a
    ensures forall i :: i != id ==> (i in r.audio <==> i in st.audio) && (i in st.audio ==> r.audio[i] == st.audio[i])
    ensures r == st.(audio := r.audio)
  {
    st.(audio := st.audio[id := a])
  }

  /** removeAudio: nothing stays registered under the id; no other id and no other registry changes. */
  function DropAudio(st: SceneState, id: string): (r: SceneState)
    ensures id !in r.audio
    ensures forall i :: i != id ==> (i in r.audio <==> i in st.audio) && (i in st.audio ==> r.audio[i] == st.audio[i])
    ensures r == st.(audio := r.audio)
  {
    st.(audio := st.audio - {id})
  }

  /** addUpdate: the command becomes active under the next handle, which is then used up; every other
      active update stays as it was. */
  function PutUpdate(st: SceneState, u: UpdateCommand): (r: SceneState)
    ensures st.next in r.updates && r.updates[st.next] == u && r.next == st.next + 1
    ensures forall h :: h != st.next ==> (h in r.updates <==> h in st.updates) && (h in st.updates ==> r.updates[h] == st.updates[h])
    ensures r == st.(updates := r.updates, next := r.next)
  {
    st.(updates := st.updates[st.next := u], next := st.next + 1)
  }

  /** removeUpdate: the command is no longer active, so it is never ticked again; every other active
      update stays as it was. */
  function DropUpdate(st: SceneState, h: nat): (r: SceneState)
    ensures h !in r.updates
    ensures forall g :: g != h ==> (g in r.updates <==> g in st.updates) && (g in st.updates ==> r.updates[g] == st.updates[g])
    ensures r == st.(updates := r.updates)
  {
    st.(updates := st.updates - {h})
  }

  /** The `triggers` field of the sequence with this triggerID (empty before its first run). */
  function ListOf(st: SceneState, key: string): seq<Option<Trigger>>
  {
    if key in st.sequences then st.sequences[key] else []
  }

  /** mapIDsToTriggers as seen by the registry: the sequence's list is extended, never cleared. */
  function AppendList(st: SceneState, key: string, es: seq<Option<Trigger>>): (r: SceneState)
    ensures ListOf(r, key) == ListOf(st, key) + es
    ensures forall k :: k != key ==> ListOf(r, k) == ListOf(st, k)
    ensures key in r.sequences && r == st.(sequences := r.sequences)
  {
    st.(sequences := st.sequences[key := ListOf(st, key) + es])
  }

  // ---- trigger execution ----

  /** play() on the audio command registered under id; null (absent) throws. A play changes nothing
      about the command but its play count. */
  function Play(st: SceneState, id: string): (r: Run)
    ensures r.outcome.Failed? <==> id !in st.audio
    ensures r.outcome.Failed? ==> r.state == st
    ensures r.outcome == Done ==> r.state.audio.Keys == st.audio.Keys && id in r.state.audio
    ensures r.outcome == Done ==> match (st.audio[id], r.state.audio[id])
      case (SoundCommand(p, v, l, n), SoundCommand(p', v', l', n')) => p' == p && v' == v && l' == l && n' == n + 1
      case (MusicCommand(p, v, l, lv, n), MusicCommand(p', v', l', lv', n')) =>
        p' == p && v' == v && l' == l && lv' == lv && n' == n + 1
      case _ => false
    ensures r.outcome == Done ==> r.state == PutAudio(st, id, r.state.audio[id])
  {
    if id !in st.audio then Run(st, Failed(NullAudio))
    else match st.audio[id]
      case SoundCommand(p, v, l, n) => Run(PutAudio(st, id, SoundCommand(p, v, l, n + 1)), Done)
      case MusicCommand(p, v, l, lv, n) => Run(PutAudio(st, id, MusicCommand(p, v, l, lv, n + 1)), Done)
  }

  /** RunAfterAnimatedTextClicked / RunDirectlyAfterAnimatedText after resolution: cast the command at
      (layer, dataID) to an animated text and add a new observer of the given kind to it; the immediate
      variant first turns the text's clickable off. */
  function Arm(st: SceneState, t: Trigger, kind: Kind, delay: real): (r: Run)
    ensures r.outcome.Failed? <==>
      CommandAt(st, t.layer, t.dataID).None? || !CommandAt(st, t.layer, t.dataID).value.DrawAnimatedText?
    ensures r.outcome.Failed? ==> r.state == st
    ensures r.outcome == Done ==>
      var c := CommandAt(st, t.layer, t.dataID).value;
      var c' := CommandAt(r.state, t.layer, t.dataID);
      && c'.Some? && c'.value.DrawAnimatedText? && c'.value == c.(subject := c'.value.subject)
      && c'.value.subject.observers == c.subject.observers + [st.next]
      && c'.value.subject.clickable == (kind == AfterClick && c.subject.clickable)
      && c'.value.subject.finished == c.subject.finished && c'.value.subject.clickOnce == c.subject.clickOnce
      && r.state.observers == st.observers[st.next := NewObserver(kind, t.triggerID, delay)]
      && r.state.next == st.next + 1
      && (forall l, i :: (l, i) != (t.layer, t.dataID) ==> CommandAt(r.state, l, i) == CommandAt(st, l, i))
      && r.state == st.(layers := r.state.layers, observers := r.state.observers, next := r.state.next)
  {
    match CommandAt(st, t.layer, t.dataID)
    case None => Run(st, Failed(NullCommand))
    case Some(c) =>
      if !c.DrawAnimatedText? then Run(st, Failed(NotAnimatedText))
      else
        var s := c.subject;
        var s' := s.(clickable := kind == AfterClick && s.clickable, observers := s.observers + [st.next]);
        var st1 := PutCommand(st, t.layer, t.dataID, c.(subject := s'));
        Run(st1.(observers := st1.observers[st.next := NewObserver(kind, t.triggerID, delay)], next := st.next + 1), Done)
  }

  /** new FadeOutMusic(id, scene, step): the audio under id is cast to a MusicCommand (a null stays null). */
  function StartMusicFade(st: SceneState, id: string, step: real): (r: Run)
    ensures r.outcome.Failed? <==> id in st.audio && st.audio[id].SoundCommand?
    ensures r.outcome.Failed? ==> r.outcome.fault == NotMusic && r.state == st
    ensures r.outcome == Done ==> r.state == PutUpdate(st, FadeOutMusic(id, step))
  {
    if id in st.audio && st.audio[id].SoundCommand? then Run(st, Failed(NotMusic))
    else Run(PutUpdate(st, FadeOutMusic(id, step)), Done)
  }

  /** new FadeOutBackground(id, layer, scene, time): captures the command at (layer, id). */
  function StartBackgroundFade(st: SceneState, layer: int, id: string, time: real): (r: Run)
    ensures r.outcome == Done
    ensures st.next in r.state.updates && r.state.updates[st.next].FadeOutBackground?
    ensures var u := r.state.updates[st.next];
      && u.bgID == id && u.bgLayer == layer && u.duration == FadeDuration(time) && u.coef == 0.0
      && (u.hasSprite <==> CommandAt(st, layer, id).Some? && HasSprite(CommandAt(st, layer, id).value))
    ensures r.state == PutUpdate(st, r.state.updates[st.next])
  {
    var sprite := match CommandAt(st, layer, id) case None => false case Some(c) => HasSprite(c);
    Run(PutUpdate(st, FadeOutBackground(id, layer, FadeDuration(time), 0.0, sprite)), Done)
  }

  /** setBackground / setTextbox: a new texture (and bounds) for the command already in the slot,
      which keeps the slot; nothing happens where the slot does not hold a command of that kind. */
  function Replace(st: SceneState, layer: int, id: string, c: DrawCommand): (r: SceneState)
    ensures var prev := CommandAt(st, layer, id);
      CommandAt(r, layer, id) ==
        if prev.Some? && prev.value.DrawBackground? == c.DrawBackground? && prev.value.DrawTextbox? == c.DrawTextbox?
        then Some(c) else prev
    ensures forall l, i :: (l, i) != (layer, id) ==> CommandAt(r, l, i) == CommandAt(st, l, i)
    ensures r == st.(layers := r.layers)
  {
    match CommandAt(st, layer, id)
    case Some(prev) => if prev.DrawBackground? == c.DrawBackground? && prev.DrawTextbox? == c.DrawTextbox?
                      then PutCommand(st, layer, id, c) else st
    case None => st
  }

  /** AddMenu / AddGameChoiceMenu: build the items, then register the menu command. */
  function AddMenuCommand(tm: TriggerMap, st: SceneState, t: Trigger, prompt: Option<string>,
                          ids: seq<string>, names: seq<string>): (r: Run)
    ensures r.outcome.Failed? <==> |names| < |ids|
    ensures r.outcome.Failed? ==> r.outcome.fault == IndexOutOfBounds && r.state == st
    ensures r.outcome == Done ==>
      var items := MenuItems(tm, ids, names).value;
      r.state == PutCommand(st, t.layer, t.dataID,
                            if prompt.None? then DrawMenu(items) else DrawGameChoiceMenu(prompt.value, items))
  {
    match MenuItems(tm, ids, names)
    case None => Run(st, Failed(IndexOutOfBounds))
    case Some(items) =>
      var c := match prompt case None => DrawMenu(items) case Some(p) => DrawGameChoiceMenu(p, items);
      Run(PutCommand(st, t.layer, t.dataID, c), Done)
  }

  /** A new animated text: not finished, not clicked, clickable, no completion observer yet. */
  const FreshSubject: Subject := Subject(false, false, true, [])

  /** The triggers that take part in sequencing; every other trigger touches only the drawing, audio
      and update registries. */
  predicate Sequencing(a: Action)
  {
    a.StartTimeBasedSequence? || a.RunMultipleTriggers? || a.RunAfterAnimatedTextClicked? || a.RunDirectlyAfterAnimatedText?
  }

  /** Trigger.execute(), with `depth` nested executions of the stack left. */
  function Exec(tm: TriggerMap, st: SceneState, t: Trigger, depth: nat): Run
    decreases depth, 1, 0
  {
    if !Sequencing(t.action) then ExecLeaf(tm, st, t)
    else
      var st1 := AppendList(st, t.triggerID, Resolve(tm, SequenceIDs(t.action)));
      match t.action
      case StartTimeBasedSequence(_) => Run(st1.(timed := st1.timed + [ListOf(st1, t.triggerID)]), Done)
      case RunMultipleTriggers(_) => ExecAll(tm, st1, ListOf(st1, t.triggerID), depth)
      case RunAfterAnimatedTextClicked(_, delay) => Arm(st1, t, AfterClick, delay)
      case RunDirectlyAfterAnimatedText(_, delay) => Arm(st1, t, Immediate, delay)
  }

  /** The trigger IDs a MultiTriggerSequence was built with. */
  function SequenceIDs(a: Action): seq<string>
    requires Sequencing(a)
  {
    match a
    case StartTimeBasedSequence(ids) => ids
    case RunMultipleTriggers(ids) => ids
    case RunAfterAnimatedTextClicked(ids, _) => ids
    case RunDirectlyAfterAnimatedText(ids, _) => ids
  }

  /** The triggers that work on the audio registry or install an update command. */
  predicate AudioOrFade(a: Action)
  {
    a.StartMusicFadeOut? || a.StartFadeOutBackground? || a.AddSound? || a.PlaySound? || a.AddMusic? || a.PlayMusic?
  }

  /** execute() of a trigger outside sequencing: one registry operation. */
  function ExecLeaf(tm: TriggerMap, st: SceneState, t: Trigger): (r: Run)
    requires !Sequencing(t.action)
    ensures r.state.sequences == st.sequences && r.state.observers == st.observers
    ensures r.state.next == st.next || r.state.next == st.next + 1
    ensures Valid(st) ==> Valid(r.state)
  {
    if AudioOrFade(t.action) then ExecAudio(st, t) else ExecDrawing(tm, st, t)
  }

  /** execute() of the audio and fade triggers. */
  function ExecAudio(st: SceneState, t: Trigger): (r: Run)
    requires AudioOrFade(t.action)
    ensures r.state.sequences == st.sequences && r.state.observers == st.observers
    ensures r.state.next == st.next || r.state.next == st.next + 1
    ensures Valid(st) ==> Valid(r.state)
  {
    match t.action
    case StartMusicFadeOut(step) => StartMusicFade(st, t.dataID, step)
    case StartFadeOutBackground(time) => StartBackgroundFade(st, t.layer, t.dataID, time)
    case AddSound(p, v, l) => Run(PutAudio(st, t.dataID, SoundCommand(p, v, l, 0)), Done)
    case PlaySound => Play(st, t.dataID)
    case AddMusic(p, v, l) => Run(PutAudio(st, t.dataID, MusicCommand(p, v, l, BackendDefaultLevel, 0)), Done)
    case PlayMusic => Play(st, t.dataID)
  }

  /** The triggers whose execute() empties the slot (layer, dataID). */
  predicate Removal(a: Action)
  {
    a.RemoveBackground? || a.RemoveTextbox? || a.RemoveAnimatedText? || a.RemoveStaticText?
    || a.RemoveGameChoiceMenu? || a.RemoveCommandFromLayer?
  }

  /** execute() of the triggers that add, replace or remove a drawing command under (layer, dataID). */
  function ExecDrawing(tm: TriggerMap, st: SceneState, t: Trigger): (r: Run)
    requires !Sequencing(t.action) && !AudioOrFade(t.action)
    ensures r.state.sequences == st.sequences && r.state.observers == st.observers
    ensures r.state.next == st.next || r.state.next == st.next + 1
    ensures Valid(st) ==> Valid(r.state)
  {
    if Removal(t.action) then Run(DropCommand(st, t.layer, t.dataID), Done)
    else match t.action
      case AddNewBackground(p) => Run(PutCommand(st, t.layer, t.dataID, DrawBackground(p)), Done)
      case SetBackground(p) => Run(Replace(st, t.layer, t.dataID, DrawBackground(p)), Done)
      case AddTextbox(p, x, y, w, h) => Run(PutCommand(st, t.layer, t.dataID, DrawTextbox(p, x, y, w, h)), Done)
      case SetTextbox(p, x, y, w, h) => Run(Replace(st, t.layer, t.dataID, DrawTextbox(p, x, y, w, h)), Done)
      case AddAnimatedText(text, font, x, y, len, lines, speed) =>
        Run(PutCommand(st, t.layer, t.dataID, DrawAnimatedText(FreshSubject, text, font, x, y, len, lines, speed)), Done)
      case AddStaticText(text, x, y, font) =>
        Run(PutCommand(st, t.layer, t.dataID, DrawStaticText(text, x, y, font)), Done)
      case AddGameChoiceMenu(prompt, ids, names) => AddMenuCommand(tm, st, t, Some(prompt), ids, names)
      case AddMenu(ids, names) => AddMenuCommand(tm, st, t, None, ids, names)
  }

  /** `for (Trigger trigger : triggers) trigger.execute();` over a list: entries run in index order,
      a null entry throws, and a throw ends the pass. */
  function ExecAll(tm: TriggerMap, st: SceneState, es: seq<Option<Trigger>>, depth: nat): Run
    decreases depth, 0, |es|
  {
    if es == [] then Run(st, Done)
    else
      var r := ExecAll(tm, st, es[..|es| - 1], depth);
      if r.outcome.Failed? then r else ExecEntry(tm, r.state, es[|es| - 1], depth)
  }

  /** One entry of a pass: a null entry throws, a trigger executes one level deeper. */
  function ExecEntry(tm: TriggerMap, st: SceneState, e: Option<Trigger>, depth: nat): Run
    decreases depth, 0, 0
  {
    match e
    case None => Run(st, Failed(NullTrigger))
    case Some(t) => if depth == 0 then Run(st, Failed(StackOverflow)) else Exec(tm, st, t, depth - 1)
  }

  // ---- update commands, notifications and the timer ----

  /** UpdateCommand.update on the active command `h`, `elapsed` milliseconds after a background fade
      started; `end()` removes the faded target and deregisters the update. */
  function Tick(st: SceneState, h: nat, elapsed: nat): (r: Run)
    requires h in st.updates
    ensures r.state == st.(layers := r.state.layers, audio := r.state.audio, updates := r.state.updates)
    ensures forall g :: g != h ==> (g in r.state.updates <==> g in st.updates)
    ensures h !in r.state.updates ==> r.outcome == Done
    ensures h in r.state.updates ==> r.state.layers == st.layers
  {
    match st.updates[h]
    case FadeOutMusic(id, step) =>
      if id !in st.audio then Run(st, Failed(NullAudio))
      else (match st.audio[id]
        case SoundCommand(_, _, _, _) => Run(st, Failed(NotMusic))
        case MusicCommand(p, v, l, level, n) =>
          (match MusicStep(level, step)
           case Some(lower) => Run(PutAudio(st, id, MusicCommand(p, v, l, lower, n)), Done)
           case None => Run(DropUpdate(DropAudio(st, id), h), Done)))
    case FadeOutBackground(id, layer, duration, coef, sprite) =>
      match BackgroundStep(elapsed, duration)
      case Some(c) =>
        var st1 := st.(updates := st.updates[h := FadeOutBackground(id, layer, duration, c, sprite)]);
        if sprite then Run(st1, Done) else Run(st1, Failed(NullSprite))
      case None => Run(DropUpdate(DropCommand(st, layer, id), h), Done)
  }

  /** The animated text at (layer, id) notifies observer `o`. `finished` is the text's finished()
      answer at this notification, which its reveal logic has computed; it is recorded on the
      subject before the observer's update runs. */
  function Notify(st: SceneState, layer: int, id: string, o: nat, finished: bool): (r: SceneState)
    requires CommandAt(st, layer, id).Some? && CommandAt(st, layer, id).value.DrawAnimatedText?
    requires o in st.observers && o in CommandAt(st, layer, id).value.subject.observers
    ensures r == st.(layers := r.layers, observers := r.observers)
    ensures var s := CommandAt(st, layer, id).value.subject.(finished := finished);
      r.observers == st.observers[o := Update(st.observers[o], s).0]
    ensures forall l, i :: (l, i) != (layer, id) ==> CommandAt(r, l, i) == CommandAt(st, l, i)
    ensures var c := CommandAt(st, layer, id).value;
      CommandAt(r, layer, id) == Some(c.(subject := Update(st.observers[o], c.subject.(finished := finished)).1))
  {
    var c := st.layers[layer][id];
    var r := Update(st.observers[o], c.subject.(finished := finished));
    var st1 := PutCommand(st, layer, id, c.(subject := r.1));
    st1.(observers := st1.observers[o := r.0])
  }

  /** The timer runs observer o's scheduled task: runOnCompletion over the list it holds. */
  function Fire(tm: TriggerMap, st: SceneState, o: nat, depth: nat): Run
    requires o in st.observers && st.observers[o].pending
  {
    var ob := st.observers[o];
    var st1 := st.(observers := st.observers[o := ob.(pending := false)]);
    ExecAll(tm, st1, ListOf(st1, ob.list), depth)
  }
}
