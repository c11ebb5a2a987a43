# Visual-Novel-Toolkit trigger sequencing in Dafny

This project models the trigger-sequencing core of the Visual-Novel-Toolkit scene engine:

- the `Trigger.execute()` variants, which register, replace and remove drawing and audio
  commands in the scene registry or install update commands;
- the multi-trigger sequences, which resolve trigger IDs through the trigger map and run
  the resolved list or hand it to a completion observer;
- the two self-terminating update commands, `FadeOutMusic` and `FadeOutBackground`;
- the completion observers attached to an animated text, which schedule one deferred run
  of their trigger list.

It is laid out in six modules:

- `Observers` is the at-most-once state machines of the two observers, over a subject record
  holding `finished`, `clickOnce` and `clickable`.
- `SceneData` holds the values: triggers and their variants, drawing, audio and update
  commands, and the runtime faults the Java code can raise.
- `Resolution` is the `mapIDsToTriggers` lookup and the pairing of menu names with triggers.
- `Fades` is one `update()` tick of each fade, and the length of a whole music fade.
- `SceneSpec` is the registry as a value, `SceneState`, with `Exec`/`ExecAll` for what
  `execute()` and a `for` pass over a trigger list do to it. `Tick`, `Notify` and `Fire` do
  the same for an update tick, an observer notification and a timer firing.
- `SceneProperties` holds the lemmas about the semantics: pass order, failures, lists that
  only grow, arming, fresh handles, and the effect of each tick.
- `Engine.Scene` is the class whose fields are the registry and whose methods mutate them in
  place. Each method is proved to produce exactly the state the value semantics prescribes.
  Every lemma about `SceneSpec` therefore holds of the object.

`SceneScreen` is not part of this model. Its operations are modelled as follows:

- `addCommandToLayer` puts a command in slot (layer, id), creating the layer if needed.
- The `remove*` calls and `removeCommandFromLayer` empty the slot. Emptying an already empty
  slot does nothing.
- `setBackground` and `setTextbox` replace the command in the slot only when it is of the
  same kind.
- `addAudio`/`removeAudio` register and drop an audio command under its id.
- `addUpdate`/`removeUpdate` activate and deactivate an update command under a fresh handle.
- `getTriggers()` is a fixed map.

`AnimatedText` is not part of this model either. A newly drawn animated text is assumed to
start unfinished, not yet clicked (`clickOnce` false) and clickable, with no observers. The
click-gated observer can schedule only because `clickOnce` starts false.

## Runtime faults and the depth budget

Each runtime exception the Java code can raise is a `Fault`:

- a null list entry, or a null command lookup, is dereferenced;
- a cast fails;
- a menu indexes `itemNames` past its end;
- the stack runs out when a sequence contains itself.

Within a pass, the first fault ends the pass.

Recursion through nested sequences carries a `depth` budget, which stands for the JVM stack.
An exhausted budget gives `StackOverflow`.

## Where the model departs from the specification

The model follows the code, which differs from the system's specification in these points:

- **Missing trigger IDs.** The specification asks for fail-fast resolution: a missing ID
  should abort the sequence before anything runs. The code stores `null` for a missing ID
  and keeps resolving. The triggers before the null entry still run, and the null entry
  then throws.
- **Sequence lists grow.** The specification's lists are fixed. In the code, every
  execution of a sequence appends to its `triggers` list again.
- **Fired observers stay attached.** The specification detaches an observer after it fires.
  In the code it stays attached, and only its guard keeps it quiet.
- **No target check in the timer task.** The specification asks the timer task to check
  that its target is still registered. The code's task does not check.

## Model

| member | source | states |
|---|---|---|
| `Observers.Update` | core/src/com/oxca2/cyoat/CompletionObserver.java:59-89 | A notification while the text is not finished changes neither the observer nor the subject. Otherwise it schedules under each observer's own guard: `!clickOnce` on the subject for the click-gated one, `!done` for the immediate one. Scheduling sets `clickOnce` and sets `done` and counts, as the source does. The list and delay are kept. |
| `Observers.ImmediateSchedulesAtMostOnce` | core/src/com/oxca2/cyoat/CompletionObserver.java:84-88 | Over any series of notifications, the immediate observer schedules exactly once if it was not done and some notification saw the text finished, and never otherwise. `done` becomes true on the first finished notification, and the subject's flags are untouched. |
| `Observers.ImmediateCountAtMostOne` | core/src/com/oxca2/cyoat/CompletionObserver.java:86 | `count` equals the number of schedules made, so it stays at most one. |
| `Observers.AfterClickSchedulesAtMostOnce` | core/src/com/oxca2/cyoat/CompletionObserver.java:61-64 | The click-gated observer schedules at most once over any series: exactly when `clickOnce` was false and some notification saw the text finished. `clickOnce` becomes true in the same step. |
| `Observers.ClickGuardIsShared` | core/src/com/oxca2/cyoat/CompletionObserver.java:60-63 | Once one click-gated observer of a subject has scheduled, no other click-gated observer of that subject schedules on any later series. |
| `Observers.ThreeFinishedTicksScheduleOnce` | core/src/com/oxca2/cyoat/CompletionObserver.java:79-89 | A text that reports finished on three consecutive frames makes a fresh immediate observer schedule exactly once. |
| `Observers.Deliver` | core/src/com/oxca2/cyoat/CompletionObserver.java:58-89 | A series of notifications, one `update` call per element. Before each call the text's `finished()` answer is set; the trace counts the calls that scheduled the task. Its properties are the at-most-once lemmas above. |
| `Resolution.Lookup` | core/src/com/oxca2/cyoat/Trigger.java:330 | `map.get(id)`: the registered trigger when the ID is present, null (None) exactly when it is absent. |
| `Resolution.Resolve` | core/src/com/oxca2/cyoat/Trigger.java:326-331 | One entry per ID, in order; entry i is the lookup of `triggerIDs[i]`. |
| `Resolution.ResolveKeepsGoing` | core/src/com/oxca2/cyoat/Trigger.java:329-330 | A missing ID gives None at its own position, and every later ID is still resolved: no fail-fast. |
| `Resolution.MenuItems` | core/src/com/oxca2/cyoat/Trigger.java:673-685 | A menu can be built exactly when `itemNames` is at least as long as `itemIDs`. It then holds `itemIDs.length` items, and item i pairs `itemNames[i]` with the lookup of `itemIDs[i]`. |
| `Resolution.PairMenuItems` | core/src/com/oxca2/cyoat/Trigger.java:747-762 | The constructor's two loops, `initMenuItems` followed by `addItemsToMenu`, compute exactly `MenuItems`. This includes the index-out-of-bounds case. |
| `Resolution.ResolveItems` | core/src/com/oxca2/cyoat/Trigger.java:673-675 | The lookup loop over `itemIDs` leaves one entry per ID, in order, each the map's answer for that ID: exactly `Resolve`. |
| `Resolution.NameItems` | core/src/com/oxca2/cyoat/Trigger.java:681-685 | The counter loop over the resolved entries succeeds exactly when `itemNames` has at least as many names as there are entries. It then pairs entry k with `itemNames[k]`; otherwise it throws. |
| `Fades.FadeDuration` | core/src/com/oxca2/cyoat/Trigger.java:122 | The duration is `time * 1000` ms: positive for a positive time, and `time` again when divided by 1000. |
| `Fades.MusicStep` | core/src/com/oxca2/cyoat/Trigger.java:79-87 | A tick lowers the level by `step` exactly when `level - step >= 0`, and otherwise ends the fade. A lowered level is never negative. |
| `Fades.FadeAfter` | core/src/com/oxca2/cyoat/Trigger.java:79-93 | The level after k ticks of a music fade from v, or None once a tick has ended it. Its properties are `FadeLevels` and `FadeOutLength`. |
| `Fades.FadeLevels` | core/src/com/oxca2/cyoat/Trigger.java:79-87 | While k <= floor(v/step), the k-th tick from level v has only lowered the level, to v - k*step >= 0. |
| `Fades.FadeOutLength` | core/src/com/oxca2/cyoat/Trigger.java:79-93 | From v >= 0 with step > 0, a music fade makes exactly floor(v/step) lowering ticks, and the next tick ends it. |
| `Fades.TenStepFade` | core/src/com/oxca2/cyoat/Trigger.java:79-93 | Level 1.0 with step 0.1 reaches 0.0 after ten ticks, and the eleventh tick ends the fade. |
| `Fades.BackgroundStep` | core/src/com/oxca2/cyoat/Trigger.java:128-139 | Before the duration, the coefficient is elapsed/duration and lies in [0, 1). From the duration on, the tick ends the fade. |
| `Fades.TwoSecondFade` | core/src/com/oxca2/cyoat/Trigger.java:117-139 | A two-second fade is at 0.5 after 1000 ms and ends at every tick from 2000 ms on. |
| `SceneSpec.PutCommand` | core/src/com/oxca2/cyoat/Trigger.java:392-394 | `addCommandToLayer` fills slot (layer, id), leaves every other slot as it was, and changes nothing outside the drawing layers. |
| `SceneSpec.DropCommand` | core/src/com/oxca2/cyoat/Trigger.java:773-778 | `removeCommandFromLayer` empties slot (layer, id), leaves every other slot as it was, and changes nothing outside the drawing layers. |
| `SceneSpec.AppendList` | core/src/com/oxca2/cyoat/Trigger.java:322-331 | The sequence's `triggers` list is extended by the new entries and never cleared. Every other sequence's list is unchanged, and nothing outside the sequence registry changes. |
| `SceneSpec.PutAudio` | core/src/com/oxca2/cyoat/Trigger.java:282-310 | `addAudio` registers the command under its id and leaves every other id and every other registry as it was. |
| `SceneSpec.DropAudio` | core/src/com/oxca2/cyoat/Trigger.java:90-93 | `removeAudio` leaves nothing under the id, every other id as it was, and every other registry unchanged. |
| `SceneSpec.PutUpdate` | core/src/com/oxca2/cyoat/Trigger.java:96-103 | `addUpdate` activates the command under the fresh handle `next`, advances `next`, and leaves every other handle and registry as it was. |
| `SceneSpec.DropUpdate` | core/src/com/oxca2/cyoat/Trigger.java:141-144 | `removeUpdate` deactivates the handle and leaves every other handle and registry as it was. |
| `SceneSpec.Replace` | core/src/com/oxca2/cyoat/Trigger.java:397-404 | `setBackground`/`setTextbox` put the new command in the slot exactly when the slot already holds a command of the same kind, and otherwise leave it. Every other slot, and everything outside the layers, is unchanged. |
| `SceneSpec.Play` | core/src/com/oxca2/cyoat/Trigger.java:293-319 | `getAudio(dataID).play()` throws (null audio) exactly when nothing is registered under the id, and then changes nothing. Otherwise the same command, with the same parameters, counts one more play, and nothing else changes. |
| `SceneSpec.Arm` | core/src/com/oxca2/cyoat/Trigger.java:357-384 | The cast fails, and nothing changes, exactly when the slot holds no animated text. Otherwise the text keeps its other fields and gets one new observer handle, `next`, which names a fresh observer of the given kind holding the sequence's list and delay. `clickable` survives only for the click-gated kind. `next` advances, and nothing else changes. |
| `SceneSpec.StartMusicFade` | core/src/com/oxca2/cyoat/Trigger.java:66-103 | The constructor's cast throws exactly when a sound command is registered under the id, and then nothing changes. Otherwise a fade of that id is registered under a fresh update handle. |
| `SceneSpec.StartBackgroundFade` | core/src/com/oxca2/cyoat/Trigger.java:107-155 | The fade is registered under the fresh handle `next`, with the id, the layer, a duration of `time * 1000` ms and a coefficient of 0. It records whether the captured command has a sprite, which holds exactly when the slot holds a background or textbox. Nothing else changes. |
| `SceneSpec.AddMenuCommand` | core/src/com/oxca2/cyoat/Trigger.java:623-716 | Building a menu throws index-out-of-bounds, changing nothing, exactly when `itemNames` is shorter than `itemIDs`. Otherwise the slot gets the menu, with a prompt exactly for the game-choice menu, holding the paired items `MenuItems`. |
| `SceneSpec.ExecLeaf` | core/src/com/oxca2/cyoat/Trigger.java:96-319 | A non-sequencing trigger does not touch the sequence lists or the observers. It takes at most one new handle and keeps every update handle below `next`. |
| `SceneSpec.ExecAudio` | core/src/com/oxca2/cyoat/Trigger.java:96-319 | The same, for the audio triggers and the two fade starters. |
| `SceneSpec.ExecDrawing` | core/src/com/oxca2/cyoat/Trigger.java:388-778 | The same, for the triggers that add, replace or remove drawing commands. |
| `SceneSpec.Exec` | core/src/com/oxca2/cyoat/Trigger.java:321-384 | `execute()` of any trigger. A sequence first appends its resolved IDs to its list, then schedules, runs or arms it. Its properties are the `SceneProperties` lemmas about `Exec`. |
| `SceneSpec.ExecAll` | core/src/com/oxca2/cyoat/Trigger.java:350-351 | A `for` pass over a trigger list, in index order, stopping at the first throw. Its properties are `ExecAllSplit`, `FailureEndsPass` and `NullEntryEndsPass`. |
| `SceneSpec.ExecEntry` | core/src/com/oxca2/cyoat/Trigger.java:350-351 | One iteration of the pass. A null entry throws; a trigger runs one stack level deeper, and an exhausted depth budget is a stack overflow. |
| `SceneSpec.Tick` | core/src/com/oxca2/cyoat/Trigger.java:79-144 | An update tick changes only the layers, the audio registry and the update registry. It removes no handle but its own. Removing its own handle ends the fade successfully, and a tick that keeps the handle leaves the layers alone. |
| `SceneSpec.Notify` | core/src/com/oxca2/cyoat/CompletionObserver.java:58-89 | An attached observer's `update`, given the text's current `finished()` answer. The answer is recorded on the subject, then only that observer and the subject change, both as `Observers.Update` says. Every other slot is unchanged. |
| `SceneSpec.Fire` | core/src/com/oxca2/cyoat/CompletionObserver.java:31-35 | The timer task: the observer stops being pending, then the pass over the list it holds runs. Its properties are `FiredTaskSeesLaterEntries` and `FireValid`. |
| `SceneProperties.ExecAllSplit` | core/src/com/oxca2/cyoat/Trigger.java:350-351 | A pass over a + b is the pass over a followed, unless it threw, by the pass over b. Entries run strictly in index order, each once per pass. |
| `SceneProperties.ExecAllSnoc` | core/src/com/oxca2/cyoat/Trigger.java:350-351 | When the first i entries have run without a throw, the pass over i + 1 entries is that pass followed by entry i. |
| `SceneProperties.PassStartsWithFirstEntry` | core/src/com/oxca2/cyoat/CompletionObserver.java:44-45 | The first entry runs first, on the starting state and one stack level deeper, and the rest of the pass continues from its result. |
| `SceneProperties.FailureEndsPass` | core/src/com/oxca2/cyoat/Trigger.java:350-351 | Once a prefix of the pass has thrown, no later entry runs. |
| `SceneProperties.NullEntryEndsPass` | core/src/com/oxca2/cyoat/Trigger.java:348-352 | A null entry (a missing ID) throws when the pass reaches it. The entries before it have run with their effects, and those after it do not run. |
| `SceneProperties.ExtendsTransitive` | core/src/com/oxca2/cyoat/Trigger.java:322 | "Every list only grew" composes over successive steps. |
| `SceneProperties.AppendExtends` | core/src/com/oxca2/cyoat/Trigger.java:326-331 | Appending keeps every list's old contents as a prefix. |
| `SceneProperties.ExecExtends` | core/src/com/oxca2/cyoat/Trigger.java:322-384 | After executing any trigger, however deeply it nests, every sequence's list still starts with its old contents, and no handle is reused. |
| `SceneProperties.SingleStepExtends` | core/src/com/oxca2/cyoat/Trigger.java:321-384 | The same for a trigger that does not run a nested pass. |
| `SceneProperties.ExecAllExtends` | core/src/com/oxca2/cyoat/Trigger.java:348-352 | The same for a whole pass over a trigger list. |
| `SceneProperties.RunMultipleReplaysWholeList` | core/src/com/oxca2/cyoat/Trigger.java:344-352 | Each execution of `RunMultipleTriggers` grows its list by `triggerIDs.length` entries and then runs the whole accumulated list. The list afterwards still starts with all of it. |
| `SceneProperties.SecondRunRerunsFirstBatch` | core/src/com/oxca2/cyoat/Trigger.java:322-352 | A second execution of a sequence runs the earlier batch again before the new one. |
| `SceneProperties.LeafIgnoresDepth` | core/src/com/oxca2/cyoat/Trigger.java:282-412 | A trigger outside sequencing executes the same way at every stack depth. |
| `SceneProperties.SameSequencesExtends` | core/src/com/oxca2/cyoat/Trigger.java:322 | A step that leaves the lists alone and takes no handle back trivially keeps them grown. |
| `SceneProperties.PutCommandValid` | core/src/com/oxca2/cyoat/Trigger.java:392-394 | Registering a drawing command keeps the handle invariant. |
| `SceneProperties.ArmValid` | core/src/com/oxca2/cyoat/Trigger.java:363-368 | Attaching an observer keeps every handle below `next` and every observer's list registered. |
| `SceneProperties.AppendValid` | core/src/com/oxca2/cyoat/Trigger.java:326-331 | Resolution keeps the handle invariant and registers the sequence's list. |
| `SceneProperties.ExecValid` | core/src/com/oxca2/cyoat/Trigger.java:96-384 | Execution of any trigger keeps every handle below `next` and every observer's list registered. |
| `SceneProperties.ExecAllValid` | core/src/com/oxca2/cyoat/Trigger.java:348-352 | The same for a whole pass. |
| `SceneProperties.RunDirectlyArmsImmediateObserver` | core/src/com/oxca2/cyoat/Trigger.java:378-384 | On the animated text at (layer, dataID), the trigger extends its list, sets `clickable` to false and appends exactly one handle to the text's observers. That handle is fresh and names a new immediate observer holding the list and delay. |
| `SceneProperties.RunAfterClickArmsClickGatedObserver` | core/src/com/oxca2/cyoat/Trigger.java:363-368 | The same for one new click-gated observer, with `clickable` left as it was. |
| `SceneProperties.ArmingWithoutAnimatedTextThrows` | core/src/com/oxca2/cyoat/Trigger.java:365-366 | With no animated text at (layer, dataID), either arming trigger throws after its list has been extended, and it attaches nothing. |
| `SceneProperties.RemoveTwiceIsRemoveOnce` | core/src/com/oxca2/cyoat/Trigger.java:773-778 | Removing the command in a slot twice is the same as removing it once. |
| `SceneProperties.MusicTickContract` | core/src/com/oxca2/cyoat/Trigger.java:79-93 | On a registered music command, a tick sets the level to `level - step` exactly when that is >= 0, and changes nothing else. Otherwise `end()` removes the audio command and deregisters the update, and changes nothing else. |
| `SceneProperties.MusicTickFaults` | core/src/com/oxca2/cyoat/Trigger.java:73-87 | A music fade tick throws a null-pointer fault when nothing is registered under its id, as `music.getVolume()` does on a captured null. It throws a cast fault when the id holds a sound command, which the model meets only after a re-registration, because the Java cast runs once at construction (see `Engine.Scene.TickUpdate` under Left out). Either way the state is unchanged and the update stays active. |
| `SceneProperties.BackgroundTickContract` | core/src/com/oxca2/cyoat/Trigger.java:128-144 | Before the duration, the update stays active with the coefficient `elapsed / duration`, which lies in [0, 1), and nothing else changes. The tick throws exactly when the captured command has no sprite. From the duration on, `end()` empties slot (layer, id) and deregisters the update, and nothing else changes. |
| `SceneProperties.UnfinishedNotificationChangesNothing` | core/src/com/oxca2/cyoat/CompletionObserver.java:61 | In the scene, a notification of an attached observer while the text is not finished records only that answer on the text. When the text was already recorded as unfinished, the whole registry is unchanged. |
| `SceneProperties.FiredTaskSeesLaterEntries` | core/src/com/oxca2/cyoat/CompletionObserver.java:28-45 | The observer shares the sequence's list rather than copying it. Entries appended to the sequence after the observer was armed run too when the timer fires: the pass is over the old list followed by the new entries. |
| `SceneProperties.RearmedSequenceRunsBothBatches` | core/src/com/oxca2/cyoat/Trigger.java:357-370 | A click-gated sequence executed twice on a not yet clicked text. `Observable` notifies the observer added last first, so the finished notification schedules the second execution's observer, which sets `clickOnce`. Its task runs the sequence's old list followed by both resolved batches. |
| `SceneProperties.ClickedTextSchedulesFromEmptyScene` | core/src/com/oxca2/cyoat/CompletionObserver.java:58-64 | From the empty scene, after an animated text and a click-gated sequence on it, the first notification that finds the text finished schedules the sequence's observer. |
| `SceneProperties.TickValid` | core/src/com/oxca2/cyoat/Trigger.java:79-144 | An update tick keeps every handle below `next` and every observer's list registered. |
| `SceneProperties.NotifyValid` | core/src/com/oxca2/cyoat/CompletionObserver.java:58-89 | So does a notification, whatever its `finished` answer. |
| `SceneProperties.FireValid` | core/src/com/oxca2/cyoat/CompletionObserver.java:31-46 | So does the timer task's pass over the held list. |
| `Engine.Scene.constructor` | core/src/com/oxca2/cyoat/Trigger.java:46 | A new scene has empty registries and the given trigger map. |
| `Engine.Scene.GetDrawingCommand` | core/src/com/oxca2/cyoat/Trigger.java:124 | `getDrawingCommand(layer, id)`: the command in the slot, or null. |
| `Engine.Scene.AddCommandToLayer` | core/src/com/oxca2/cyoat/Trigger.java:388-394 | The new state is `PutCommand` of the old one. |
| `Engine.Scene.RemoveCommandFromLayer` | core/src/com/oxca2/cyoat/Trigger.java:773-778 | The new state is `DropCommand` of the old one. |
| `Engine.Scene.AddAudio` | core/src/com/oxca2/cyoat/Trigger.java:288-290 | The audio command is registered under its id; nothing else changes. |
| `Engine.Scene.RemoveAudio` | core/src/com/oxca2/cyoat/Trigger.java:90-93 | Nothing stays registered under the id; nothing else changes. |
| `Engine.Scene.AddUpdate` | core/src/com/oxca2/cyoat/Trigger.java:100-102 | The update command becomes active under the next handle; nothing else changes. |
| `Engine.Scene.RemoveUpdate` | core/src/com/oxca2/cyoat/Trigger.java:141-144 | The update command is no longer active; nothing else changes. |
| `Engine.Scene.MapIDsToTriggers` | core/src/com/oxca2/cyoat/Trigger.java:326-331 | The lookup loop, `ResolveItems`, followed by the append: the sequence's list grows by `Resolve` of the IDs, and nothing else changes. |
| `Engine.Scene.Play` | core/src/com/oxca2/cyoat/Trigger.java:293-319 | `getAudio(dataID).play()`: it throws on a missing audio command, and otherwise counts one more play. |
| `Engine.Scene.AttachObserver` | core/src/com/oxca2/cyoat/Trigger.java:363-384 | The cast, the clickable reset and the `addObserver` call give exactly `Arm`. |
| `Engine.Scene.SetCommand` | core/src/com/oxca2/cyoat/Trigger.java:397-404 | `setBackground`/`setTextbox` give exactly `Replace`. |
| `Engine.Scene.AddMenuCommand` | core/src/com/oxca2/cyoat/Trigger.java:701-716 | Menu construction through `PairMenuItems` gives exactly `SceneSpec.AddMenuCommand`. |
| `Engine.Scene.ExecuteLeaf` | core/src/com/oxca2/cyoat/Trigger.java:96-412 | Every non-sequencing `execute()` leaves the state `ExecLeaf` prescribes. |
| `Engine.Scene.ExecuteAudio` | core/src/com/oxca2/cyoat/Trigger.java:96-319 | The audio and fade triggers leave exactly `ExecAudio`. |
| `Engine.Scene.ExecuteDrawing` | core/src/com/oxca2/cyoat/Trigger.java:388-778 | The drawing triggers leave exactly `ExecDrawing`. |
| `Engine.Scene.Execute` | core/src/com/oxca2/cyoat/Trigger.java:96-778 | `execute()` on the object leaves exactly `Exec` of the old state and outcome, so every `SceneProperties` lemma about `Exec` holds of it. |
| `Engine.Scene.ExecuteSequence` | core/src/com/oxca2/cyoat/Trigger.java:334-384 | The four sequence triggers: `mapIDsToTriggers`, then scheduling, the pass, or arming, leave exactly `Exec`. |
| `Engine.Scene.RunEntry` | core/src/com/oxca2/cyoat/Trigger.java:350-351 | One iteration of the `for` loop leaves exactly `ExecEntry`. |
| `Engine.Scene.RunAll` | core/src/com/oxca2/cyoat/Trigger.java:350-351 | The `for` loop over a list leaves exactly `ExecAll`. Its invariant is that the prefix pass has succeeded, and on a throw it returns at once. |
| `Engine.Scene.TickUpdate` | core/src/com/oxca2/cyoat/Trigger.java:79-144 | `update()` of an active update command leaves exactly `Tick`. |
| `Engine.Scene.NotifyObserver` | core/src/com/oxca2/cyoat/CompletionObserver.java:58-89 | The two `update` methods, called on an observer attached to the text with its current `finished()` answer, leave exactly `Notify`, which applies `Observers.Update`. |
| `Engine.Scene.RunOnCompletion` | core/src/com/oxca2/cyoat/CompletionObserver.java:43-46 | `runOnCompletion` runs the pass over the list the observer holds. |
| `Engine.Scene.FireTask` | core/src/com/oxca2/cyoat/CompletionObserver.java:31-35 | The timer task clears the pending state and calls `runOnCompletion`: exactly `Fire`. |

## Left out

- Rendering is not modelled. `Texture`, `Sprite`, `SpriteBatch`, fonts, `draw`, `setBounds`
  and `dispose` are foreign GPU calls. Drawing commands are records of their parameters,
  with paths in place of textures.
- The audio backend is not modelled (`newSound`/`newMusic`, `play`/`loop`/`stop`). A music
  command keeps a level, which starts at 1.0, and a play count. `MusicCommand`'s constructor
  stores `volume` but never applies it to the backend, so the level does not depend on it.
- Time is not modelled. `Timer.schedule` becomes an observer's `pending` flag, cleared by
  `FireTask`; the delay is kept on the observer but not waited for. `TimeUtils.millis` becomes
  the `elapsed` argument of a tick, and the `delta` argument of `update` is unused, as in
  the source.
- Floating point is not modelled. Volumes, steps, times and the coefficient are exact reals,
  and the colour lerp is not modelled.
- Subjects and observers are records, not objects. An animated text's observer state lives
  in its drawing command's slot. An observer lives in the scene's `observers` map, and it
  names the sequence whose list it shares rather than holding the list.
- `Engine.Scene.TickUpdate`: a music fade finds its command by id at every tick. The Java
  object keeps the command it captured when it was constructed. The two differ when the id has
  since been re-registered, and when the id has since been removed. Removal happens when
  another fade of the same id has ended. The model's tick then throws `NullAudio` and leaves
  the fade registered, so it throws again at every later tick. The Java fade goes on lowering
  its captured command, or ends cleanly when the level cannot be lowered. A captured null
  shows as `NullAudio` at the first tick, as in the source.
- `Engine.Scene.RunAll`: it iterates the list as it was when the pass started. The Java
  iterator reads the array's live size, so entries appended to the same list during the pass
  would also be visited. A `RunMultipleTriggers` that contains itself recurses in both, and
  in the model it exhausts the depth budget.
- `Engine.Scene.RunOnCompletion`: the same snapshot. Take a click-gated sequence whose IDs
  name itself, fired by its own observer. Each execution in the Java loop appends one more
  entry to the live list being iterated, so the loop never ends, without any recursion. In
  the model the task's pass covers the entries present when it fired: it re-arms the sequence
  once and ends with `Done`. `SceneSpec.Fire` states the same snapshot.
- `Engine.Scene.Execute`: the depth budget stands for the JVM stack's size. Its exhaustion is
  the only `StackOverflow` fault.
- The base `CompletionObserver.update` is not modelled. It does nothing, and it cannot run,
  because the class is abstract and both subclasses override it.
- `LineTriggerObserver`, `AnimatedText.join` and the animated text's reveal logic are not
  part of this model. A text's `finished()` answer at each notification is an input: the
  `finished` argument of `Notify` and `NotifyObserver`, and the sequence given to
  `Observers.Deliver`.
- `TimeTriggerHandler.scheduleTriggers` is not part of this model. `StartTimeBasedSequence`
  records the resolved list it hands over as a copy, taken when it executes. The Java handler
  receives the shared array, so entries a later execution appends are not seen in `timed`.
- Sequence lists are keyed by `triggerID`. Two distinct sequence trigger objects with the same
  ID share one list in the model, while each Java object has its own `triggers` array.
- `Observable` notification order and its `changed` flag are not modelled. A notification
  reaches one named observer, and any attached observer may be chosen. `Observable` itself
  notifies the observer added last first.
- Menu layout, font line heights, `Gdx.input.setInputProcessor` and the unused `Timer t`
  field are UI plumbing and are left out.
- `System.out.println` debug output is left out.
