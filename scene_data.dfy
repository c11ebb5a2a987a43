/** The values the scene registry holds (Trigger.java): triggers with their variant parameters, drawing
    commands keyed by (layer, id), audio commands keyed by id, and self-terminating update commands. */
module SceneData {
  import opened Observers

  datatype Option<T> = None | Some(value: T)

  /** The concrete Trigger subclasses with the parameters their execute() uses. Menu layout,
      fonts and line triggers are UI plumbing and are not kept. */
  datatype Action =
    | StartMusicFadeOut(step: real)
    | StartFadeOutBackground(fadeTime: real)
    | AddSound(soundPath: string, soundVolume: real, soundLooping: bool)
    | PlaySound
    | AddMusic(musicPath: string, musicVolume: real, musicLooping: bool)
    | PlayMusic
    | StartTimeBasedSequence(timedIDs: seq<string>)
    | RunMultipleTriggers(triggerIDs: seq<string>)
    | RunAfterAnimatedTextClicked(clickIDs: seq<string>, clickDelay: real)
    | RunDirectlyAfterAnimatedText(directIDs: seq<string>, directDelay: real)
    | AddNewBackground(bgPath: string)
    | SetBackground(newBgPath: string)
    | RemoveBackground
    | AddTextbox(boxPath: string, boxX: int, boxY: int, boxWidth: int, boxHeight: int)
    | SetTextbox(newBoxPath: string, newX: int, newY: int, newWidth: int, newHeight: int)
    | RemoveTextbox
    | AddAnimatedText(textArray: seq<string>, textFont: string, textX: int, textY: int,
                      lineLength: int, maxLines: int, speed: real)
    | RemoveAnimatedText
    | AddStaticText(staticText: string, staticX: int, staticY: int, staticFont: string)
    | RemoveStaticText
    | AddGameChoiceMenu(prompt: string, choiceIDs: seq<string>, choiceNames: seq<string>)
    | RemoveGameChoiceMenu
    | AddMenu(itemIDs: seq<string>, itemNames: seq<string>)
    | RemoveCommandFromLayer

  /** A trigger: its own key in the trigger map, the key of the data it works on, its layer and
      its variant. */
  datatype Trigger = Trigger(triggerID: string, dataID: string, layer: int, action: Action)

  /** A menu entry: the display name and the looked-up trigger (None where the lookup gave null). */
  datatype MenuItem = MenuItem(name: string, trigger: Option<Trigger>)

  /** The DrawingCommand subclasses; textures, sprites and fonts are represented by their paths
      and names. */
  datatype DrawCommand =
    | DrawBackground(path: string)
    | DrawTextbox(boxTexture: string, x: int, y: int, width: int, height: int)
    | DrawAnimatedText(subject: Subject, text: seq<string>, font: string, textX: int, textY: int,
                       lineLength: int, maxLines: int, speed: real)
    | DrawStaticText(staticText: string, staticX: int, staticY: int, staticFont: string)
    | DrawMenu(items: seq<MenuItem>)
    | DrawGameChoiceMenu(prompt: string, choices: seq<MenuItem>)

  /** Only backgrounds and textboxes create a sprite; for every other command `sprite` is null. */
  predicate HasSprite(c: DrawCommand)
  {
    c.DrawBackground? || c.DrawTextbox?
  }

  /** Volume level of a freshly created music handle of the audio backend. */
  const BackendDefaultLevel: real := 1.0

  /** The AudioCommand subclasses. `volume` is the constructor's field; a MusicCommand's getVolume and
      setVolume go to the backend handle, whose level is `level`; `plays` counts play() calls. */
  datatype AudioCommand =
    | SoundCommand(soundPath: string, volume: real, looping: bool, soundPlays: nat)
    | MusicCommand(musicPath: string, musicVolume: real, musicLooping: bool, level: real, plays: nat)

  /** The UpdateCommand subclasses with their progress state. A background fade keeps its duration in
      milliseconds, its last interpolation coefficient, and whether the command it captured at
      construction has a sprite to colour. */
  datatype UpdateCommand =
    | FadeOutMusic(musicID: string, step: real)
    | FadeOutBackground(bgID: string, bgLayer: int, duration: real, coef: real, hasSprite: bool)

  /** The runtime exceptions the code can raise: a null list entry or lookup dereferenced, a failed
      cast, an array index past the names given to a menu, and the stack running out. */
  datatype Fault =
    | NullTrigger
    | NullCommand
    | NotAnimatedText
    | NullAudio
    | NotMusic
    | NullSprite
    | IndexOutOfBounds
    | StackOverflow

  datatype Outcome = Done | Failed(fault: Fault)
}
