# Sprite animator and state-machine coordinator

This project models the core of a WPF demo that drives a character sprite from
a finite-state machine. It has three parts:

- **`SpriteAnimation`** (`sprite_animator.dfy`) is the sprite animator, written
  as a class. Its fields are the sprite-sheet path, the ordered list of frame
  rectangles, the current index, the playing flag, the frame delay, the
  interval the animation timer was last armed with, and the current frame.
  The current frame is the rectangle itself, not a cropped bitmap. The
  frame-changed event is a ghost log `emitted` of every rectangle signalled.
  The object invariant `Valid()` says three things:
  - the index is below the frame count whenever there are frames, and 0 when
    there are none;
  - a non-empty list shows the frame at the index;
  - the current frame is the last one signalled.

  Every public method keeps `Valid()` and states its whole new state. The timer
  takes one step of `NextIndex`. Lemmas about `IndexAfter` prove that `count`
  ticks return the index to where it started.
- **`SpritesheetHelper`** (`spritesheet_helper.dfy`) holds the Idle, Walking
  and Running frame tables and their delays (500, 150 and 80 ms). Each table's
  shape is stated in its function's `ensures`. `ConfigureIdleAnimation`,
  `ConfigureWalkingAnimation` and `ConfigureRunningAnimation` clear the
  animator, append the table and set the delay. Each one's postcondition gives
  the animator's exact resulting state.
- **`ViewModels`** (`view_model.dfy`) is the coordinator. It has four pure
  functions:
  - `Guard`, the transition guard used by ChangeState;
  - `AutoTargets`, the targets the automatic transition can choose;
  - `AnimationFor`, the name-to-animation dispatch, with Idle as the default;
  - `TransitionHighlight`, the lookup from a (from, to) pair to an edge and
    arrowhead.

  The class `StateMachineViewModel` holds the current and previous state
  names, the animator (null if the sheet could not be loaded), the
  last-highlighted edge and arrowhead, the set of lit diagram items, the
  simulation flag and the log. `Reachable()` is kept by every command. It says
  that the current name is a registered state and that LookUp and Ducking
  were entered from Idle. A do-while loop picks the automatic target; it is
  the method `ChooseAutomaticTarget`.

The state-machine engine (`StateMachine.Core.StateMachine`) is not part of
this model. `ForwardToEngine` stands in for its `ChangeState(name)`. It
assumes that a registered name becomes active and triggers the change
callback, even when it is already the current name, and that any other name
changes nothing. The engine's states are registered in the order Idle,
Walking, Running, LookUp, Ducking, and the constructor activates the first
one.

Three details of the code that the model keeps:
- Only LookUp has an exit guard. Ducking may be entered only from Idle, and
  Ducking to Walking is forwarded.
- `ChangeSpritesheet` sets the index to 0.
- A new frame delay takes effect at the next `Play`; `SetFrameDelay` leaves
  `timerInterval` unchanged.

## Model

| member | source | states |
|---|---|---|
| `SpriteAnimation.NextIndex` | StateMachine/Animation/SpriteAnimator.cs:105 | one tick moves to the next frame and wraps from the last to 0; the result is always a valid index |
| `SpriteAnimation.IndexAfter` | StateMachine/Animation/SpriteAnimator.cs:100-107 | any number of ticks keeps the index below the frame count |
| `SpriteAnimation.IndexAfterCompose` | StateMachine/Animation/SpriteAnimator.cs:100-107 | a ticks followed by b ticks equal a + b ticks |
| `SpriteAnimation.IndexAfterBeforeWrap` | StateMachine/Animation/SpriteAnimator.cs:105 | before the wrap-around each tick advances the index by exactly one |
| `SpriteAnimation.FullCycleReturns` | StateMachine/Animation/SpriteAnimator.cs:105 | after as many ticks as there are frames the index is back at its start |
| `SpriteAnimation.TicksArePeriodic` | StateMachine/Animation/SpriteAnimator.cs:105 | the index sequence repeats with the frame count as period |
| `SpriteAnimation.FiveTicksOverThreeFrames` | StateMachine/Animation/SpriteAnimator.cs:105 | three frames ticked five times from index 0 end at index 2 |
| `SpriteAnimation.SpriteAnimator.FrameCount` | StateMachine/Animation/SpriteAnimator.cs:20 | zero exactly when there are no frames; when positive the current index is below it |
| `SpriteAnimation.SpriteAnimator.constructor` | StateMachine/Animation/SpriteAnimator.cs:22-32 | no frames, index 0, stopped, delay and timer interval 100 ms, no current frame, nothing signalled |
| `SpriteAnimation.SpriteAnimator.UpdateCurrentFrame` | StateMachine/Animation/SpriteAnimator.cs:109-118 | with frames, the frame at the index becomes current and is signalled once; with none, nothing happens |
| `SpriteAnimation.SpriteAnimator.AddFrame` | StateMachine/Animation/SpriteAnimator.cs:34-43 | appends exactly one rectangle; adding the first rectangle makes it current and signals it once, even while stopped; nothing else changes |
| `SpriteAnimation.SpriteAnimator.AddFrames` | StateMachine/Animation/SpriteAnimator.cs:45-51 | the frame list becomes old list ++ rects in order; the current frame changes only when the list was empty and rects is not |
| `SpriteAnimation.SpriteAnimator.ClearFrames` | StateMachine/Animation/SpriteAnimator.cs:53-58 | stopped, no frames, index 0; the current frame is not cleared |
| `SpriteAnimation.SpriteAnimator.Play` | StateMachine/Animation/SpriteAnimator.cs:60-68 | inert on an empty list; otherwise playing, with the timer armed at the present frame delay |
| `SpriteAnimation.SpriteAnimator.Stop` | StateMachine/Animation/SpriteAnimator.cs:70-74 | stopped; index, frames and current frame unchanged |
| `SpriteAnimation.SpriteAnimator.SetFrameDelay` | StateMachine/Animation/SpriteAnimator.cs:22 | the delay changes and the armed timer interval does not |
| `SpriteAnimation.SpriteAnimator.Reset` | StateMachine/Animation/SpriteAnimator.cs:76-80 | index 0 and, with frames, the first frame current and signalled; the playing flag unchanged |
| `SpriteAnimation.SpriteAnimator.ChangeSpritesheet` | StateMachine/Animation/SpriteAnimator.cs:82-98 | stopped, new sheet, index 0 and, with frames, the first frame current and signalled; frames kept |
| `SpriteAnimation.SpriteAnimator.AnimationTick` | StateMachine/Animation/SpriteAnimator.cs:100-107 | inert on an empty list; otherwise the index takes one `NextIndex` step and the new frame is current and signalled |
| `SpritesheetHelper.IdleFrames` | StateMachine/Animation/SpritesheetHelper.cs:24-43 | 20 frames: 19 copies of (8,33,48,48), then (60,33,48,48); every frame a 48x48 tile at y = 33 |
| `SpritesheetHelper.WalkingFrames` | StateMachine/Animation/SpritesheetHelper.cs:57-59 | 3 tiles at x = 164, 216, 268 (52 apart), each 48x48 at y = 33 |
| `SpritesheetHelper.RunningFrames` | StateMachine/Animation/SpritesheetHelper.cs:73-75 | 3 tiles at x = 320, 372, 424, continuing 52 past the last walking tile, each 48x48 at y = 33 |
| `SpritesheetHelper.DelaysOrdered` | StateMachine/Animation/SpritesheetHelper.cs:46-79 | running (80 ms) is faster than walking (150 ms), which is faster than idle (500 ms) |
| `SpritesheetHelper.Configure` | StateMachine/Animation/SpritesheetHelper.cs:52-62 | old frames discarded, the table loaded in order, index 0, stopped, the delay set, the armed interval unchanged, the first table entry current |
| `SpritesheetHelper.ConfigureIdleAnimation` | StateMachine/Animation/SpritesheetHelper.cs:17-47 | the Idle table and 500 ms; stopped, index 0, current frame (8,33,48,48) |
| `SpritesheetHelper.ConfigureWalkingAnimation` | StateMachine/Animation/SpritesheetHelper.cs:50-63 | the Walking table and 150 ms; stopped, index 0, current frame (164,33,48,48) |
| `SpritesheetHelper.ConfigureRunningAnimation` | StateMachine/Animation/SpritesheetHelper.cs:66-80 | the Running table and 80 ms; stopped, index 0, current frame (320,33,48,48) |
| `ViewModels.Guard` | StateMachine/ViewModels/StateMachineViewModel.cs:325-351 | a null or empty name is ignored; a request is forwarded iff LookUp/Ducking are asked for only from Idle and LookUp is left only for Idle; a refusal carries the exit message when leaving LookUp, the entry message otherwise |
| `ViewModels.AutoTargets` | StateMachine/ViewModels/StateMachineViewModel.cs:559-591 | the possible picks are never the current state, are registered, and always pass the guard |
| `ViewModels.ChooseAutomaticTarget` | StateMachine/ViewModels/StateMachineViewModel.cs:559-588 | Idle from LookUp or Ducking; from Idle the drawn one of Walking, Running, LookUp, Ducking; otherwise the first drawn of Idle, Walking, Running that differs from the current state |
| `ViewModels.AutoTargetsReachable` | StateMachine/ViewModels/StateMachineViewModel.cs:572-586 | every possible pick is produced by some random draw |
| `ViewModels.AnimationFor` | StateMachine/ViewModels/StateMachineViewModel.cs:384-405 | each of the five state names selects its own animation, and exactly the other names select Idle |
| `ViewModels.TransitionHighlight` | StateMachine/ViewModels/StateMachineViewModel.cs:463-512 | the ten listed moves select an edge and arrowhead; a forward arrowhead only for a move along its edge, a backward one only for a move against it |
| `ViewModels.HighlightFollowsDiagram` | StateMachine/ViewModels/StateMachineViewModel.cs:463-512 | a move is highlighted forward on an edge iff it runs along the edge, backward iff it runs against it |
| `ViewModels.HighlightOffDiagram` | StateMachine/ViewModels/StateMachineViewModel.cs:459-512 | nothing is highlighted exactly for the pairs no edge joins |
| `ViewModels.HighlightReversal` | StateMachine/ViewModels/StateMachineViewModel.cs:463-512 | reversing a move selects the same edge and the opposite arrowhead |
| `ViewModels.StateMachineViewModel.constructor` | StateMachine/ViewModels/StateMachineViewModel.cs:227-295 | registers the five states with Idle first and activates it: current Idle, previous None; the given LookUp and Ducking tables and delays are the ones those states play; the animator exists iff the sheet loads and then plays the Idle table, having signalled only its first frame; nothing highlighted |
| `ViewModels.StateMachineViewModel.UpdateAnimationForState` | StateMachine/ViewModels/StateMachineViewModel.cs:377-408 | without an animator nothing; otherwise the current name's animation (Idle for an unknown name) is loaded and playing, at its delay, from its first frame |
| `ViewModels.StateMachineViewModel.SetCurrentStateName` | StateMachine/ViewModels/StateMachineViewModel.cs:57-70 | the name is set; the animation is reloaded only when the name actually changes |
| `ViewModels.StateMachineViewModel.ResetTransitionHighlight` | StateMachine/ViewModels/StateMachineViewModel.cs:528-541 | no edge or arrowhead is left lit or remembered |
| `ViewModels.StateMachineViewModel.DisplayStateTransition` | StateMachine/ViewModels/StateMachineViewModel.cs:451-526 | skipped when from == to or from is None; otherwise exactly the pair's edge and arrowhead are lit, or nothing for an unlisted pair |
| `ViewModels.StateMachineViewModel.OnStateChange` | StateMachine/ViewModels/StateMachineViewModel.cs:245-252 | previous := old current, current := the state's name or None, the reloading and highlighting above, one log line |
| `ViewModels.StateMachineViewModel.ForwardToEngine` | StateMachine/ViewModels/StateMachineViewModel.cs:349 | a registered name runs the change callback; any other name changes nothing |
| `ViewModels.StateMachineViewModel.ChangeState` | StateMachine/ViewModels/StateMachineViewModel.cs:325-351 | ignored or refused requests change nothing but the log (one rejection line); forwarded ones run the callback; the guard invariant is kept |
| `ViewModels.StateMachineViewModel.SimulateStateChange` | StateMachine/ViewModels/StateMachineViewModel.cs:559-592 | only while the activity timer runs; always moves to one of `AutoTargets`, the one the draws pick as in `ChooseAutomaticTarget`, logging the automatic transition before the state change |
| `ViewModels.StateMachineViewModel.UpdateActiveState` | StateMachine/ViewModels/StateMachineViewModel.cs:353-357 | only a log line naming the current state |
| `ViewModels.StateMachineViewModel.ClearLog` | StateMachine/ViewModels/StateMachineViewModel.cs:365-369 | the log holds only the "cleared" line |
| `ViewModels.StateMachineViewModel.ToggleAutomaticStateChanges` | StateMachine/ViewModels/StateMachineViewModel.cs:543-557 | the simulation flag flips and the matching start or stop line is logged |
| `ViewModels.StateMachineViewModel.SwitchCharacter` | StateMachine/ViewModels/StateMachineViewModel.cs:594-614 | without an animator a failure line; otherwise the new sheet playing the current state's animation, the old and then the new first frame signalled, and the armed interval kept when the table is empty |
| `ViewModels.LookUpWalkthrough` | StateMachine/ViewModels/StateMachineViewModel.cs:325-351 | from Idle: LookUp is entered, Walking is refused, Idle is re-entered, then Walking is entered |

## Left out

- The state-machine engine (registration, duplicate names, OnEnter/OnExit order, Update/FixedUpdate hooks) is not part of this model. `ForwardToEngine` is the assumed single step. The states' own log lines ("Entered Idle State", ...) are therefore not in the modelled log.
- `ConfigureLookUpAnimation` and `ConfigureDuckingAnimation` are not part of this model. Their frame tables and delays are constructor parameters of the view model. They are assumed to clear, load and set the delay like the three shown tables. These tables are also taken to be the same for every character, so `SwitchCharacter` keeps them; `SetCharacter` changes the global character, which the missing methods may read.
- `SetCharacter`, the `Character` enumeration and `GetSpritesheetPath` are not modelled. `SwitchCharacter` takes the character's name and its sheet path as parameters.
- Image loading is a parameter: the view model's constructor receives whether the sheet loads. A failure inside `ChangeSpritesheet` during a character switch is not modelled.
- The lookups into `_transitionPaths` and `_arrowheadPaths` are assumed to succeed. No file of the program calls `RegisterTransitionPaths`. Without it, the first listed move throws inside the change callback, after the name has changed and before the highlight and the log line. The model assumes the paths were registered.
- WPF is left out: `DispatcherTimer` is the `isPlaying` flag plus the armed `timerInterval`. `AnimationTick` is the timer's handler; the model does not restrict calling it to while the timer runs, and the handler itself does not check. `BitmapImage`/`CroppedBitmap` become the rectangle. Brushes and `Path` strokes become the sets of lit edges and arrowheads. Property-change notifications, `RelayCommand`, and `UpdateStateDiagram`'s state-box colours are also left out; the colours are a display of the current name only.
- The `CurrentSpriteFrame` binding is not a separate field. It mirrors the last rectangle signalled, which `Valid()` ties to the animator's current frame.
- Clock-dependent code is left out: log timestamps and `TimeInCurrentState`. The log is a sequence of entries, oldest first; the source prepends text, newest first.
- `Random` becomes a stream of draws; `Random.Next(n)` is the next draw modulo n. The do-while terminates only with probability 1, so `ChooseAutomaticTarget` requires that the stream holds a draw naming another state.
- Frame delays are whole milliseconds. Negative `TimeSpan` values do not occur in the source and are not modelled.
- File system and dialogs are left out: `SaveSpritesheet`, the file-exists check and `MessageBox` in the main window, and the application's exception handlers.
- The older guard-free view model in `StateMachine/StateMachineViewModel.cs` and the state classes under `StateMachine/Models/` are left out. The state classes hold only a name and log strings.
