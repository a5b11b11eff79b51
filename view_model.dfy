/**
 * The coordinating view model: it filters state-change requests through the
 * transition guard before forwarding them to the state machine engine,
 * tracks the current and previous state names from the engine's change
 * callback, reloads the sprite animation when the name changes, and
 * highlights the diagram edge of the transition just taken.
 */
module ViewModels {
  import opened Wrappers
  import opened SpriteAnimation
  import opened SpritesheetHelper

  const Idle: string := "Idle"
  const Walking: string := "Walking"
  const Running: string := "Running"
  const LookUp: string := "LookUp"
  const Ducking: string := "Ducking"
  /** The name shown before the engine has an active state, or when it reports none. */
  const NoState: string := "None"

  /** The engine's States, in the order the view model registers them. */
  const RegisteredStates: seq<string> := [Idle, Walking, Running, LookUp, Ducking]

  /** The messages the view model adds to its log (timestamps are not modelled). */
  datatype LogEntry =
    | AnimatorInitFailed
    | EntryRejected(target: string, from: string)
    | ExitRejected(target: string)
    | StateChanged(name: string)
    | UpdateCalled(name: string)
    | LogCleared
    | SimulationStarted
    | SimulationStopped
    | AutomaticTransition(target: string)
    | CharacterSwitched(character: string)
    | SwitchFailed

  // ---------------------------------------------------------------------------
  // The transition guard
  // ---------------------------------------------------------------------------

  /** What the guard in ChangeState does with one request. */
  datatype Decision =
    | Ignored                   // a null or empty name: nothing happens
    | Rejected(entry: LogEntry) // refused with this log line; the engine is not called
    | Forwarded(name: string)   // handed to the engine

  /** The states that may be entered only from Idle. */
  predicate IsRestricted(name: string) {
    name == LookUp || name == Ducking
  }

  /**
   * The guard of ChangeState: LookUp and Ducking are entered only from Idle,
   * and LookUp is left only for Idle. Ducking has no exit restriction.
   */
  function Guard(current: string, requested: Option<string>): (d: Decision)
    ensures d == Ignored <==> requested == None || requested == Some("")
    ensures d.Forwarded? <==>
              requested.Some? && requested.value != "" &&
              (IsRestricted(requested.value) ==> current == Idle) &&
              (current == LookUp ==> requested.value == Idle)
    ensures d.Forwarded? ==> d.name == requested.value
    ensures d.Rejected? ==>
              d.entry == if current == LookUp && requested.value != LookUp
                         then ExitRejected(requested.value)
                         else EntryRejected(requested.value, current)
  {
    match requested
    case None => Ignored
    case Some(name) =>
      if name == "" then Ignored
      else if name == LookUp && current != Idle then Rejected(EntryRejected(name, current))
      else if current == LookUp && name != Idle then Rejected(ExitRejected(name))
      else if name == Ducking && current != Idle then Rejected(EntryRejected(name, current))
      else Forwarded(name)
  }

  // ---------------------------------------------------------------------------
  // The automatic-transition chooser
  // ---------------------------------------------------------------------------

  const IdleOptions: seq<string> := [Walking, Running, LookUp, Ducking]
  const OtherOptions: seq<string> := [Idle, Walking, Running]

  /** Every state the chooser can pick when the current state is `current`. */
  function AutoTargets(current: string): (r: set<string>)
    ensures r != {} && current !in r
    ensures forall s :: s in r ==> s in RegisteredStates && Guard(current, Some(s)) == Forwarded(s)
  {
    if current == LookUp || current == Ducking then {Idle}
    else if current == Idle then {Walking, Running, LookUp, Ducking}
    else {Idle, Walking, Running} - {current}
  }

  /**
   * The random numbers suffice for one choice: at least one draw is made from
   * Idle, and from an unrestricted state other than Idle some draw eventually
   * names a state other than the current one.
   */
  predicate DrawsSuffice(current: string, draws: seq<nat>) {
    (current == Idle ==> |draws| > 0) &&
    (!IsRestricted(current) && current != Idle ==>
       exists k :: 0 <= k < |draws| && OtherOptions[draws[k] % |OtherOptions|] != current)
  }

  /**
   * The target SimulateStateChange picks. `draws` is the stream of values the
   * random generator returns; Random.Next(n) yields the next draw modulo n.
   */
  method ChooseAutomaticTarget(current: string, draws: seq<nat>) returns (target: string)
    requires DrawsSuffice(current, draws)
    ensures target in AutoTargets(current)
    ensures current == Idle ==> target == IdleOptions[draws[0] % |IdleOptions|]
    ensures !IsRestricted(current) && current != Idle ==>
              exists i :: 0 <= i < |draws| && target == OtherOptions[draws[i] % |OtherOptions|] &&
                          forall j :: 0 <= j < i ==> OtherOptions[draws[j] % |OtherOptions|] == current
  {
    if current == LookUp {
      target := Idle;
    } else if current == Idle {
      target := IdleOptions[draws[0] % |IdleOptions|];
    } else if current == Ducking {
      target := Idle;
    } else {
      ghost var k :| 0 <= k < |draws| && OtherOptions[draws[k] % |OtherOptions|] != current;
      var i := 0;
      target := OtherOptions[draws[i] % |OtherOptions|];
      while target == current
        invariant 0 <= i <= k
        invariant target == OtherOptions[draws[i] % |OtherOptions|]
        invariant forall j :: 0 <= j < i ==> OtherOptions[draws[j] % |OtherOptions|] == current
        decreases k - i
      {
        i := i + 1;
        target := OtherOptions[draws[i] % |OtherOptions|];
      }
    }
  }

  /** Every state in AutoTargets is picked by some draw. */
  lemma AutoTargetsReachable(current: string, s: string)
    requires s in AutoTargets(current)
    ensures current == Idle ==> exists d: nat :: IdleOptions[d % |IdleOptions|] == s
    ensures !IsRestricted(current) && current != Idle ==> exists d: nat :: OtherOptions[d % |OtherOptions|] == s
  {
    if current == Idle {
      var d: nat := if s == Walking then 0 else if s == Running then 1 else if s == LookUp then 2 else 3;
      assert IdleOptions[d % |IdleOptions|] == s;
    } else if !IsRestricted(current) {
      var d: nat := if s == Idle then 0 else if s == Walking then 1 else 2;
      assert OtherOptions[d % |OtherOptions|] == s;
    }
  }

  // ---------------------------------------------------------------------------
  // The name -> animation dispatch
  // ---------------------------------------------------------------------------

  datatype AnimationKind = IdleAnimation | WalkingAnimation | RunningAnimation | LookUpAnimation | DuckingAnimation

  /** The animation UpdateAnimationForState loads: the state's own, and Idle for any other name. */
  function AnimationFor(name: string): (k: AnimationKind)
    ensures k == WalkingAnimation <==> name == Walking
    ensures k == RunningAnimation <==> name == Running
    ensures k == LookUpAnimation <==> name == LookUp
    ensures k == DuckingAnimation <==> name == Ducking
    ensures k == IdleAnimation <==> name !in {Walking, Running, LookUp, Ducking}
  {
    if name == Idle then IdleAnimation
    else if name == Walking then WalkingAnimation
    else if name == Running then RunningAnimation
    else if name == LookUp then LookUpAnimation
    else if name == Ducking then DuckingAnimation
    else IdleAnimation
  }

  /** The animator has been reloaded with `table` and `delay` and restarted. */
  ghost predicate Shows(a: SpriteAnimator, table: seq<Rect>, delay: nat)
    reads a
  {
    a.frames == table && a.currentFrameIndex == 0 && a.isPlaying == (table != []) && a.frameDelay == delay &&
    (table != [] ==> a.timerInterval == delay && a.currentFrame == Some(table[0]))
  }

  // ---------------------------------------------------------------------------
  // The transition diagram
  // ---------------------------------------------------------------------------

  /** The edges of the state diagram, one per pair of states joined by a transition. */
  datatype Edge = IdleToWalking | WalkingToRunning | IdleToRunning | IdleToLookUp | IdleToDucking

  datatype Direction = Forward | Backward

  /** One of the two arrowheads drawn on an edge. */
  datatype Arrowhead = Arrowhead(edge: Edge, direction: Direction)

  function Opposite(d: Direction): Direction {
    if d == Forward then Backward else Forward
  }

  /** The states an edge joins, in its forward direction. */
  function Ends(e: Edge): (string, string) {
    match e
    case IdleToWalking => (Idle, Walking)
    case WalkingToRunning => (Walking, Running)
    case IdleToRunning => (Idle, Running)
    case IdleToLookUp => (Idle, LookUp)
    case IdleToDucking => (Idle, Ducking)
  }

  /** The arrowhead DisplayStateTransition highlights for a move from `from` to `to`, if any. */
  function TransitionHighlight(from: string, to: string): (r: Option<Arrowhead>)
    ensures r.Some? && r.value.direction == Forward ==> Ends(r.value.edge) == (from, to)
    ensures r.Some? && r.value.direction == Backward ==> Ends(r.value.edge) == (to, from)
  {
    if from == Idle && to == Walking then Some(Arrowhead(IdleToWalking, Forward))
    else if from == Walking && to == Idle then Some(Arrowhead(IdleToWalking, Backward))
    else if from == Walking && to == Running then Some(Arrowhead(WalkingToRunning, Forward))
    else if from == Running && to == Walking then Some(Arrowhead(WalkingToRunning, Backward))
    else if from == Idle && to == Running then Some(Arrowhead(IdleToRunning, Forward))
    else if from == Running && to == Idle then Some(Arrowhead(IdleToRunning, Backward))
    else if from == Idle && to == LookUp then Some(Arrowhead(IdleToLookUp, Forward))
    else if from == LookUp && to == Idle then Some(Arrowhead(IdleToLookUp, Backward))
    else if from == Idle && to == Ducking then Some(Arrowhead(IdleToDucking, Forward))
    else if from == Ducking && to == Idle then Some(Arrowhead(IdleToDucking, Backward))
    else None
  }

  /** A move is highlighted on edge `e` forwards exactly when it follows `e`, backwards exactly when it reverses `e`. */
  lemma HighlightFollowsDiagram(from: string, to: string, e: Edge)
    ensures TransitionHighlight(from, to) == Some(Arrowhead(e, Forward)) <==> Ends(e) == (from, to)
    ensures TransitionHighlight(from, to) == Some(Arrowhead(e, Backward)) <==> Ends(e) == (to, from)
  {
  }

  /** A move between two states that no edge joins highlights nothing. */
  lemma HighlightOffDiagram(from: string, to: string)
    ensures TransitionHighlight(from, to) == None <==> forall e: Edge :: Ends(e) != (from, to) && Ends(e) != (to, from)
  {
    if TransitionHighlight(from, to) == None {
      forall e: Edge ensures Ends(e) != (from, to) && Ends(e) != (to, from) {
        HighlightFollowsDiagram(from, to, e);
      }
    } else {
      var a := TransitionHighlight(from, to).value;
      HighlightFollowsDiagram(from, to, a.edge);
    }
  }

  /** Reversing a move selects the same edge and the opposite arrowhead. */
  lemma HighlightReversal(from: string, to: string)
    ensures TransitionHighlight(to, from) ==
              match TransitionHighlight(from, to)
              case None => None
              case Some(a) => Some(Arrowhead(a.edge, Opposite(a.direction)))
  {
    match TransitionHighlight(from, to)
    case None =>
      HighlightOffDiagram(from, to);
      HighlightOffDiagram(to, from);
    case Some(a) =>
      HighlightFollowsDiagram(from, to, a.edge);
      HighlightFollowsDiagram(to, from, a.edge);
  }

  /** The set holding the highlighted item, if there is one. */
  function Lit<T>(item: Option<T>): set<T> {
    match item
    case None => {}
    case Some(x) => {x}
  }

  // ---------------------------------------------------------------------------
  // The view model
  // ---------------------------------------------------------------------------

  class StateMachineViewModel {
    /** The names of the engine's States, in registration order. */
    const states: seq<string>
    /** The frame tables and delays of the LookUp and Ducking animations. */
    const lookUpFrames: seq<Rect>
    const lookUpDelay: nat
    const duckingFrames: seq<Rect>
    const duckingDelay: nat

    /** null when the sprite sheet could not be loaded. */
    var animator: SpriteAnimator?
    var currentStateName: string
    var previousStateName: string
    var lastHighlightedPath: Option<Edge>
    var lastHighlightedArrowhead: Option<Arrowhead>
    /** The edges and arrowheads currently painted in the highlight colour. */
    var highlightedPaths: set<Edge>
    var highlightedArrowheads: set<Arrowhead>
    var isSimulatingActivity: bool
    /** The log, oldest message first. */
    var log: seq<LogEntry>

    function FramesFor(k: AnimationKind): seq<Rect> {
      match k
      case IdleAnimation => IdleFrames()
      case WalkingAnimation => WalkingFrames()
      case RunningAnimation => RunningFrames()
      case LookUpAnimation => lookUpFrames
      case DuckingAnimation => duckingFrames
    }

    function DelayFor(k: AnimationKind): nat {
      match k
      case IdleAnimation => IdleDelay
      case WalkingAnimation => WalkingDelay
      case RunningAnimation => RunningDelay
      case LookUpAnimation => lookUpDelay
      case DuckingAnimation => duckingDelay
    }

    /**
     * The object invariant: the engine holds the five states, the animator is
     * consistent, and exactly the last highlighted edge and arrowhead are lit.
     */
    ghost predicate Valid()
      reads this, animator
    {
      states == RegisteredStates &&
      (animator != null ==> animator.Valid()) &&
      highlightedPaths == Lit(lastHighlightedPath) &&
      highlightedArrowheads == Lit(lastHighlightedArrowhead)
    }

    /**
     * What the guard guarantees of every reachable state: the current name is
     * a registered state, and LookUp and Ducking were entered from Idle.
     */
    ghost predicate Reachable()
      reads this
    {
      currentStateName in states && (IsRestricted(currentStateName) ==> previousStateName == Idle)
    }

    /** The highlight shows `h`: its edge and that arrowhead, or nothing. */
    ghost predicate HighlightIs(h: Option<Arrowhead>)
      reads this
    {
      lastHighlightedArrowhead == h &&
      lastHighlightedPath == (match h case None => None case Some(a) => Some(a.edge))
    }

    /** Nothing but the log has changed. */
    twostate predicate Untouched()
      reads this, animator
    {
      animator == old(animator) && (animator != null ==> unchanged(animator)) &&
      currentStateName == old(currentStateName) && previousStateName == old(previousStateName) &&
      lastHighlightedPath == old(lastHighlightedPath) && lastHighlightedArrowhead == old(lastHighlightedArrowhead) &&
      highlightedPaths == old(highlightedPaths) && highlightedArrowheads == old(highlightedArrowheads) &&
      isSimulatingActivity == old(isSimulatingActivity)
    }

    /** The animator now plays the animation of the current name, on the same sprite sheet. */
    twostate predicate AnimationReloaded()
      reads this, animator
    {
      animator == old(animator) &&
      (animator != null ==>
        var k := AnimationFor(currentStateName);
        Shows(animator, FramesFor(k), DelayFor(k)) &&
        animator.spritesheet == old(animator.spritesheet) &&
        (FramesFor(k) != [] ==> animator.emitted == old(animator.emitted) + [FramesFor(k)[0]]) &&
        (FramesFor(k) == [] ==> animator.timerInterval == old(animator.timerInterval) && animator.currentFrame == old(animator.currentFrame) &&
                                animator.emitted == old(animator.emitted)))
    }

    /**
     * The effect of the engine's change callback for a state called `name`:
     * the previous name is the old current one, the animation is reloaded
     * only if the name changed, and the move's edge is highlighted unless it
     * is a self-move or starts from no state.
     */
    twostate predicate Entered(name: string)
      reads this, animator
    {
      previousStateName == old(currentStateName) && currentStateName == name &&
      animator == old(animator) &&
      (if old(currentStateName) != name then AnimationReloaded() else animator != null ==> unchanged(animator)) &&
      (if old(currentStateName) == name || old(currentStateName) == NoState
       then lastHighlightedPath == old(lastHighlightedPath) && lastHighlightedArrowhead == old(lastHighlightedArrowhead)
       else HighlightIs(TransitionHighlight(old(currentStateName), name))) &&
      isSimulatingActivity == old(isSimulatingActivity)
    }

    /**
     * Builds the view model. `spritesheetLoads` says whether the sprite sheet
     * at `spritesheetPath` can be loaded; the engine then activates its first
     * registered state.
     */
    constructor (spritesheetLoads: bool, spritesheetPath: string,
                 lookUpFrames: seq<Rect>, lookUpDelay: nat, duckingFrames: seq<Rect>, duckingDelay: nat)
      ensures Valid() && Reachable()
      ensures states == RegisteredStates && currentStateName == Idle && previousStateName == NoState
      ensures this.lookUpFrames == lookUpFrames && this.lookUpDelay == lookUpDelay
      ensures this.duckingFrames == duckingFrames && this.duckingDelay == duckingDelay
      ensures (animator != null) == spritesheetLoads
      ensures animator != null ==> fresh(animator) && animator.spritesheet == spritesheetPath && Shows(animator, IdleFrames(), IdleDelay)
      ensures animator != null ==> animator.emitted == [Rect(8, 33, 48, 48)]
      ensures lastHighlightedPath == None && lastHighlightedArrowhead == None && !isSimulatingActivity
      ensures log == (if spritesheetLoads then [] else [AnimatorInitFailed]) + [StateChanged(Idle)]
    {
      this.lookUpFrames := lookUpFrames;
      this.lookUpDelay := lookUpDelay;
      this.duckingFrames := duckingFrames;
      this.duckingDelay := duckingDelay;
      states := RegisteredStates;
      currentStateName := NoState;
      previousStateName := NoState;
      lastHighlightedPath := None;
      lastHighlightedArrowhead := None;
      highlightedPaths := {};
      highlightedArrowheads := {};
      isSimulatingActivity := false;
      if spritesheetLoads {
        animator := new SpriteAnimator(spritesheetPath);
        log := [];
      } else {
        animator := null;
        log := [AnimatorInitFailed];
      }
      new;
      if |states| > 0 {
        OnStateChange(Some(states[0]));
      }
    }

    /** Loads the animation of the current name: stop, configure (Idle for an unknown name), play. */
    method UpdateAnimationForState()
      requires Valid()
      modifies animator
      ensures Valid()
      ensures AnimationReloaded()
    {
      if animator == null {
        return;
      }
      animator.Stop();
      match AnimationFor(currentStateName) {
        case IdleAnimation => ConfigureIdleAnimation(animator);
        case WalkingAnimation => ConfigureWalkingAnimation(animator);
        case RunningAnimation => ConfigureRunningAnimation(animator);
        case LookUpAnimation => Configure(animator, lookUpFrames, lookUpDelay);
        case DuckingAnimation => Configure(animator, duckingFrames, duckingDelay);
      }
      animator.Play();
    }

    /** The CurrentStateName setter: a new name reloads the animation; the same name does nothing. */
    method SetCurrentStateName(value: string)
      requires Valid()
      modifies this, animator
      ensures Valid()
      ensures currentStateName == value && previousStateName == old(previousStateName) && animator == old(animator)
      ensures old(currentStateName) != value ==> AnimationReloaded()
      ensures old(currentStateName) == value ==> animator != null ==> unchanged(animator)
      ensures lastHighlightedPath == old(lastHighlightedPath) && lastHighlightedArrowhead == old(lastHighlightedArrowhead)
      ensures highlightedPaths == old(highlightedPaths) && highlightedArrowheads == old(highlightedArrowheads)
      ensures isSimulatingActivity == old(isSimulatingActivity) && log == old(log)
    {
      if currentStateName != value {
        currentStateName := value;
        UpdateAnimationForState();
      }
    }

    /** Un-highlights the last highlighted edge and arrowhead. */
    method ResetTransitionHighlight()
      requires Valid()
      modifies this
      ensures Valid()
      ensures lastHighlightedPath == None && lastHighlightedArrowhead == None
      ensures highlightedPaths == {} && highlightedArrowheads == {}
      ensures animator == old(animator) && currentStateName == old(currentStateName) && previousStateName == old(previousStateName)
      ensures isSimulatingActivity == old(isSimulatingActivity) && log == old(log)
    {
      if lastHighlightedPath != None {
        highlightedPaths := highlightedPaths - {lastHighlightedPath.value};
        lastHighlightedPath := None;
      }
      if lastHighlightedArrowhead != None {
        highlightedArrowheads := highlightedArrowheads - {lastHighlightedArrowhead.value};
        lastHighlightedArrowhead := None;
      }
    }

    /** Highlights the edge and arrowhead of the move from `fromState` to `toState`. */
    method DisplayStateTransition(fromState: string, toState: string)
      requires Valid()
      modifies this
      ensures Valid()
      ensures fromState == toState || fromState == NoState ==>
                lastHighlightedPath == old(lastHighlightedPath) && lastHighlightedArrowhead == old(lastHighlightedArrowhead)
      ensures fromState != toState && fromState != NoState ==> HighlightIs(TransitionHighlight(fromState, toState))
      ensures animator == old(animator) && currentStateName == old(currentStateName) && previousStateName == old(previousStateName)
      ensures isSimulatingActivity == old(isSimulatingActivity) && log == old(log)
    {
      if fromState == toState || fromState == NoState {
        return;
      }
      ResetTransitionHighlight();
      match TransitionHighlight(fromState, toState)
      case None =>
      case Some(a) =>
        highlightedPaths := highlightedPaths + {a.edge};
        lastHighlightedPath := Some(a.edge);
        highlightedArrowheads := highlightedArrowheads + {a};
        lastHighlightedArrowhead := Some(a);
    }

    /** The engine's change callback, for the newly active state's name (None for no state). */
    method OnStateChange(state: Option<string>)
      requires Valid()
      modifies this, animator
      ensures Valid()
      ensures Entered(state.GetOr(NoState))
      ensures log == old(log) + [StateChanged(state.GetOr(NoState))]
    {
      previousStateName := currentStateName;
      SetCurrentStateName(state.GetOr(NoState));
      DisplayStateTransition(previousStateName, currentStateName);
      log := log + [StateChanged(currentStateName)];
    }

    /**
     * The step this model stands in for the engine's ChangeState(name): a
     * registered name becomes active and the change callback runs; any other
     * name changes nothing.
     */
    method ForwardToEngine(name: string)
      requires Valid()
      modifies this, animator
      ensures Valid()
      ensures name in states ==> Entered(name) && log == old(log) + [StateChanged(name)]
      ensures name !in states ==> Untouched() && log == old(log)
    {
      if name in states {
        OnStateChange(Some(name));
      }
    }

    /** The ChangeState command: the guard decides whether the request reaches the engine. */
    method ChangeState(stateName: Option<string>)
      requires Valid() && Reachable()
      modifies this, animator
      ensures Valid() && Reachable()
      ensures Guard(old(currentStateName), stateName) == Ignored ==> Untouched() && log == old(log)
      ensures Guard(old(currentStateName), stateName).Rejected? ==>
                Untouched() && log == old(log) + [Guard(old(currentStateName), stateName).entry]
      ensures Guard(old(currentStateName), stateName).Forwarded? ==>
                var name := stateName.value;
                if name in states then Entered(name) && log == old(log) + [StateChanged(name)]
                else Untouched() && log == old(log)
    {
      match Guard(currentStateName, stateName)
      case Ignored =>
      case Rejected(entry) =>
        log := log + [entry];
      case Forwarded(name) =>
        ForwardToEngine(name);
    }

    /** One tick of the activity timer (which runs only while simulating): choose a target, log it, and request it. */
    method SimulateStateChange(draws: seq<nat>)
      requires Valid() && Reachable() && DrawsSuffice(currentStateName, draws)
      requires isSimulatingActivity
      modifies this, animator
      ensures Valid() && Reachable()
      ensures exists target :: target in AutoTargets(old(currentStateName)) && Entered(target) &&
                               log == old(log) + [AutomaticTransition(target), StateChanged(target)] &&
                               (old(currentStateName) == Idle ==> target == IdleOptions[draws[0] % |IdleOptions|]) &&
                               (!IsRestricted(old(currentStateName)) && old(currentStateName) != Idle ==>
                                  exists i :: 0 <= i < |draws| && target == OtherOptions[draws[i] % |OtherOptions|] &&
                                              forall j :: 0 <= j < i ==> OtherOptions[draws[j] % |OtherOptions|] == old(currentStateName))
    {
      var target := ChooseAutomaticTarget(currentStateName, draws);
      log := log + [AutomaticTransition(target)];
      ChangeState(Some(target));
    }

    /** The Update command: the engine updates its active state (a no-op hook in every state). */
    method UpdateActiveState()
      requires Valid()
      modifies this
      ensures Valid() && Untouched()
      ensures log == old(log) + [UpdateCalled(currentStateName)]
    {
      log := log + [UpdateCalled(currentStateName)];
    }

    method ClearLog()
      requires Valid()
      modifies this
      ensures Valid() && Untouched()
      ensures log == [LogCleared]
    {
      log := [];
      log := log + [LogCleared];
    }

    /** Starts or stops the activity timer that drives SimulateStateChange. */
    method ToggleAutomaticStateChanges()
      requires Valid()
      modifies this
      ensures Valid()
      ensures isSimulatingActivity == !old(isSimulatingActivity)
      ensures log == old(log) + [if isSimulatingActivity then SimulationStarted else SimulationStopped]
      ensures animator == old(animator) && currentStateName == old(currentStateName) && previousStateName == old(previousStateName)
      ensures lastHighlightedPath == old(lastHighlightedPath) && lastHighlightedArrowhead == old(lastHighlightedArrowhead)
    {
      isSimulatingActivity := !isSimulatingActivity;
      if isSimulatingActivity {
        log := log + [SimulationStarted];
      } else {
        log := log + [SimulationStopped];
      }
    }

    /**
     * Switches the character: the animator moves to `spritesheetPath` (the
     * sheet of `character`) and replays the current state's animation. Without
     * an animator the switch fails and is logged.
     */
    method SwitchCharacter(character: string, spritesheetPath: string)
      requires Valid()
      modifies this, animator
      ensures Valid()
      ensures animator == old(animator) && currentStateName == old(currentStateName) && previousStateName == old(previousStateName)
      ensures lastHighlightedPath == old(lastHighlightedPath) && lastHighlightedArrowhead == old(lastHighlightedArrowhead)
      ensures isSimulatingActivity == old(isSimulatingActivity)
      ensures animator == null ==> log == old(log) + [SwitchFailed]
      ensures animator != null ==>
                animator.spritesheet == spritesheetPath &&
                Shows(animator, FramesFor(AnimationFor(currentStateName)), DelayFor(AnimationFor(currentStateName))) &&
                log == old(log) + [CharacterSwitched(character)]
      ensures animator != null ==>
                var table := FramesFor(AnimationFor(currentStateName));
                animator.emitted == old(animator.emitted)
                                    + (if old(animator.frames) != [] then [old(animator.frames)[0]] else [])
                                    + (if table != [] then [table[0]] else [])
      ensures animator != null && FramesFor(AnimationFor(currentStateName)) == [] ==>
                animator.timerInterval == old(animator.timerInterval)
    {
      if animator == null {
        log := log + [SwitchFailed];
        return;
      }
      animator.Stop();
      animator.ChangeSpritesheet(spritesheetPath);
      UpdateAnimationForState();
      log := log + [CharacterSwitched(character)];
    }
  }

  /** A request through ChangeState, seen from outside: granted, or refused with nothing changed. */
  method Request(vm: StateMachineViewModel, name: string) returns (now: string)
    requires vm.Valid() && vm.Reachable()
    modifies vm, vm.animator
    ensures vm.Valid() && vm.Reachable() && vm.animator == old(vm.animator)
    ensures now == vm.currentStateName
    ensures Guard(old(vm.currentStateName), Some(name)).Forwarded? && name in vm.states ==> now == name
    ensures Guard(old(vm.currentStateName), Some(name)).Rejected? ==> now == old(vm.currentStateName)
  {
    vm.ChangeState(Some(name));
    now := vm.currentStateName;
  }

  /**
   * A client of the contracts above: from the initial Idle, LookUp is
   * entered, Walking is refused while looking up, Idle is re-entered, and
   * Walking is then allowed.
   */
  method LookUpWalkthrough() returns (visited: seq<string>)
    ensures visited == [Idle, LookUp, LookUp, Idle, Walking]
  {
    var vm := new StateMachineViewModel(true, "Mario2.png", [], 0, [], 0);
    var now := vm.currentStateName;
    visited := [now];
    assert Guard(Idle, Some(LookUp)) == Forwarded(LookUp);
    now := Request(vm, LookUp);
    visited := visited + [now];
    assert Guard(LookUp, Some(Walking)) == Rejected(ExitRejected(Walking));
    now := Request(vm, Walking);
    visited := visited + [now];
    assert Guard(LookUp, Some(Idle)) == Forwarded(Idle);
    now := Request(vm, Idle);
    visited := visited + [now];
    assert Guard(Idle, Some(Walking)) == Forwarded(Walking);
    now := Request(vm, Walking);
    visited := visited + [now];
  }
}
