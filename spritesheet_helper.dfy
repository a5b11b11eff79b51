/**
 * The per-state animation tables and the operations that load them into a
 * sprite animator: clear it, append the table's rectangles, set the delay.
 */
module SpritesheetHelper {
  import opened Wrappers
  import opened SpriteAnimation

  /** Every configured frame is a 48x48 tile on the sprite sheet row at y = 33. */
  predicate IsTile(r: Rect) {
    r.y == 33 && r.width == 48 && r.height == 48
  }

  /** The horizontal distance between neighbouring tiles on the sheet. */
  const TileStep: int := 52

  const IdleDelay: nat := 500
  const WalkingDelay: nat := 150
  const RunningDelay: nat := 80

  /** The standing pose nineteen times, then the next tile once. */
  function IdleFrames(): (r: seq<Rect>)
    ensures |r| == 20 && r[19] == Rect(8 + TileStep, 33, 48, 48)
    ensures forall i :: 0 <= i < 19 ==> r[i] == Rect(8, 33, 48, 48)
    ensures forall i :: 0 <= i < |r| ==> IsTile(r[i])
  {
    [ Rect(8, 33, 48, 48), Rect(8, 33, 48, 48), Rect(8, 33, 48, 48), Rect(8, 33, 48, 48),
      Rect(8, 33, 48, 48), Rect(8, 33, 48, 48), Rect(8, 33, 48, 48), Rect(8, 33, 48, 48),
      Rect(8, 33, 48, 48), Rect(8, 33, 48, 48), Rect(8, 33, 48, 48), Rect(8, 33, 48, 48),
      Rect(8, 33, 48, 48), Rect(8, 33, 48, 48), Rect(8, 33, 48, 48), Rect(8, 33, 48, 48),
      Rect(8, 33, 48, 48), Rect(8, 33, 48, 48), Rect(8, 33, 48, 48), Rect(8 + 52, 33, 48, 48) ]
  }

  /** Three neighbouring tiles starting at x = 164. */
  function WalkingFrames(): (r: seq<Rect>)
    ensures |r| == 3
    ensures forall i :: 0 <= i < |r| ==> r[i] == Rect(164 + TileStep * i, 33, 48, 48)
    ensures forall i :: 0 <= i < |r| ==> IsTile(r[i])
  {
    [Rect(164, 33, 48, 48), Rect(216, 33, 48, 48), Rect(268, 33, 48, 48)]
  }

  /** The three tiles that follow the last walking tile. */
  function RunningFrames(): (r: seq<Rect>)
    ensures |r| == 3
    ensures r[0].x == WalkingFrames()[2].x + TileStep
    ensures forall i :: 0 <= i < |r| ==> r[i] == Rect(320 + TileStep * i, 33, 48, 48)
    ensures forall i :: 0 <= i < |r| ==> IsTile(r[i])
  {
    [Rect(268 + 52, 33, 48, 48), Rect(268 + 52 + 52, 33, 48, 48), Rect(268 + 52 + 52 + 52, 33, 48, 48)]
  }

  /** Running cycles through its frames faster than walking, and both faster than standing. */
  lemma DelaysOrdered()
    ensures RunningDelay < WalkingDelay < IdleDelay
  {
  }

  /**
   * The shape every Configure* operation shares: clear the animator (which
   * stops it and rewinds it), append `table` in order, then set the delay.
   */
  method Configure(animator: SpriteAnimator, table: seq<Rect>, delay: nat)
    requires animator.Valid()
    modifies animator
    ensures animator.Valid()
    ensures animator.frames == table && animator.currentFrameIndex == 0 && !animator.isPlaying
    ensures animator.frameDelay == delay && animator.timerInterval == old(animator.timerInterval)
    ensures table != [] ==> animator.currentFrame == Some(table[0]) && animator.emitted == old(animator.emitted) + [table[0]]
    ensures table == [] ==> animator.currentFrame == old(animator.currentFrame) && animator.emitted == old(animator.emitted)
    ensures animator.spritesheet == old(animator.spritesheet)
  {
    animator.ClearFrames();
    animator.AddFrames(table);
    animator.SetFrameDelay(delay);
  }

  method ConfigureIdleAnimation(animator: SpriteAnimator)
    requires animator.Valid()
    modifies animator
    ensures animator.Valid()
    ensures animator.frames == IdleFrames() && animator.currentFrameIndex == 0 && !animator.isPlaying
    ensures animator.frameDelay == IdleDelay && animator.timerInterval == old(animator.timerInterval)
    ensures animator.currentFrame == Some(Rect(8, 33, 48, 48)) && animator.emitted == old(animator.emitted) + [Rect(8, 33, 48, 48)]
    ensures animator.spritesheet == old(animator.spritesheet)
  {
    Configure(animator, IdleFrames(), IdleDelay);
  }

  method ConfigureWalkingAnimation(animator: SpriteAnimator)
    requires animator.Valid()
    modifies animator
    ensures animator.Valid()
    ensures animator.frames == WalkingFrames() && animator.currentFrameIndex == 0 && !animator.isPlaying
    ensures animator.frameDelay == WalkingDelay && animator.timerInterval == old(animator.timerInterval)
    ensures animator.currentFrame == Some(Rect(164, 33, 48, 48)) && animator.emitted == old(animator.emitted) + [Rect(164, 33, 48, 48)]
    ensures animator.spritesheet == old(animator.spritesheet)
  {
    Configure(animator, WalkingFrames(), WalkingDelay);
  }

  method ConfigureRunningAnimation(animator: SpriteAnimator)
    requires animator.Valid()
    modifies animator
    ensures animator.Valid()
    ensures animator.frames == RunningFrames() && animator.currentFrameIndex == 0 && !animator.isPlaying
    ensures animator.frameDelay == RunningDelay && animator.timerInterval == old(animator.timerInterval)
    ensures animator.currentFrame == Some(Rect(320, 33, 48, 48)) && animator.emitted == old(animator.emitted) + [Rect(320, 33, 48, 48)]
    ensures animator.spritesheet == old(animator.spritesheet)
  {
    Configure(animator, RunningFrames(), RunningDelay);
  }
}
