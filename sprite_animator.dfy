/**
 * The sprite animator: an ordered list of frame rectangles cut from one
 * sprite sheet, a current index into it, a playing flag and a frame delay.
 * A timer tick advances the index modulo the frame count and recomputes the
 * visible frame, which is signalled through the frame-changed event.
 */
module SpriteAnimation {
  import opened Wrappers

  /** A source rectangle within the sprite sheet (Int32Rect). */
  datatype Rect = Rect(x: int, y: int, width: int, height: int)

  /** The frame delay a new animator starts with, in milliseconds. */
  const DefaultFrameDelay: nat := 100

  /** The index one timer tick moves to in a list of `count` frames. */
  function NextIndex(index: nat, count: nat): (r: nat)
    requires index < count
    ensures r < count
    ensures r == if index + 1 == count then 0 else index + 1
  {
    (index + 1) % count
  }

  /** The index reached from `index` after `ticks` consecutive timer ticks. */
  function IndexAfter(index: nat, count: nat, ticks: nat): (r: nat)
    requires index < count
    ensures r < count
  {
    if ticks == 0 then index else NextIndex(IndexAfter(index, count, ticks - 1), count)
  }

  /** Ticks compose: `a` ticks followed by `b` ticks are `a + b` ticks. */
  lemma {:induction false} IndexAfterCompose(index: nat, count: nat, a: nat, b: nat)
    requires index < count
    ensures IndexAfter(index, count, a + b) == IndexAfter(IndexAfter(index, count, a), count, b)
  {
    if b > 0 {
      IndexAfterCompose(index, count, a, b - 1);
    }
  }

  /** Before the wrap-around point each tick moves exactly one frame forward. */
  lemma {:induction false} IndexAfterBeforeWrap(index: nat, count: nat, ticks: nat)
    requires index + ticks < count
    ensures IndexAfter(index, count, ticks) == index + ticks
  {
    if ticks > 0 {
      IndexAfterBeforeWrap(index, count, ticks - 1);
    }
  }

  /** After as many ticks as there are frames the index is back where it started. */
  lemma FullCycleReturns(index: nat, count: nat)
    requires index < count
    ensures IndexAfter(index, count, count) == index
  {
    var toEnd := count - 1 - index;
    IndexAfterBeforeWrap(index, count, toEnd);
    assert IndexAfter(index, count, toEnd + 1) == 0;
    IndexAfterCompose(index, count, toEnd + 1, index);
    IndexAfterBeforeWrap(0, count, index);
  }

  /** The index sequence is periodic with the frame count as its period. */
  lemma TicksArePeriodic(index: nat, count: nat, ticks: nat)
    requires index < count
    ensures IndexAfter(index, count, ticks + count) == IndexAfter(index, count, ticks)
  {
    IndexAfterCompose(index, count, count, ticks);
    FullCycleReturns(index, count);
  }

  /** Three frames ticked five times from the first end on the last: 5 mod 3 = 2. */
  lemma FiveTicksOverThreeFrames()
    ensures IndexAfter(0, 3, 5) == 2
  {
  }

  class SpriteAnimator {
    /** The source image the frames are cut from (the path it was loaded from). */
    var spritesheet: string
    var frames: seq<Rect>
    var currentFrameIndex: int
    var isPlaying: bool
    /** FrameDelay, in milliseconds. */
    var frameDelay: nat
    /** The interval the animation timer was last armed with, in milliseconds. */
    var timerInterval: nat
    /** CurrentFrame: the rectangle last cropped from the sheet, if any. */
    var currentFrame: Option<Rect>
    /** Every rectangle signalled through the frame-changed event, oldest first. */
    ghost var emitted: seq<Rect>

    /** The index addresses a frame whenever there is one, and is 0 otherwise. */
    predicate IndexInRange()
      reads this
    {
      if frames == [] then currentFrameIndex == 0 else 0 <= currentFrameIndex < |frames|
    }

    /**
     * The object invariant: the index is in range, a non-empty list shows the
     * frame at the index, and the current frame is the one last signalled.
     */
    ghost predicate Valid()
      reads this
    {
      IndexInRange() &&
      (frames != [] ==> currentFrame == Some(frames[currentFrameIndex])) &&
      currentFrame == (if emitted == [] then None else Some(emitted[|emitted| - 1]))
    }

    function FrameCount(): (n: nat)
      reads this
      ensures n == 0 <==> frames == []
      ensures Valid() && n > 0 ==> 0 <= currentFrameIndex < n
    {
      |frames|
    }

    constructor (spritesheetPath: string)
      ensures Valid()
      ensures spritesheet == spritesheetPath && frames == [] && currentFrameIndex == 0
      ensures !isPlaying && frameDelay == DefaultFrameDelay && timerInterval == DefaultFrameDelay
      ensures currentFrame == None && emitted == []
    {
      spritesheet := spritesheetPath;
      frames := [];
      currentFrameIndex := 0;
      isPlaying := false;
      frameDelay := DefaultFrameDelay;
      timerInterval := DefaultFrameDelay;
      currentFrame := None;
      emitted := [];
    }

    /** Crops the frame at the current index and signals it; nothing when there are no frames. */
    method UpdateCurrentFrame()
      requires IndexInRange()
      modifies this
      ensures frames == old(frames) && currentFrameIndex == old(currentFrameIndex) && isPlaying == old(isPlaying)
      ensures frames != [] ==> currentFrame == Some(frames[currentFrameIndex]) && emitted == old(emitted) + [frames[currentFrameIndex]]
      ensures frames == [] ==> currentFrame == old(currentFrame) && emitted == old(emitted)
      ensures spritesheet == old(spritesheet) && frameDelay == old(frameDelay) && timerInterval == old(timerInterval)
    {
      if |frames| == 0 {
        return;
      }
      var rect := frames[currentFrameIndex];
      currentFrame := Some(rect);
      emitted := emitted + [rect];
    }

    /** Appends one rectangle; the first rectangle of an empty list becomes current at once. */
    method AddFrame(x: int, y: int, width: int, height: int)
      requires Valid()
      modifies this
      ensures Valid()
      ensures frames == old(frames) + [Rect(x, y, width, height)]
      ensures old(frames) == [] ==> currentFrame == Some(Rect(x, y, width, height)) && emitted == old(emitted) + [Rect(x, y, width, height)]
      ensures old(frames) != [] ==> currentFrame == old(currentFrame) && emitted == old(emitted)
      ensures currentFrameIndex == old(currentFrameIndex) && isPlaying == old(isPlaying)
      ensures spritesheet == old(spritesheet) && frameDelay == old(frameDelay) && timerInterval == old(timerInterval)
    {
      frames := frames + [Rect(x, y, width, height)];
      if |frames| == 1 {
        UpdateCurrentFrame();
      }
    }

    /** Appends the rectangles in order, one AddFrame call each. */
    method AddFrames(rects: seq<Rect>)
      requires Valid()
      modifies this
      ensures Valid()
      ensures frames == old(frames) + rects
      ensures old(frames) == [] && rects != [] ==> currentFrame == Some(rects[0]) && emitted == old(emitted) + [rects[0]]
      ensures old(frames) != [] || rects == [] ==> currentFrame == old(currentFrame) && emitted == old(emitted)
      ensures currentFrameIndex == old(currentFrameIndex) && isPlaying == old(isPlaying)
      ensures spritesheet == old(spritesheet) && frameDelay == old(frameDelay) && timerInterval == old(timerInterval)
    {
      var i := 0;
      while i < |rects|
        invariant 0 <= i <= |rects|
        invariant Valid()
        invariant frames == old(frames) + rects[..i]
        invariant old(frames) == [] && i > 0 ==> currentFrame == Some(rects[0]) && emitted == old(emitted) + [rects[0]]
        invariant old(frames) != [] || i == 0 ==> currentFrame == old(currentFrame) && emitted == old(emitted)
        invariant currentFrameIndex == old(currentFrameIndex) && isPlaying == old(isPlaying)
        invariant spritesheet == old(spritesheet) && frameDelay == old(frameDelay) && timerInterval == old(timerInterval)
      {
        var rect := rects[i];
        AddFrame(rect.x, rect.y, rect.width, rect.height);
        assert rects[..i + 1] == rects[..i] + [rect];
        i := i + 1;
      }
      assert rects[..i] == rects;
    }

    /** Stops playback and empties the list; the current frame is left as it was. */
    method ClearFrames()
      requires Valid()
      modifies this
      ensures Valid()
      ensures frames == [] && currentFrameIndex == 0 && !isPlaying
      ensures currentFrame == old(currentFrame) && emitted == old(emitted)
      ensures spritesheet == old(spritesheet) && frameDelay == old(frameDelay) && timerInterval == old(timerInterval)
    {
      Stop();
      frames := [];
      currentFrameIndex := 0;
    }

    /** Arms the timer with the present frame delay and starts playing; inert on an empty list. */
    method Play()
      requires Valid()
      modifies this
      ensures Valid()
      ensures old(frames) == [] ==> isPlaying == old(isPlaying) && timerInterval == old(timerInterval)
      ensures old(frames) != [] ==> isPlaying && timerInterval == frameDelay
      ensures frames == old(frames) && currentFrameIndex == old(currentFrameIndex)
      ensures currentFrame == old(currentFrame) && emitted == old(emitted)
      ensures spritesheet == old(spritesheet) && frameDelay == old(frameDelay)
    {
      if |frames| == 0 {
        return;
      }
      isPlaying := true;
      timerInterval := frameDelay;
    }

    /** Disarms the timer; index, frames and the current frame stay as they were. */
    method Stop()
      requires Valid()
      modifies this
      ensures Valid()
      ensures !isPlaying
      ensures frames == old(frames) && currentFrameIndex == old(currentFrameIndex)
      ensures currentFrame == old(currentFrame) && emitted == old(emitted)
      ensures spritesheet == old(spritesheet) && frameDelay == old(frameDelay) && timerInterval == old(timerInterval)
    {
      isPlaying := false;
    }

    /** The FrameDelay setter: an armed timer keeps its interval until the next Play. */
    method SetFrameDelay(delay: nat)
      requires Valid()
      modifies this
      ensures Valid()
      ensures frameDelay == delay && timerInterval == old(timerInterval)
      ensures frames == old(frames) && currentFrameIndex == old(currentFrameIndex) && isPlaying == old(isPlaying)
      ensures currentFrame == old(currentFrame) && emitted == old(emitted) && spritesheet == old(spritesheet)
    {
      frameDelay := delay;
    }

    /** Rewinds to the first frame and shows it, without touching the playing flag. */
    method Reset()
      requires Valid()
      modifies this
      ensures Valid()
      ensures currentFrameIndex == 0
      ensures frames != [] ==> currentFrame == Some(frames[0]) && emitted == old(emitted) + [frames[0]]
      ensures frames == [] ==> currentFrame == old(currentFrame) && emitted == old(emitted)
      ensures frames == old(frames) && isPlaying == old(isPlaying)
      ensures spritesheet == old(spritesheet) && frameDelay == old(frameDelay) && timerInterval == old(timerInterval)
    {
      currentFrameIndex := 0;
      UpdateCurrentFrame();
    }

    /** Stops playback, swaps the source image, rewinds, and shows the first frame if there is one. */
    method ChangeSpritesheet(spritesheetPath: string)
      requires Valid()
      modifies this
      ensures Valid()
      ensures spritesheet == spritesheetPath && currentFrameIndex == 0 && !isPlaying
      ensures frames != [] ==> currentFrame == Some(frames[0]) && emitted == old(emitted) + [frames[0]]
      ensures frames == [] ==> currentFrame == old(currentFrame) && emitted == old(emitted)
      ensures frames == old(frames) && frameDelay == old(frameDelay) && timerInterval == old(timerInterval)
    {
      Stop();
      spritesheet := spritesheetPath;
      currentFrameIndex := 0;
      if |frames| > 0 {
        UpdateCurrentFrame();
      }
    }

    /** The timer handler: advances the index cyclically and shows the new frame; inert on an empty list. */
    method AnimationTick()
      requires Valid()
      modifies this
      ensures Valid()
      ensures frames == old(frames) && isPlaying == old(isPlaying)
      ensures frames == [] ==> currentFrameIndex == old(currentFrameIndex) && currentFrame == old(currentFrame) && emitted == old(emitted)
      ensures frames != [] ==> currentFrameIndex == NextIndex(old(currentFrameIndex), |frames|)
      ensures frames != [] ==> currentFrame == Some(frames[currentFrameIndex]) && emitted == old(emitted) + [frames[currentFrameIndex]]
      ensures spritesheet == old(spritesheet) && frameDelay == old(frameDelay) && timerInterval == old(timerInterval)
    {
      if |frames| == 0 {
        return;
      }
      currentFrameIndex := (currentFrameIndex + 1) % |frames|;
      UpdateCurrentFrame();
    }
  }
}
