/** The controls of `PlayerView` in the video player: dragging the seeker,
    the periodic time observer, the play/pause/restart button, tapping the
    video, the rotate gesture and the thumbnail frames shown while seeking.
    The AVPlayer itself is outside the model: its current-time/duration ratio
    is the parameter of `Tick`, and seeking the player is not modelled. */
module VideoPlayer {
  import opened Options
  import opened RealMath

  /** A thumbnail frame generated for scrubbing, named by the order in which it arrived. */
  datatype Image = Image(id: nat)

  /** Swift's `Int(x)`: truncation toward zero. */
  function Truncate(x: real): (n: int)
    ensures x >= 0.0 ==> n == x.Floor
    ensures n as real <= x < n as real + 1.0 || x < 0.0
  {
    if x >= 0.0 then x.Floor else -((-x).Floor)
  }

  /** The progress while dragging the seeker: the drag's horizontal
      translation as a fraction of the video width, added to the progress
      committed by the previous drag, then `max(min(_, 1), 0)`. */
  function DragProgress(translationX: real, width: real, lastDraggedProgress: real): (p: real)
    requires width > 0.0
    ensures 0.0 <= p <= 1.0
    ensures p == Clamp(translationX / width + lastDraggedProgress, 0.0, 1.0)
  {
    Max(Min(translationX / width + lastDraggedProgress, 1.0), 0.0)
  }

  /** `Int(progress / 0.01)`: the thumbnail frame for a progress. */
  function ThumbnailIndex(progress: real): int
  {
    Truncate(progress / 0.01)
  }

  /** For a progress in [0, 1] the thumbnail index is one of 0..100, and it
      is 100 (one past the hundred frames generated) only at the very end. */
  lemma ThumbnailIndexRange(progress: real)
    requires 0.0 <= progress <= 1.0
    ensures 0 <= ThumbnailIndex(progress) <= 100
    ensures ThumbnailIndex(progress) == 100 <==> progress == 1.0
    ensures ThumbnailIndex(progress) as real <= progress * 100.0 < ThumbnailIndex(progress) as real + 1.0
  {
    var x := progress / 0.01;
    assert x == progress * 100.0;
    assert 0.0 <= x <= 100.0;
  }

  class PlayerControls {
    var progress: real
    var lastGraggedProgress: real
    var isSeeking: bool
    var isPlaying: bool
    var isFinishedPlaying: bool
    var showPlayerControls: bool
    var isRotated: bool
    var thumbanilFrames: seq<Image>
    var draggingImage: Option<Image>

    /** Both progress values are fractions of the video. */
    ghost predicate Valid()
      reads this
    {
      0.0 <= progress <= 1.0 && 0.0 <= lastGraggedProgress <= 1.0
    }

    constructor ()
      ensures Valid()
      ensures progress == 0.0 && lastGraggedProgress == 0.0
      ensures !isSeeking && !isPlaying && !isFinishedPlaying && !showPlayerControls && !isRotated
      ensures thumbanilFrames == [] && draggingImage == None
    {
      progress := 0.0;
      lastGraggedProgress := 0.0;
      isSeeking := false;
      isPlaying := false;
      isFinishedPlaying := false;
      showPlayerControls := false;
      isRotated := false;
      thumbanilFrames := [];
      draggingImage := None;
    }

    /** The seeker drag's `onChanged`: the progress follows the finger,
        seeking starts, and the thumbnail shown is the one at the progress if
        that frame has been generated. */
    method DragChanged(translationX: real, width: real)
      requires Valid() && width > 0.0
      modifies this
      ensures Valid()
      ensures progress == Clamp(translationX / width + lastGraggedProgress, 0.0, 1.0)
      ensures isSeeking
      ensures 0 <= ThumbnailIndex(progress) < |thumbanilFrames| ==>
        draggingImage == Some(thumbanilFrames[ThumbnailIndex(progress)])
      ensures !(0 <= ThumbnailIndex(progress) < |thumbanilFrames|) ==> draggingImage == old(draggingImage)
      ensures lastGraggedProgress == old(lastGraggedProgress) && thumbanilFrames == old(thumbanilFrames)
      ensures isPlaying == old(isPlaying) && isFinishedPlaying == old(isFinishedPlaying)
      ensures showPlayerControls == old(showPlayerControls) && isRotated == old(isRotated)
    {
      var calulatedProgress := (translationX / width) + lastGraggedProgress;
      progress := Max(Min(calulatedProgress, 1.0), 0.0);
      isSeeking := true;
      var dragIndex := Truncate(progress / 0.01);
      if 0 <= dragIndex < |thumbanilFrames| {
        draggingImage := Some(thumbanilFrames[dragIndex]);
      }
    }

    /** The seeker drag's `onEnded`: the progress is committed and seeking
        stops; leaving the end of the video clears the finished flag. */
    method DragEnded()
      requires Valid()
      modifies this
      ensures Valid()
      ensures lastGraggedProgress == progress == old(progress)
      ensures !isSeeking
      ensures isFinishedPlaying == (old(isFinishedPlaying) && progress == 1.0)
      ensures isPlaying == old(isPlaying) && showPlayerControls == old(showPlayerControls)
      ensures isRotated == old(isRotated) && draggingImage == old(draggingImage)
      ensures thumbanilFrames == old(thumbanilFrames)
    {
      lastGraggedProgress := progress;
      isSeeking := false;
      if progress != 1.0 {
        isFinishedPlaying := false;
      }
    }

    /** The periodic time observer, once a second. `calculatedProgress` is the
        player's current time over the item's duration. The progress follows
        the player only while the user is not seeking; reaching the end stops
        playback and shows the controls. */
    method Tick(calculatedProgress: real)
      requires Valid() && 0.0 <= calculatedProgress <= 1.0
      modifies this
      ensures Valid()
      ensures !old(isSeeking) ==> progress == calculatedProgress && lastGraggedProgress == calculatedProgress
      ensures old(isSeeking) ==> progress == old(progress) && lastGraggedProgress == old(lastGraggedProgress)
      ensures calculatedProgress == 1.0 ==> isFinishedPlaying && !isPlaying && showPlayerControls
      ensures calculatedProgress != 1.0 ==>
        isFinishedPlaying == old(isFinishedPlaying) && isPlaying == old(isPlaying) && showPlayerControls == old(showPlayerControls)
      ensures isSeeking == old(isSeeking) && isRotated == old(isRotated)
      ensures draggingImage == old(draggingImage) && thumbanilFrames == old(thumbanilFrames)
    {
      if !isSeeking {
        progress := calculatedProgress;
        lastGraggedProgress := progress;
      }
      if calculatedProgress == 1.0 {
        isFinishedPlaying := true;
        isPlaying := false;
        showPlayerControls := true;
      }
    }

    /** The play/pause button. On a finished video it first rewinds to the
        start; then playback toggles. */
    method PlayPressed()
      requires Valid()
      modifies this
      ensures Valid()
      ensures old(isFinishedPlaying) ==> progress == 0.0 && lastGraggedProgress == 0.0
      ensures !old(isFinishedPlaying) ==> progress == old(progress) && lastGraggedProgress == old(lastGraggedProgress)
      ensures !isFinishedPlaying
      ensures isPlaying == !old(isPlaying)
      ensures isSeeking == old(isSeeking) && showPlayerControls == old(showPlayerControls)
      ensures isRotated == old(isRotated) && draggingImage == old(draggingImage)
      ensures thumbanilFrames == old(thumbanilFrames)
    {
      if isFinishedPlaying {
        isFinishedPlaying := false;
        progress := 0.0;
        lastGraggedProgress := 0.0;
      }
      isPlaying := !isPlaying;
    }

    /** Tapping the video shows or hides the controls. */
    method VideoTapped()
      requires Valid()
      modifies this
      ensures Valid()
      ensures showPlayerControls == !old(showPlayerControls)
      ensures progress == old(progress) && lastGraggedProgress == old(lastGraggedProgress)
      ensures isSeeking == old(isSeeking) && isPlaying == old(isPlaying) && isFinishedPlaying == old(isFinishedPlaying)
      ensures isRotated == old(isRotated) && draggingImage == old(draggingImage)
      ensures thumbanilFrames == old(thumbanilFrames)
    {
      showPlayerControls := !showPlayerControls;
    }

    /** The pending `timeoutControls` task fires: the controls are hidden. */
    method ControlsTimedOut()
      requires Valid()
      modifies this`showPlayerControls
      ensures Valid()
      ensures !showPlayerControls
    {
      showPlayerControls := false;
    }

    /** The end of the drag on the player: dragging up more than 100 points
        rotates to landscape, anything else rotates back. */
    method RotateGestureEnded(translationHeight: real)
      requires Valid()
      modifies this
      ensures Valid()
      ensures isRotated <==> -translationHeight > 100.0
      ensures progress == old(progress) && lastGraggedProgress == old(lastGraggedProgress)
      ensures isSeeking == old(isSeeking) && isPlaying == old(isPlaying) && isFinishedPlaying == old(isFinishedPlaying)
      ensures showPlayerControls == old(showPlayerControls) && draggingImage == old(draggingImage)
      ensures thumbanilFrames == old(thumbanilFrames)
    {
      if -translationHeight > 100.0 {
        isRotated := true;
      } else {
        isRotated := false;
      }
    }

    /** A frame delivered by the thumbnail generator is appended. */
    method ThumbnailGenerated(image: Image)
      requires Valid()
      modifies this
      ensures Valid()
      ensures thumbanilFrames == old(thumbanilFrames) + [image]
      ensures progress == old(progress) && lastGraggedProgress == old(lastGraggedProgress)
      ensures isSeeking == old(isSeeking) && isPlaying == old(isPlaying) && isFinishedPlaying == old(isFinishedPlaying)
      ensures showPlayerControls == old(showPlayerControls) && isRotated == old(isRotated)
      ensures draggingImage == old(draggingImage)
    {
      thumbanilFrames := thumbanilFrames + [image];
    }
  }

  /** Playing to the end and pressing the button again restarts from zero;
      a tick during a drag does not move the seeker. */
  method RestartScenario() returns (restartProgress: real, playing: bool, finished: bool, heldProgress: real)
    ensures restartProgress == 0.0 && playing && !finished
    ensures heldProgress == 0.5
  {
    var c := new PlayerControls();
    c.PlayPressed();
    c.Tick(0.5);
    c.Tick(1.0);
    assert c.isFinishedPlaying && !c.isPlaying;
    c.PlayPressed();
    restartProgress, playing, finished := c.progress, c.isPlaying, c.isFinishedPlaying;
    c.DragChanged(100.0, 200.0);
    c.Tick(0.75);
    heldProgress := c.progress;
  }
}
