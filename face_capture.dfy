/** The enrolment capture widget (face-capture.tsx): it counts successful
    frame grabs and hands the images over once three have been taken.
    `handleCapture` waits a second between checking the camera and grabbing
    the frame, and what it then writes was computed from the count and the
    images as they were when it started; the model splits it into
    `BeginCapture` and `FinishCapture` and keeps those starting values in
    `closureCount` and `closureImages`. */
module FaceCapture {
  import opened Domain

  /** `requiredCaptures`. */
  const RequiredCaptures: nat := 3

  /** The face data handed to `onFaceCaptured` (its `Date.now()` timestamp is
      not modelled). */
  datatype FaceBundle = FaceBundle(images: seq<string>, captureCount: nat)

  /** The count and the images taken so far. */
  datatype Progress = Progress(count: nat, images: seq<string>)
  {
    predicate Consistent() { count == |images| }
  }

  /** What one frame grab does to the progress: a grabbed image is appended
      and counted, a failed grab (`null`) changes nothing. */
  function AfterFrame(p: Progress, frame: Option<string>): (r: Progress)
    ensures frame.None? ==> r == p
    ensures frame.Some? ==> r.count == p.count + 1 && r.images == p.images + [frame.value]
    ensures p.Consistent() ==> r.Consistent()
  {
    match frame
    case None => p
    case Some(image) => Progress(p.count + 1, p.images + [image])
  }

  /** The bundle a frame grab hands over: one exactly when an image was
      grabbed and it brings the count to `RequiredCaptures` or beyond. */
  function Completion(p: Progress, frame: Option<string>): (r: Option<FaceBundle>)
    ensures r.Some? <==> frame.Some? && p.count + 1 >= RequiredCaptures
    ensures r.Some? ==> r.value == FaceBundle(AfterFrame(p, frame).images, RequiredCaptures)
  {
    if frame.Some? && p.count + 1 >= RequiredCaptures then
      Some(FaceBundle(AfterFrame(p, frame).images, RequiredCaptures))
    else
      None
  }

  /** The images among a run of frame grabs, in grab order. */
  function Grabbed(frames: seq<Option<string>>): (r: seq<string>)
    ensures |r| <= |frames|
  {
    if |frames| == 0 then []
    else (if frames[0].Some? then [frames[0].value] else []) + Grabbed(frames[1..])
  }

  lemma {:induction false} GrabbedConcat(a: seq<Option<string>>, b: seq<Option<string>>)
    ensures Grabbed(a + b) == Grabbed(a) + Grabbed(b)
  {
    if |a| > 0 {
      assert (a + b)[0] == a[0] && (a + b)[1..] == a[1..] + b;
      GrabbedConcat(a[1..], b);
    } else {
      assert a + b == b;
    }
  }

  /** A run of frame grabs with no reset in between, one after the other. */
  function Replay(p: Progress, frames: seq<Option<string>>): (r: Progress)
    ensures r.count >= p.count && |r.images| >= |p.images| && r.images[..|p.images|] == p.images
    ensures p.Consistent() ==> r.Consistent()
    decreases |frames|
  {
    if |frames| == 0 then p
    else
      var q := AfterFrame(p, frames[0]);
      var r := Replay(q, frames[1..]);
      assert r.images[..|p.images|] == r.images[..|q.images|][..|p.images|];
      r
  }

  /** A run of grabs appends exactly the grabbed images, in order, and counts
      them, so the count keeps equalling the number of images. */
  lemma {:induction false} ReplayAppendsGrabbed(p: Progress, frames: seq<Option<string>>)
    ensures Replay(p, frames) == Progress(p.count + |Grabbed(frames)|, p.images + Grabbed(frames))
    decreases |frames|
  {
    if |frames| > 0 {
      var q := AfterFrame(p, frames[0]);
      ReplayAppendsGrabbed(q, frames[1..]);
      var head := if frames[0].Some? then [frames[0].value] else [];
      assert q.images == p.images + head;
      assert p.images + head + Grabbed(frames[1..]) == p.images + (head + Grabbed(frames[1..]));
    }
  }

  /** Starting from nothing, the `i`-th grab of a run completes enrolment
      exactly when it grabs an image and at least `RequiredCaptures - 1`
      images were grabbed before it, and it hands over every image grabbed up
      to and including it. */
  lemma CompletesWhenCountReachesThree(frames: seq<Option<string>>, i: nat)
    requires i < |frames|
    ensures var before := Replay(Progress(0, []), frames[..i]);
      var done := Completion(before, frames[i]);
      && (done.Some? <==> frames[i].Some? && |Grabbed(frames[..i])| >= RequiredCaptures - 1)
      && (done.Some? ==> done.value.images == Grabbed(frames[..i + 1]) && done.value.captureCount == 3)
  {
    ReplayAppendsGrabbed(Progress(0, []), frames[..i]);
    assert frames[..i + 1] == frames[..i] + [frames[i]];
    GrabbedConcat(frames[..i], [frames[i]]);
    assert [] + Grabbed(frames[..i]) == Grabbed(frames[..i]);
  }

  /** The capture button is offered while fewer than `RequiredCaptures`
      images are taken ... */
  predicate CaptureOffered(count: nat) { count < RequiredCaptures }

  /** ... and the reset button once something is taken and enrolment is not
      complete. */
  predicate ResetOffered(count: nat) { 0 < count < RequiredCaptures }

  /** The grab that hands the bundle over withdraws both buttons; any grab
      that does not leaves the capture button offered. */
  lemma CompletionWithdrawsButtons(p: Progress, frame: Option<string>)
    requires p.count < RequiredCaptures
    ensures Completion(p, frame).Some? ==>
      !CaptureOffered(AfterFrame(p, frame).count) && !ResetOffered(AfterFrame(p, frame).count)
    ensures frame.Some? && Completion(p, frame).None? ==> CaptureOffered(AfterFrame(p, frame).count)
    ensures frame.Some? ==> ResetOffered(AfterFrame(p, frame).count) <==> Completion(p, frame).None?
  {
  }

  const CameraErrorText: string := "Unable to access camera. Please ensure camera permissions are granted."

  class Widget {
    var isCameraActive: bool
    var isCapturing: bool
    var cameraError: Option<string>
    var capturedImage: Option<string>
    var captureCount: nat
    var capturedImages: seq<string>
    /** The count and images the pending capture started from. */
    var closureCount: nat
    var closureImages: seq<string>
    /** The bundles handed to `onFaceCaptured`, in order. */
    var delivered: seq<FaceBundle>

    /** The count always equals the number of images, for the widget and for
        what a pending capture started from. */
    predicate Valid()
      reads this
    {
      Progress(captureCount, capturedImages).Consistent() && Progress(closureCount, closureImages).Consistent()
    }

    /** Whether the capture button is rendered. */
    predicate CaptureButtonShown()
      reads this
      ensures Valid() ==> (CaptureButtonShown() <==> |capturedImages| < RequiredCaptures)
    {
      CaptureOffered(captureCount)
    }

    /** The capture button can be pressed while the camera runs and no
        capture is pending. */
    predicate CaptureButtonEnabled()
      reads this
    {
      isCameraActive && !isCapturing
    }

    /** Whether the reset button is rendered; never without the capture
        button. */
    predicate ResetButtonShown()
      reads this
      ensures ResetButtonShown() ==> CaptureButtonShown()
    {
      ResetOffered(captureCount)
    }

    constructor ()
      ensures Valid()
      ensures !isCameraActive && !isCapturing && cameraError == None && capturedImage == None
      ensures captureCount == 0 && capturedImages == [] && delivered == []
    {
      isCameraActive := false;
      isCapturing := false;
      cameraError := None;
      capturedImage := None;
      captureCount := 0;
      capturedImages := [];
      closureCount := 0;
      closureImages := [];
      delivered := [];
    }

    /** `startCamera` once the permission prompt is answered. */
    method CameraStarted(granted: bool)
      modifies this`isCameraActive, this`cameraError
      ensures granted ==> isCameraActive && cameraError == None
      ensures !granted ==> isCameraActive == old(isCameraActive) && cameraError == Some(CameraErrorText)
    {
      cameraError := None;
      if granted {
        isCameraActive := true;
      } else {
        cameraError := Some(CameraErrorText);
      }
    }

    /** The first half of `handleCapture`, up to the one-second wait: nothing
        at all without a running camera; otherwise the capture is pending and
        remembers the count and images it started from. The button that runs
        it is disabled while a capture is pending. */
    method BeginCapture()
      requires Valid() && !isCapturing
      modifies this`isCapturing, this`closureCount, this`closureImages
      ensures Valid()
      ensures !old(isCameraActive) ==> !isCapturing && closureCount == old(closureCount) && closureImages == old(closureImages)
      ensures old(isCameraActive) ==> isCapturing && closureCount == captureCount && closureImages == capturedImages
      ensures !CaptureButtonEnabled()
    {
      if !isCameraActive {
        return;
      }
      isCapturing := true;
      closureCount := captureCount;
      closureImages := capturedImages;
    }

    /** The second half: the frame grab (`None` when it fails), the update
        computed from the remembered count and images, the hand-over on
        completion, and in every case the end of the pending capture. */
    method FinishCapture(frame: Option<string>)
      requires Valid() && isCapturing
      modifies this
      ensures Valid() && !isCapturing
      ensures frame.Some? ==>
        Progress(captureCount, capturedImages) == AfterFrame(Progress(old(closureCount), old(closureImages)), frame)
        && capturedImage == frame
      ensures frame.None? ==>
        captureCount == old(captureCount) && capturedImages == old(capturedImages) && capturedImage == old(capturedImage)
      ensures delivered == old(delivered) +
        match Completion(Progress(old(closureCount), old(closureImages)), frame)
        case None => []
        case Some(b) => [b]
      ensures isCameraActive == old(isCameraActive) && cameraError == old(cameraError)
      ensures CaptureButtonEnabled() == isCameraActive
      ensures frame.Some? && old(closureCount) < RequiredCaptures ==>
        (|delivered| > |old(delivered)| <==> !CaptureButtonShown() && !ResetButtonShown())
    {
      var started := Progress(closureCount, closureImages);
      if frame.Some? {
        var next := AfterFrame(started, frame);
        capturedImages := next.images;
        captureCount := next.count;
        capturedImage := frame;
        var done := Completion(started, frame);
        if done.Some? {
          delivered := delivered + [done.value];
        }
      }
      isCapturing := false;
    }

    /** `resetCapture`. */
    method ResetCapture()
      requires Valid()
      modifies this`captureCount, this`capturedImages, this`capturedImage
      ensures Valid()
      ensures captureCount == 0 && capturedImages == [] && capturedImage == None
    {
      capturedImages := [];
      captureCount := 0;
      capturedImage := None;
    }
  }

  /** Three successful captures in a row: nothing is handed over after the
      first two, and after the third exactly one bundle with the three images
      in capture order; the capture and reset buttons are then withdrawn. */
  method ThreeCapturesComplete(a: string, b: string, c: string)
  {
    var w := new Widget();
    w.CameraStarted(true);
    w.BeginCapture();
    w.FinishCapture(Some(a));
    assert w.capturedImages == [a] && w.delivered == [];
    assert w.ResetButtonShown();
    w.BeginCapture();
    w.FinishCapture(None);
    assert w.capturedImages == [a] && w.delivered == [];
    w.BeginCapture();
    w.FinishCapture(Some(b));
    assert w.capturedImages == [a, b] && w.delivered == [];
    w.BeginCapture();
    w.FinishCapture(Some(c));
    assert w.capturedImages == [a, b, c];
    assert w.delivered == [FaceBundle([a, b, c], 3)];
    assert !w.CaptureButtonShown() && !w.ResetButtonShown();
  }

  /** A reset pressed while a capture is pending is undone when the capture
      finishes: the update is computed from the images the capture started
      from. */
  method ResetDuringCaptureIsOverwritten(a: string, b: string)
  {
    var w := new Widget();
    w.CameraStarted(true);
    w.BeginCapture();
    w.FinishCapture(Some(a));
    w.BeginCapture();
    w.ResetCapture();
    assert w.captureCount == 0 && w.capturedImages == [];
    w.FinishCapture(Some(b));
    assert w.captureCount == 2 && w.capturedImages == [a, b];
  }
}
