/**
 * The camera screen's capture session: which angle is selected, the shutter's
 * re-entrancy guard, what a finished camera call reports to the parent, and
 * the rule that moves the selection on to the next uncaptured angle.
 *
 * The captures map belongs to the parent; the screen only reads it and reports
 * new photos through the `onCapture` callback, modelled as an emitted event.
 */
module CameraCapture {
  import opened Wrappers
  import opened ArraySearch
  import opened CarAngles
  import opened CapturedImages

  /** `(a) => !capturedImages[a.id]`. */
  function Uncaptured(m: Captures): CarAngle -> bool {
    (a: CarAngle) => !Captured(m, a.id)
  }

  /** `(a) => !capturedImages[a.id] && a.id !== selectedAngle.id`. */
  function Eligible(m: Captures, current: CarAngle): CarAngle -> bool {
    (a: CarAngle) => !Captured(m, a.id) && a.id != current.id
  }

  /**
   * The angle selected when the screen mounts: the first catalog angle
   * without a truthy capture, or the first angle when all are captured.
   */
  function DefaultAngle(m: Captures): (r: CarAngle)
    ensures r in Catalog()
    ensures Captured(m, r.id) ==>
      r == Catalog()[0] && forall i :: 0 <= i < |Catalog()| ==> Captured(m, Catalog()[i].id)
  {
    Find(Catalog(), Uncaptured(m)).GetOr(Catalog()[0])
  }

  /** The default is the first uncaptured angle in catalog order. */
  lemma DefaultIsFirstUncaptured(m: Captures, k: int)
    requires 0 <= k < |Catalog()| && !Captured(m, Catalog()[k].id)
    requires forall j :: 0 <= j < k ==> Captured(m, Catalog()[j].id)
    ensures DefaultAngle(m) == Catalog()[k]
  {
    FindFirst(Catalog(), Uncaptured(m), k);
  }

  /** With every angle captured the default is the first angle of the catalog. */
  lemma DefaultWhenAllCaptured(m: Captures)
    requires forall i :: 0 <= i < |Catalog()| ==> Captured(m, Catalog()[i].id)
    ensures DefaultAngle(m) == Catalog()[0]
  {
  }

  /**
   * The auto-advance after a successful capture of `current`, computed over
   * the map as it was before the capture: the first eligible angle after the
   * current one's catalog position, otherwise the first eligible angle from
   * the start; `None` leaves the selection as it is. An angle is eligible when
   * it is uncaptured and is not the current angle.
   */
  function NextAfterCapture(current: CarAngle, m: Captures): (r: Option<CarAngle>)
    ensures r.Some? ==> r.value in Catalog() && !Captured(m, r.value.id) && r.value.id != current.id
    ensures r.None? <==>
      forall i :: 0 <= i < |Catalog()| ==> Captured(m, Catalog()[i].id) || Catalog()[i].id == current.id
  {
    var currentIndex := IndexOfId(current.id);
    FindAfterOrFromStart(Catalog(), currentIndex + 1, Eligible(m, current));
    var nextAngle := Find(Catalog()[currentIndex + 1..], Eligible(m, current));
    var nextFromStart := Find(Catalog(), Eligible(m, current));
    nextAngle.OrElse(nextFromStart)
  }

  /** An eligible angle after the current position: the advance picks the first such angle. */
  lemma AdvanceForward(current: CarAngle, m: Captures, k: int)
    requires IndexOfId(current.id) < k < |Catalog()|
    requires !Captured(m, Catalog()[k].id) && Catalog()[k].id != current.id
    requires forall j :: IndexOfId(current.id) < j < k ==>
      Captured(m, Catalog()[j].id) || Catalog()[j].id == current.id
    ensures NextAfterCapture(current, m) == Some(Catalog()[k])
  {
    var ci := IndexOfId(current.id);
    var rest := Catalog()[ci + 1..];
    assert forall j :: 0 <= j < |rest| ==> rest[j] == Catalog()[ci + 1 + j];
    FindFirst(rest, Eligible(m, current), k - ci - 1);
  }

  /**
   * No eligible angle after the current position: the advance wraps around
   * and picks the first eligible angle of the whole catalog.
   */
  lemma AdvanceWrap(current: CarAngle, m: Captures, k: int)
    requires forall j :: IndexOfId(current.id) < j < |Catalog()| ==>
      Captured(m, Catalog()[j].id) || Catalog()[j].id == current.id
    requires 0 <= k < |Catalog()| && !Captured(m, Catalog()[k].id) && Catalog()[k].id != current.id
    requires forall j :: 0 <= j < k ==> Captured(m, Catalog()[j].id) || Catalog()[j].id == current.id
    ensures NextAfterCapture(current, m) == Some(Catalog()[k])
  {
    var ci := IndexOfId(current.id);
    var rest := Catalog()[ci + 1..];
    assert forall j :: 0 <= j < |rest| ==> rest[j] == Catalog()[ci + 1 + j];
    assert Find(rest, Eligible(m, current)).None?;
    FindFirst(Catalog(), Eligible(m, current), k);
  }

  /**
   * The two scans together are one scan of the catalog in cyclic order,
   * starting just after the current angle and ending with it.
   */
  lemma AdvanceIsCyclicScan(current: CarAngle, m: Captures)
    ensures var ci := IndexOfId(current.id);
      NextAfterCapture(current, m) == Find(Catalog()[ci + 1..] + Catalog()[..ci + 1], Eligible(m, current))
  {
    var ci := IndexOfId(current.id);
    var p := Eligible(m, current);
    var pre, post := Catalog()[..ci + 1], Catalog()[ci + 1..];
    assert Catalog() == pre + post;
    FindAppend(pre, post, p);
    FindAppend(post, pre, p);
  }

  /**
   * The advance reads the map from before the capture, and that is harmless:
   * the current angle's own entry never changes what it picks, so the map with
   * the new photo recorded gives the same answer.
   */
  lemma AdvanceIgnoresCurrentEntry(current: CarAngle, m: Captures, uri: string)
    ensures NextAfterCapture(current, m) == NextAfterCapture(current, m[current.id := uri])
  {
    var m' := m[current.id := uri];
    var ci := IndexOfId(current.id);
    var p, q := Eligible(m, current), Eligible(m', current);
    assert forall a :: p(a) == q(a);
    FindAgree(Catalog()[ci + 1..], p, q);
    FindAgree(Catalog(), p, q);
  }

  /** The outcome of the camera call: it threw, it gave no uri, or it gave this uri. */
  datatype PhotoResult = Threw | NoUri | Uri(uri: string)

  /** `photo?.uri` is truthy. */
  predicate PhotoTaken(result: PhotoResult) {
    result.Uri? && result.uri != ""
  }

  /** What the screen does towards the outside: call `onCapture`, or raise an alert. */
  datatype Event = OnCapture(angleId: int, uri: string) | Alert(title: string, message: string)

  const CAPTURE_FAILED_TITLE: string := "Capture failed"
  const CAPTURE_FAILED_MESSAGE: string := "Unable to take photo. Please try again."

  /**
   * The events a finished camera call emits for a capture begun on `angle`:
   * `onCapture` once, with that angle's id and the uri, exactly when the uri
   * is truthy; an alert exactly when the call threw; nothing otherwise.
   */
  function CaptureEvents(angle: CarAngle, result: PhotoResult): (events: seq<Event>)
    ensures |events| <= 1
    ensures PhotoTaken(result) <==> result.Uri? && events == [OnCapture(angle.id, result.uri)]
    ensures result.Threw? <==> events == [Alert(CAPTURE_FAILED_TITLE, CAPTURE_FAILED_MESSAGE)]
    ensures events == [] <==> !PhotoTaken(result) && !result.Threw?
  {
    match result
    case Threw => [Alert(CAPTURE_FAILED_TITLE, CAPTURE_FAILED_MESSAGE)]
    case NoUri => []
    case Uri(u) => if u != "" then [OnCapture(angle.id, u)] else []
  }

  /** `isCapturing || allCaptured`: the shutter button is disabled. */
  predicate ShutterDisabled(isCapturing: bool, m: Captures) {
    isCapturing || AllCaptured(m)
  }

  /**
   * Over the parent's map, an idle shutter is disabled exactly when every
   * catalog angle is captured, whichever angle is selected: once all eleven
   * are in, no retake can be started from this screen.
   */
  lemma ShutterDisabledIffComplete(isCapturing: bool, m: Captures)
    requires CatalogKeyed(m)
    ensures ShutterDisabled(isCapturing, m) <==>
      isCapturing || forall i :: 0 <= i < |Catalog()| ==> Captured(m, Catalog()[i].id)
  {
    CountWithinCatalog(m);
  }

  /** The permission hook's state: not yet known, refused, or granted. */
  datatype Permission = PermissionUnknown | PermissionDenied | PermissionGranted

  /** The three screens the component renders. */
  datatype Screen = RequestingScreen | DeniedScreen | CameraScreen

  /** Which screen is rendered; only the camera screen mounts a camera. */
  function ScreenFor(p: Permission): (s: Screen)
    ensures s.CameraScreen? <==> p.PermissionGranted?
    ensures s.RequestingScreen? <==> p.PermissionUnknown?
  {
    match p
    case PermissionUnknown => RequestingScreen
    case PermissionDenied => DeniedScreen
    case PermissionGranted => CameraScreen
  }

  /** The mount-time effect asks for permission unless it is already granted. */
  function RequestsPermissionOnMount(p: Permission): (asks: bool)
    ensures asks <==> !ScreenFor(p).CameraScreen?
  {
    !p.PermissionGranted?
  }

  /**
   * The screen's own state. `captureAngle` and `captureImages` are what the
   * pending `handleCapture` call closed over when it began: the selection and
   * the parent's map at the moment of the press.
   */
  class CaptureController {
    var selectedAngle: CarAngle
    var isCapturing: bool
    var captureAngle: CarAngle
    var captureImages: Captures

    /** The selection and the remembered selection are catalog angles. */
    predicate Valid()
      reads this
    {
      selectedAngle in Catalog() && captureAngle in Catalog()
    }

    /** Mounting: the default angle is selected and no capture is in flight. */
    constructor (capturedImages: Captures)
      ensures Valid()
      ensures selectedAngle == DefaultAngle(capturedImages) && !isCapturing
    {
      selectedAngle := DefaultAngle(capturedImages);
      isCapturing := false;
      captureAngle := DefaultAngle(capturedImages);
      captureImages := capturedImages;
    }

    /** `handleSelectAngle`: the selection becomes `angle`, captured or not. */
    method SelectAngle(angle: CarAngle)
      requires Valid() && angle in Catalog()
      modifies this`selectedAngle
      ensures Valid()
      ensures selectedAngle == angle
    {
      selectedAngle := angle;
    }

    /**
     * `handleCapture` up to the camera call: nothing happens without a
     * camera or while a capture is in flight; otherwise the guard is raised
     * and the selection and map are remembered for the rest of the call.
     */
    method BeginCapture(hasCamera: bool, capturedImages: Captures) returns (started: bool)
      requires Valid()
      modifies this`isCapturing, this`captureAngle, this`captureImages
      ensures Valid()
      ensures started == (hasCamera && !old(isCapturing))
      ensures started ==> isCapturing && captureAngle == selectedAngle && captureImages == capturedImages
      ensures !started ==> isCapturing == old(isCapturing) && captureAngle == old(captureAngle)
                           && captureImages == old(captureImages)
    {
      if !hasCamera || isCapturing {
        return false;
      }
      isCapturing := true;
      captureAngle := selectedAngle;
      captureImages := capturedImages;
      started := true;
    }

    /** A press on the shutter: ignored while the button is disabled, else `handleCapture`. */
    method PressShutter(hasCamera: bool, capturedImages: Captures) returns (started: bool)
      requires Valid()
      modifies this`isCapturing, this`captureAngle, this`captureImages
      ensures Valid()
      ensures started == (hasCamera && !ShutterDisabled(old(isCapturing), capturedImages))
      ensures started ==> isCapturing && captureAngle == selectedAngle && captureImages == capturedImages
      ensures !started ==> isCapturing == old(isCapturing) && captureAngle == old(captureAngle)
                           && captureImages == old(captureImages)
    {
      if ShutterDisabled(isCapturing, capturedImages) {
        return false;
      }
      started := BeginCapture(hasCamera, capturedImages);
    }

    /**
     * `handleCapture` after the camera call: the events of `CaptureEvents`
     * for the angle the capture began on; on a truthy uri the selection
     * moves to `NextAfterCapture` over the remembered map, if it names an
     * angle; every outcome lowers the guard.
     */
    method CompleteCapture(result: PhotoResult) returns (events: seq<Event>)
      requires Valid() && isCapturing
      modifies this`selectedAngle, this`isCapturing
      ensures Valid()
      ensures !isCapturing
      ensures events == CaptureEvents(captureAngle, result)
      ensures selectedAngle ==
        if PhotoTaken(result) then NextAfterCapture(captureAngle, captureImages).GetOr(old(selectedAngle))
        else old(selectedAngle)
    {
      events := CaptureEvents(captureAngle, result);
      if PhotoTaken(result) {
        var next := NextAfterCapture(captureAngle, captureImages);
        if next.Some? {
          selectedAngle := next.value;
        }
      }
      isCapturing := false;
    }
  }

  /** The captures map with the angles whose ids are at most `last` taken. */
  function CapturedUpTo(last: int): (m: Captures)
    ensures m.Keys == CatalogIds()
    ensures forall id :: Captured(m, id) <==> 1 <= id <= last && id <= REQUIRED_ANGLES
  {
    CatalogIdsSize();
    map id | id in CatalogIds() :: if id <= last then "photo" else ""
  }

  /**
   * A fresh session (nothing captured, as after `initCapturedImages`)
   * selects angle 1, and capturing it advances to angle 2.
   */
  lemma FreshSessionAdvance(m: Captures)
    requires forall id :: !Captured(m, id)
    ensures DefaultAngle(m) == Catalog()[0] && Catalog()[0].id == 1
    ensures NextAfterCapture(Catalog()[0], m) == Some(Catalog()[1]) && Catalog()[1].id == 2
  {
    CatalogLayout();
    DefaultIsFirstUncaptured(m, 0);
    AdvanceForward(Catalog()[0], m, 1);
  }

  /**
   * The home screen's starting map is such a fresh session: the camera
   * opens on Front and the first photo advances to Front Left.
   */
  lemma HomeScreenSessionAdvance()
    ensures DefaultAngle(InitialCaptures()) == Catalog()[0] && Catalog()[0].labelText == "Front"
    ensures NextAfterCapture(Catalog()[0], InitialCaptures()) == Some(Catalog()[1])
    ensures Catalog()[1].labelText == "Front Left"
  {
    FreshSessionAdvance(InitialCaptures());
  }

  /**
   * On a fresh session the screen selects Front; photographing it reports
   * angle 1 to the parent and moves the selection to angle 2.
   */
  method FirstCaptureScenario(images: Captures) returns (started: bool, events: seq<Event>, selected: CarAngle)
    requires forall id :: !Captured(images, id)
    ensures started && events == [OnCapture(1, "photo-1")] && selected.id == 2
  {
    FreshSessionAdvance(images);
    var c := new CaptureController(images);
    started := c.PressShutter(true, images);
    events := c.CompleteCapture(Uri("photo-1"));
    selected := c.selectedAngle;
  }

  /** With angles 1 to 10 captured and angle 10 selected, the advance goes to 11. */
  lemma LastRemainingScenario()
    ensures NextAfterCapture(Catalog()[9], CapturedUpTo(10)) == Some(Catalog()[10])
  {
    CatalogLayout();
    var m := CapturedUpTo(10);
    assert !Captured(m, 11);
    AdvanceForward(Catalog()[9], m, 10);
  }

  /**
   * With all eleven captured and angle 11 selected, the advance leaves the
   * selection alone and the shutter is disabled.
   */
  lemma CompleteSessionScenario()
    ensures NextAfterCapture(Catalog()[10], CapturedUpTo(11)).None?
    ensures AllCaptured(CapturedUpTo(11)) && ShutterDisabled(false, CapturedUpTo(11))
  {
    var m := CapturedUpTo(11);
    CatalogLayout();
    assert forall i :: 0 <= i < |Catalog()| ==> Captured(m, Catalog()[i].id);
    ShutterDisabledIffComplete(false, m);
  }
}
