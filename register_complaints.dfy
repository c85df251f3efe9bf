/**
 * The four-step complaint wizard: step navigation gated by per-step
 * validation, edits that clear their own error flag, the camera session and
 * the photo queue capped at three, and the mock GPS lock of the location step.
 */
module RegisterComplaints {
  import opened ComplaintForm

  const TotalSteps := 4
  const MaxPhotos := 3

  /** A captured frame, kept as its opaque data URL. */
  datatype Image = Image(dataUrl: string)

  /** What `startCamera` reports: the limit notice, the permission notice, or an open session. */
  datatype CameraOutcome = LimitReached | Unavailable | Opened

  /** The values the mock GPS lock writes into the draft. */
  const MockWard := "Ward 12"
  const MockLandmark := "Opposite Metro Station"
  const MockAddress := "45/A, Tech Park Avenue"

  /**
   * The fields whose inputs are rendered at `step`, each wired to
   * `handleInputChange`: none at the photo and review steps.
   */
  function Shown(step: int): set<Field> {
    if step == 2 then {Ward, Landmark, Address}
    else if step == 3 then {Category, Description, Notes}
    else {}
  }

  /**
   * The fields `validateStep` requires at `step`: none at steps 1 and 4.
   * Each of them has its input on that step's page.
   */
  function Required(step: int): (r: set<Field>)
    ensures r <= Shown(step)
  {
    if step == 2 then {Ward, Address}
    else if step == 3 then {Category, Description}
    else {}
  }

  /** The required fields of `step` that the draft leaves blank. */
  function Missing(step: int, form: FormData): set<Field> {
    set f | f in Required(step) && form.Get(f) == ""
  }

  /** The error map a failed validation installs: one raised flag per blank required field. */
  function StepErrors(step: int, form: FormData): Errors {
    map f | f in Missing(step, form) :: true
  }

  /** A map whose keys are the blank required fields, each raised, is the failed-validation map. */
  lemma StepErrorsUnique(step: int, form: FormData, m: Errors)
    requires forall f :: f in m <==> f in Required(step) && form.Get(f) == ""
    requires forall f :: f in m ==> m[f]
    ensures m == StepErrors(step, form)
  {
  }

  /** A step passes validation exactly when every field it requires is filled in. */
  lemma PassesIffFilled(step: int, form: FormData)
    ensures Missing(step, form) == {} <==> forall f :: f in Required(step) ==> form.Get(f) != ""
  {
    if Missing(step, form) == {} {
      forall f | f in Required(step) ensures form.Get(f) != "" {
        assert f !in Missing(step, form);
      }
    } else {
      var f :| f in Missing(step, form);
      assert f in Required(step) && form.Get(f) == "";
    }
  }

  /**
   * `previews.filter((_, index) => index !== i)`: keep every element whose
   * position differs from `i`.
   */
  function DropIndex<T>(s: seq<T>, i: int): (r: seq<T>)
    ensures |r| == if 0 <= i < |s| then |s| - 1 else |s|
    decreases |s|
  {
    if s == [] then []
    else (if i == 0 then [] else [s[0]]) + DropIndex(s[1..], i - 1)
  }

  /**
   * Removing by position deletes exactly the element at `i` and keeps the
   * others in order; a position outside the list removes nothing.
   */
  lemma {:induction false} DropIndexSplices<T>(s: seq<T>, i: int)
    ensures DropIndex(s, i) == if 0 <= i < |s| then s[..i] + s[i + 1..] else s
    decreases |s|
  {
    if s != [] {
      DropIndexSplices(s[1..], i - 1);
      if i == 0 {
        assert DropIndex(s, i) == s[1..];
      } else if 0 < i < |s| {
        assert DropIndex(s, i) == [s[0]] + (s[1..][..i - 1] + s[1..][i..]);
        assert [s[0]] + (s[1..][..i - 1] + s[1..][i..]) == s[..i] + s[i + 1..] by {
          assert s[1..][..i - 1] == s[1..i];
          assert s[1..][i..] == s[i + 1..];
          assert [s[0]] + s[1..i] == s[..i];
        }
      } else {
        assert DropIndex(s, i) == [s[0]] + s[1..];
        assert [s[0]] + s[1..] == s;
      }
    }
  }

  /** The state of the `RegisterComplaints` page component. */
  class Wizard {
    var step: int
    var formData: FormData
    var errors: Errors
    /** The captured photos, in capture order. */
    var previews: seq<Image>
    var isCameraOpen: bool
    /** `streamRef.current` is a live camera stream. */
    var hasStream: bool
    var isDetectingGPS: bool
    var gpsLocked: bool
    /** Mock GPS timers started by `handleGPS` that have not fired yet. */
    var pendingGpsFixes: nat
    var isSubmitted: bool

    /**
     * The step stays within 1..4, the queue holds at most three photos, and
     * while the camera is open there is room for the photo it will take.
     */
    ghost predicate Valid()
      reads this
    {
      Bounded() && (isCameraOpen ==> |previews| < MaxPhotos)
    }

    /**
     * The part of `Valid` that also holds between the two halves of a
     * capture: the step and queue bounds, and the gate — every step behind
     * the current one has its required fields filled in.
     */
    ghost predicate Bounded()
      reads this
    {
      && 1 <= step <= TotalSteps && |previews| <= MaxPhotos
      && (step > 2 ==> Missing(2, formData) == {})
      && (step > 3 ==> Missing(3, formData) == {})
    }

    /** A freshly mounted wizard. */
    constructor ()
      ensures Valid()
      ensures step == 1 && formData == EmptyForm && errors == map[] && previews == []
      ensures !isCameraOpen && !hasStream && !isDetectingGPS && !gpsLocked
      ensures pendingGpsFixes == 0 && !isSubmitted
    {
      step := 1;
      formData := EmptyForm;
      errors := map[];
      previews := [];
      isCameraOpen := false;
      hasStream := false;
      isDetectingGPS := false;
      gpsLocked := false;
      pendingGpsFixes := 0;
      isSubmitted := false;
    }

    /**
     * `handleInputChange`: write one field and, if its flag was raised, reset
     * that flag to null; no validation happens here. Only the inputs of the
     * current step are on the page.
     */
    method HandleInputChange(name: Field, value: string)
      requires Valid()
      requires name in Shown(step)
      modifies this`formData, this`errors
      ensures Valid()
      ensures formData.Get(name) == value
      ensures forall other :: other != name ==> formData.Get(other) == old(formData.Get(other))
      ensures Flagged(old(errors), name) ==> errors == old(errors)[name := false]
      ensures !Flagged(old(errors), name) ==> errors == old(errors)
      ensures !Flagged(errors, name)
    {
      formData := formData.With(name, value);
      if Flagged(errors, name) {
        errors := errors[name := false];
      }
    }

    /**
     * `startCamera`, with the device's answer as `deviceGranted`: refuse at
     * three photos, otherwise open a session, or close it again when the
     * device refuses.
     */
    method StartCamera(deviceGranted: bool) returns (outcome: CameraOutcome)
      requires Valid()
      modifies this`isCameraOpen, this`hasStream
      ensures Valid()
      ensures |previews| >= MaxPhotos ==>
        outcome == LimitReached && isCameraOpen == old(isCameraOpen) && hasStream == old(hasStream)
      ensures |previews| < MaxPhotos && deviceGranted ==>
        outcome == Opened && isCameraOpen && hasStream
      ensures |previews| < MaxPhotos && !deviceGranted ==>
        outcome == Unavailable && !isCameraOpen && hasStream == old(hasStream)
    {
      if |previews| >= MaxPhotos {
        return LimitReached;
      }
      isCameraOpen := true;
      if deviceGranted {
        hasStream := true;
        outcome := Opened;
      } else {
        isCameraOpen := false;
        outcome := Unavailable;
      }
    }

    /** `stopCamera`: release the stream, if any, and close the overlay. */
    method StopCamera()
      requires Bounded()
      modifies this`isCameraOpen, this`hasStream
      ensures Valid()
      ensures !hasStream && !isCameraOpen
    {
      if hasStream {
        hasStream := false;
      }
      isCameraOpen := false;
    }

    /**
     * `capturePhoto`: without a video element nothing happens; otherwise the
     * frame `shot` is appended and the camera is stopped. The video element
     * is mounted exactly while the camera overlay is shown, so the camera
     * is closed after every capture.
     */
    method CapturePhoto(videoReady: bool, shot: Image)
      requires Valid()
      requires videoReady == isCameraOpen
      modifies this`previews, this`isCameraOpen, this`hasStream
      ensures Valid()
      ensures !isCameraOpen
      ensures !videoReady ==>
        previews == old(previews) && isCameraOpen == old(isCameraOpen) && hasStream == old(hasStream)
      ensures videoReady ==> previews == old(previews) + [shot] && !isCameraOpen && !hasStream
    {
      if !videoReady {
        return;
      }
      previews := previews + [shot];
      StopCamera();
    }

    /** `removePhoto`: drop the photo at `index`; any other index leaves the queue as it is. */
    method RemovePhoto(index: int)
      requires Valid()
      modifies this`previews
      ensures Valid()
      ensures 0 <= index < |old(previews)| ==> previews == old(previews)[..index] + old(previews)[index + 1..]
      ensures !(0 <= index < |old(previews)|) ==> previews == old(previews)
    {
      DropIndexSplices(previews, index);
      previews := DropIndex(previews, index);
    }

    /** `handleGPS`: show the spinner and start a mock timer. */
    method HandleGPS()
      requires Valid()
      modifies this`isDetectingGPS, this`pendingGpsFixes
      ensures Valid()
      ensures isDetectingGPS && pendingGpsFixes == old(pendingGpsFixes) + 1
    {
      isDetectingGPS := true;
      pendingGpsFixes := pendingGpsFixes + 1;
    }

    /**
     * The mock GPS timer fires: the fixed ward, landmark and address are
     * written, the lock is shown, and only the address flag is reset.
     */
    method GpsFixArrived()
      requires Valid()
      requires pendingGpsFixes > 0
      modifies this`formData, this`errors, this`isDetectingGPS, this`gpsLocked, this`pendingGpsFixes
      ensures Valid()
      ensures formData == old(formData).(address := MockAddress, landmark := MockLandmark, ward := MockWard)
      ensures errors == old(errors)[Address := false]
      ensures !isDetectingGPS && gpsLocked && pendingGpsFixes == old(pendingGpsFixes) - 1
    {
      formData := formData.(address := MockAddress, landmark := MockLandmark, ward := MockWard);
      isDetectingGPS := false;
      gpsLocked := true;
      errors := errors[Address := false];
      pendingGpsFixes := pendingGpsFixes - 1;
    }

    /**
     * `validateStep`: collect a flag for every blank required field; if any,
     * they replace `errors` wholesale and the step fails; otherwise `errors`
     * is left alone.
     */
    method ValidateStep(currentStep: int) returns (isValid: bool)
      requires Valid()
      modifies this`errors
      ensures Valid()
      ensures isValid <==> forall f :: f in Required(currentStep) ==> formData.Get(f) != ""
      ensures isValid ==> errors == old(errors)
      ensures !isValid ==> errors == StepErrors(currentStep, formData)
      ensures !isValid ==> errors.Keys == Missing(currentStep, formData) && forall f :: f in errors ==> errors[f]
    {
      var newErrors: Errors := map[];
      isValid := true;
      if currentStep == 2 {
        if formData.ward == "" { newErrors := newErrors[Ward := true]; }
        if formData.address == "" { newErrors := newErrors[Address := true]; }
      }
      if currentStep == 3 {
        if formData.category == "" { newErrors := newErrors[Category := true]; }
        if formData.description == "" { newErrors := newErrors[Description := true]; }
      }
      StepErrorsUnique(currentStep, formData, newErrors);
      PassesIffFilled(currentStep, formData);
      if |newErrors| > 0 {
        errors := newErrors;
        isValid := false;
      }
    }

    /**
     * `handleNext`: below the last step, advance only when validation passes
     * (a blocked attempt installs the same error map however often it is
     * repeated); at the last step, submit without validating.
     */
    method HandleNext()
      requires Valid()
      modifies this`step, this`errors, this`isSubmitted
      ensures Valid()
      ensures old(step) < TotalSteps && Missing(old(step), formData) == {} ==>
        step == old(step) + 1 && errors == old(errors) && isSubmitted == old(isSubmitted)
      ensures old(step) < TotalSteps && Missing(old(step), formData) != {} ==>
        step == old(step) && errors == StepErrors(old(step), formData) && isSubmitted == old(isSubmitted)
      ensures old(step) == TotalSteps ==> step == old(step) && errors == old(errors) && isSubmitted
      ensures isSubmitted && !old(isSubmitted) ==> Missing(2, formData) == {} && Missing(3, formData) == {}
    {
      if step < TotalSteps {
        var ok := ValidateStep(step);
        PassesIffFilled(step, formData);
        if ok {
          step := step + 1;
        }
      } else {
        isSubmitted := true;
      }
    }

    /** `handleBack`: step back unless already at step 1; errors and draft are untouched. */
    method HandleBack()
      requires Valid()
      modifies this`step
      ensures Valid()
      ensures step == if old(step) > 1 then old(step) - 1 else old(step)
    {
      if step > 1 {
        step := step - 1;
      }
    }
  }

  /**
   * One photo at step 1, the location filled in at step 2 and the details at
   * step 3: advancing four times from step 1 ends submitted.
   */
  method SubmitFilledDraft() returns (submitted: bool, finalStep: int, photos: seq<Image>)
    ensures submitted && finalStep == TotalSteps
    ensures photos == [Image("img1")]
  {
    var w := new Wizard();
    var camera := w.StartCamera(true);
    assert camera == Opened;
    w.CapturePhoto(true, Image("img1"));
    assert Missing(1, w.formData) == {};
    w.HandleNext();
    w.HandleInputChange(Ward, "Ward 12");
    w.HandleInputChange(Address, "12 Main St");
    assert Missing(2, w.formData) == {};
    w.HandleNext();
    w.HandleInputChange(Category, "Sanitation");
    w.HandleInputChange(Description, "Garbage overflowing near the gate");
    assert Missing(3, w.formData) == {};
    w.HandleNext();
    w.HandleNext();
    submitted, finalStep, photos := w.isSubmitted, w.step, w.previews;
  }

  /**
   * Step 2 with a blank ward is blocked with only the ward flag raised, a
   * second attempt installs the same map, and typing a ward resets the flag.
   */
  method BlockedAtLocation() returns (finalStep: int, first: Errors, second: Errors, afterEdit: Errors)
    ensures finalStep == 2
    ensures first == map[Ward := true] && second == first
    ensures afterEdit == map[Ward := false]
  {
    var w := new Wizard();
    w.HandleNext();
    w.HandleInputChange(Address, "12 Main St");
    assert Missing(2, w.formData) == {Ward};
    w.HandleNext();
    first := w.errors;
    w.HandleNext();
    second := w.errors;
    finalStep := w.step;
    w.HandleInputChange(Ward, "Ward 12");
    afterEdit := w.errors;
  }

  /**
   * Three capture cycles fill the queue; a fourth `startCamera` is refused and
   * leaves the camera closed; removing one photo makes room again.
   */
  method PhotoLimit() returns (refused: CameraOutcome, openAfterRefusal: bool, reopened: CameraOutcome, photos: nat)
    ensures refused == LimitReached && !openAfterRefusal
    ensures reopened == Opened && photos == 2
  {
    var w := new Wizard();
    var i := 0;
    while i < MaxPhotos
      invariant 0 <= i <= MaxPhotos
      invariant w.Valid() && |w.previews| == i && !w.isCameraOpen
    {
      var outcome := w.StartCamera(true);
      assert outcome == Opened;
      w.CapturePhoto(true, Image("frame"));
      i := i + 1;
    }
    refused := w.StartCamera(true);
    openAfterRefusal := w.isCameraOpen;
    w.RemovePhoto(0);
    reopened := w.StartCamera(true);
    photos := |w.previews|;
  }
}
