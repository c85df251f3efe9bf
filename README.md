# CIVIRA complaint wizard — a Dafny model

CIVIRA is a citizen-facing web app for reporting civic issues. This project
models the logic of its three stateful React views:

- **The complaint wizard** (`RegisterComplaints`): four linear steps (photo,
  location, details, review). It has per-step validation that gates moving
  forward, edits that clear their own error flag, a camera session, a photo
  queue capped at three, and a mock GPS lock. It is modelled as the class
  `RegisterComplaints.Wizard`. Each event handler is a method with a
  `modifies` frame. `Valid()` keeps the step in 1..4 and the queue within
  three. It also keeps the gate: every step behind the current one has its
  required fields filled in. Edits reach only the inputs rendered on the
  current step.
- **The location step** (`StepLocation`), in two parts.
  - The pure part turns a reverse-geocode reply (OpenStreetMap Nominatim's
    address fields) into ward, landmark and street address. It uses the
    `||` priority chains, `trim`, and `filter(Boolean).join(", ")`, each
    written out as a function.
  - The stateful part is the class `StepLocation.LocationStep`. It covers
    the re-entrancy and lock guard, the choice between a geotagged photo
    and device GPS, retargeting the map only when the coordinates change,
    and the reset with its delayed flight home. The map's `flyTo` calls are
    recorded in `flights`. `Valid()` states that a set target is always the
    last one flown to.
- **The complaint details timeline** (`ComplaintDetails`): finding the
  complaint by id, `findIndex` of its status, and the completed / current /
  pending marking of each entry.

Foreign calls are inputs.
- The camera's permission answer is `deviceGranted`.
- The geolocation answer is `gps: Option<Point>`.
- The lookup's outcome is a `LookupReply`.
- A captured frame is an opaque `Image`.

An `await` splits a handler into two methods. `HandleAutoFill` runs up to
the lookup request; `AddressArrived` completes it. Each timer is a counter
of pending callbacks plus a method that fires one of them
(`GpsFixArrived`, `SettleElapsed`). The shared draft is one `FormData`
value with one field per input. The error object is a `map<Field, bool>`:
`true` is a raised flag, `false` is a flag reset to `null`.

Three behaviours of the code that a reader might expect to be otherwise,
and one guard that never fires:
- An address reply with none of the used fields is not a failure. It
  yields three empty strings, and the location then locks
  (`StepLocation.EmptyReplyResolvesEmpty`).
- `removePhoto` with an invalid index is a silent no-op, not an error.
- The mock GPS lock resets only the `address` flag, not `ward`.
- `capturePhoto` returns early when there is no video element. The video
  element and the capture button are rendered only inside the open camera
  overlay, so the early return happens only when the camera is already
  closed. Every capture ends with the camera closed.

## Model

| member | source | states |
|---|---|---|
| `RegisterComplaints.Shown` | citizen/src/pages/RegisterComplaints.jsx:356-512 | the inputs wired to `handleInputChange`: ward, landmark and address at step 2; category, description and notes at step 3; none at steps 1 and 4 |
| `RegisterComplaints.Required` | citizen/src/pages/RegisterComplaints.jsx:137-144 | step 2 requires ward and address, step 3 category and description, steps 1 and 4 nothing; every required field has its input on that step |
| `RegisterComplaints.Missing` | citizen/src/pages/RegisterComplaints.jsx:137-144 | the required fields of a step that the draft leaves blank, the fields `validateStep` flags |
| `RegisterComplaints.StepErrors` | citizen/src/pages/RegisterComplaints.jsx:134-147 | the `newErrors` map of a failed validation: one raised flag for each blank required field of the step, and no other key |
| `ComplaintForm.FormData.With` | citizen/src/pages/RegisterComplaints.jsx:49 | the spread update sets exactly the named field and keeps the other five |
| `RegisterComplaints.PassesIffFilled` | citizen/src/pages/RegisterComplaints.jsx:133-151 | a step has no blank required field exactly when every field it requires is filled |
| `RegisterComplaints.DropIndex` | citizen/src/pages/RegisterComplaints.jsx:103-105 | filtering out one position shortens the list by one exactly when the position is in range |
| `RegisterComplaints.DropIndexSplices` | citizen/src/pages/RegisterComplaints.jsx:103-105 | removing by position deletes exactly that element and keeps the rest in order; an out-of-range index changes nothing |
| `RegisterComplaints.Wizard.constructor` | citizen/src/pages/RegisterComplaints.jsx:19-41 | the wizard starts at step 1 with a blank draft, no errors, no photos, camera closed, nothing detected or submitted |
| `RegisterComplaints.Wizard.HandleInputChange` | citizen/src/pages/RegisterComplaints.jsx:47-51 | an input of the current step writes its field and keeps the others; a raised flag for that field becomes null, every other entry untouched; an unraised one leaves errors as they were |
| `RegisterComplaints.Wizard.StartCamera` | citizen/src/pages/RegisterComplaints.jsx:55-75 | at three photos it reports the limit and changes nothing; otherwise it opens a session, or ends closed when the device refuses |
| `RegisterComplaints.Wizard.StopCamera` | citizen/src/pages/RegisterComplaints.jsx:77-83 | whether or not a stream existed, afterwards there is none and the camera is closed |
| `RegisterComplaints.Wizard.CapturePhoto` | citizen/src/pages/RegisterComplaints.jsx:85-101 | without a video element (the camera already closed) nothing changes; otherwise exactly the new frame is appended and the camera is stopped; either way the camera ends closed, and the queue stays within three |
| `RegisterComplaints.Wizard.RemovePhoto` | citizen/src/pages/RegisterComplaints.jsx:103-105 | the queue loses exactly the photo at the index, others keep their order; an invalid index leaves it unchanged |
| `RegisterComplaints.Wizard.HandleGPS` | citizen/src/pages/RegisterComplaints.jsx:117-119 | shows detection in progress and starts one more mock timer |
| `RegisterComplaints.Wizard.GpsFixArrived` | citizen/src/pages/RegisterComplaints.jsx:119-129 | the mock fix writes the fixed ward, landmark and address, shows the lock and resets only the address flag |
| `RegisterComplaints.Wizard.ValidateStep` | citizen/src/pages/RegisterComplaints.jsx:133-151 | passes exactly when the step's required fields are filled; on failure errors become exactly the blank required fields, each raised; on success errors are untouched |
| `RegisterComplaints.Wizard.HandleNext` | citizen/src/pages/RegisterComplaints.jsx:153-159 | below step 4 advances one step exactly when validation passes, else stays with the same error map; at step 4 submits without validating, and a submission happens only with the required fields of steps 2 and 3 filled in |
| `RegisterComplaints.Wizard.HandleBack` | citizen/src/pages/RegisterComplaints.jsx:161-163 | steps back only above step 1 and touches neither errors nor the draft; the step stays in 1..4 |
| `RegisterComplaints.SubmitFilledDraft` | citizen/src/pages/RegisterComplaints.jsx:153-159 | one photo at step 1, ward and address typed at step 2, category and description at step 3: four advances from step 1 end submitted at step 4 |
| `RegisterComplaints.BlockedAtLocation` | citizen/src/pages/RegisterComplaints.jsx:133-159 | step 2 with a blank ward stays at step 2 with only the ward flag raised, the same map again on retry, and typing a ward resets it |
| `RegisterComplaints.PhotoLimit` | citizen/src/pages/RegisterComplaints.jsx:55-105 | after three captures a fourth camera start is refused and the camera stays closed; removing a photo lets it open again |
| `StepLocation.FirstNonEmpty` | citizen/src/components/RegisterComponent/StepLocation.jsx:76-82 | the `\|\|` chain yields "" exactly when every candidate is empty, else the first non-empty candidate |
| `StepLocation.TrimStart` | citizen/src/components/RegisterComponent/StepLocation.jsx:84 | the result is a suffix of the input that starts with no blank, and everything dropped is blank |
| `StepLocation.TrimEnd` | citizen/src/components/RegisterComponent/StepLocation.jsx:84 | the result is a prefix of the input that ends with no blank, and everything dropped is blank |
| `StepLocation.Trim` | citizen/src/components/RegisterComponent/StepLocation.jsx:84 | `s.trim()`: the result has no trimmable character (JavaScript white space or line terminator) at either end |
| `StepLocation.NonEmpty` | citizen/src/components/RegisterComponent/StepLocation.jsx:87 | `filter(Boolean)` keeps only non-empty parts, and never more parts than it was given |
| `StepLocation.NonEmptyKeepsAll` | citizen/src/components/RegisterComponent/StepLocation.jsx:87 | `filter(Boolean)` keeps every non-empty part as often as it occurs and drops every empty one |
| `StepLocation.NonEmptyAppend` | citizen/src/components/RegisterComponent/StepLocation.jsx:87 | `filter(Boolean)` works piecewise, so the kept parts stay in their original order |
| `StepLocation.Join` | citizen/src/components/RegisterComponent/StepLocation.jsx:88 | `join(sep)`: "" for no parts, the one part alone, otherwise the parts with `sep` between each two |
| `StepLocation.JoinTwo` | citizen/src/components/RegisterComponent/StepLocation.jsx:83-88 | joining two parts with empties dropped gives either part alone, both separated by ", ", or "" |
| `StepLocation.StreetLine` | citizen/src/components/RegisterComponent/StepLocation.jsx:84 | for a house number and a road with no surrounding blanks, the trimmed "house road" is whichever is present, or both with one space |
| `StepLocation.Extract` | citizen/src/components/RegisterComponent/StepLocation.jsx:73-89 | the reply's fields as form values; its properties are stated by the three lemmas below |
| `StepLocation.ExtractAnyReply` | citizen/src/components/RegisterComponent/StepLocation.jsx:73-89 | for every reply, a missing address object read as empty: ward and landmark are the first non-empty of their chains; the address is the trimmed "house road" and the locality joined by ", ", either alone when the other is empty, or "" |
| `StepLocation.MissingAddressObject` | citizen/src/components/RegisterComponent/StepLocation.jsx:73-89 | a reply without an address object yields no ward, no address, and the place's own name as landmark |
| `StepLocation.ExtractFields` | citizen/src/components/RegisterComponent/StepLocation.jsx:73-89 | for a present address object whose house number and road have no surrounding blanks: the same, with the street line written out as whichever of house number and road is present, or both with one space |
| `StepLocation.FetchAddress` | citizen/src/components/RegisterComponent/StepLocation.jsx:59-93 | no result exactly when the request throws, the status is not ok or the body cannot be read; otherwise the extracted fields |
| `StepLocation.EmptyReplyResolvesEmpty` | citizen/src/components/RegisterComponent/StepLocation.jsx:73-89 | a successful reply with no usable fields yields three empty strings, not a failure |
| `StepLocation.SuburbRoadCity` | citizen/src/components/RegisterComponent/StepLocation.jsx:73-89 | a reply naming only a suburb, a road without surrounding blanks and a city resolves to that suburb as ward, no landmark, and "road, city" |
| `StepLocation.GreenParkExample` | citizen/src/components/RegisterComponent/StepLocation.jsx:73-89 | suburb "Green Park", road "MG Road", city "Pune" resolve to ward "Green Park", no landmark, address "MG Road, Pune" |
| `StepLocation.Geotagged` | citizen/src/components/RegisterComponent/StepLocation.jsx:105 | the `find` test: a capture counts only when both its lat and its lng are numbers |
| `StepLocation.FirstGeotagged` | citizen/src/components/RegisterComponent/StepLocation.jsx:104-106 | finds the first capture whose lat and lng are both numbers, or reports that none is |
| `StepLocation.CoordinateSource` | citizen/src/components/RegisterComponent/StepLocation.jsx:104-125 | the first geotagged capture's coordinates win; only when no capture is geotagged does the device position count |
| `StepLocation.FlightFor` | citizen/src/components/RegisterComponent/StepLocation.jsx:29-36 | a flight goes to the target's center and zoom, with duration 2.4 and easing 0.25 where the target leaves them unset |
| `StepLocation.FlightsFor` | citizen/src/components/RegisterComponent/StepLocation.jsx:29-36 | a null target makes no flight, any other exactly one |
| `StepLocation.FlightPaces` | citizen/src/components/RegisterComponent/StepLocation.jsx:128-168 | a detection flies at zoom 16 at the default pace; the reset flies to [20.5937, 78.9629] at zoom 4 in 1.4 s with easing 0.4 |
| `StepLocation.DetectTarget` | citizen/src/components/RegisterComponent/StepLocation.jsx:134 | the target a detection installs: centered on the point at zoom 16, with duration and easing left unset |
| `StepLocation.Retargets` | citizen/src/components/RegisterComponent/StepLocation.jsx:128-132 | the "animate only if target changed" test: there is no target, or its center differs from the point in latitude or longitude |
| `StepLocation.LocationStep.constructor` | citizen/src/components/RegisterComponent/StepLocation.jsx:48-53 | the step starts idle, unlocked, with no error, target or marker |
| `StepLocation.LocationStep.HandleAutoFill` | citizen/src/components/RegisterComponent/StepLocation.jsx:96-135 | no-op while detecting or locked; a GPS failure reports "GPS access denied", ends detection and touches no form, target or marker; otherwise retargets and moves the marker only when the coordinates differ from the current target, then looks them up |
| `StepLocation.LocationStep.AddressArrived` | citizen/src/components/RegisterComponent/StepLocation.jsx:137-153 | a result overwrites ward, landmark and address, resets only the ward and address flags and locks; no result reports "Address not found" and leaves the form; detection ends either way |
| `StepLocation.LocationStep.ResetLocation` | citizen/src/components/RegisterComponent/StepLocation.jsx:156-179 | drops marker and target without a flight, unlocks, clears the notice, blanks the three location fields, keeps the rest, and starts one settle timer |
| `StepLocation.LocationStep.SettleElapsed` | citizen/src/components/RegisterComponent/StepLocation.jsx:161-168 | the settle timer installs the country-view target and the map flies there once; nothing else changes |
| `StepLocation.DetectThenRefuse` | citizen/src/components/RegisterComponent/StepLocation.jsx:96-153 | the first geotagged photo, after one without a geotag, resolves to Green Park and locks; a second detection is then refused |
| `StepLocation.DetectResetDetect` | citizen/src/components/RegisterComponent/StepLocation.jsx:96-179 | for any reply that yields a result: a device fix locks; after a reset and its settle flight home, a detection at the same point flies there again and locks anew, three flights in all |
| `ComplaintDetails.FindComplaint` | citizen/src/pages/ComplaintDetails.jsx:68-69 | the first complaint with the route's id, or none exactly when no id matches |
| `ComplaintDetails.FindIndex` | citizen/src/pages/ComplaintDetails.jsx:71-73 | the first timeline position whose key is the status, or -1 exactly when none is |
| `ComplaintDetails.Stages` | citizen/src/pages/ComplaintDetails.jsx:182-184 | one stage per timeline entry |
| `ComplaintDetails.StageAt` | citizen/src/pages/ComplaintDetails.jsx:183-184 | `isCompleted` is a position before the status's index, `isCurrent` the position equal to it, anything after pending |
| `ComplaintDetails.StageMeaning` | citizen/src/pages/ComplaintDetails.jsx:182-184 | an entry is current exactly when it is the first carrying the status, completed exactly when that first one comes later, pending otherwise |
| `ComplaintDetails.OneCurrent` | citizen/src/pages/ComplaintDetails.jsx:183-184 | at most one entry is current |
| `ComplaintDetails.StagesOrdered` | citizen/src/pages/ComplaintDetails.jsx:183-184 | completed entries form a prefix, and after the first non-completed entry every later one is pending |
| `ComplaintDetails.AbsentStatusAllPending` | citizen/src/pages/ComplaintDetails.jsx:71-73 | a status absent from the timeline leaves every entry pending |
| `ComplaintDetails.BuiltInRecord` | citizen/src/pages/ComplaintDetails.jsx:16-51 | the record "1033" is found by its id and no other; with status "In Progress" its entries are completed, completed, current, pending |

## Left out

- Markup, Tailwind classes, the inline style block and the `progressWidth` percentage: presentation and floating point.
- Camera device details are not modelled: `getUserMedia`'s constraints, track stopping, canvas drawing and `toDataURL`. A stream is the flag `hasStream`; a frame is an opaque `Image`.
- The unmount cleanup effect is not modelled: it only stops device tracks.
- `alert` and `console.error` notices: `StartCamera` returns which notice would be shown instead.
- RegisterComplaints.Wizard.StartCamera: the overlay is shown (`isCameraOpen = true`) while the permission prompt is pending. The model collapses that interval into one atomic step.
- RegisterComplaints.Wizard.CapturePhoto: whether the video element is mounted is the parameter `videoReady`. It is mounted exactly while the camera overlay is shown, so `videoReady == isCameraOpen`.
- The reverse-geocode request itself is an input `LookupReply`: its URL, zoom 18, `addressdetails` and the User-Agent header.
- Address fields in a reply are strings, with "" for a missing field. Non-string JSON values are not modelled.
- A `null` JSON body counts as an unreadable body: both make the source return null.
- StepLocation.LocationStep.HandleAutoFill: the wait for the device position is folded into this step, with its answer `gps` as an input. The guard is therefore exercised only while the address lookup is in flight.
- An undefined `captures` list behaves as an empty one.
- The form context that StepLocation reads is held as the `formData` field. citizen/src/context/RegisterComplaintContext.jsx is not part of this model.
- Timer delays (1500 ms, 50 ms), `flyTo` animation and React's batching of state updates: each handler or timer callback is one atomic update.
- Coordinates are JavaScript numbers, modelled as `real` and only compared for equality.
- The submitted-complaint display and the page reload after submission: presentation.
- `ComplaintDetails`: rendering, status styles, back navigation, images and the other record fields, which are displayed but never computed on.
- Hero.jsx, HowItWork.jsx, SuccessModal.jsx, main.jsx: animation timing, static content, routing and bootstrapping.
- AppContext.jsx: context glue that references an undefined `value`.
