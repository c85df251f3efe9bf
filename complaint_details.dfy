/**
 * The complaint details page: find the complaint named by the route, find
 * where its status sits in its timeline, and mark each timeline entry as
 * completed, current or pending.
 */
module ComplaintDetails {
  import opened Wrappers

  /** A timeline step; `caption` is the source's `label`. */
  datatype TimelineEntry = TimelineEntry(key: string, caption: string, date: string)

  datatype Complaint = Complaint(
    id: string,
    title: string,
    category: string,
    priority: string,
    status: string,
    location: string,
    date: string,
    submittedBy: string,
    department: string,
    officer: string,
    description: string,
    images: seq<string>,
    timeline: seq<TimelineEntry>)

  /** How the timeline renders an entry. */
  datatype Stage = Completed | Current | Pending

  /** The page's built-in record. */
  const Garbage1033 := Complaint(
    "1033", "Garbage Overflow", "Garbage", "High", "In Progress", "Ward 12, Street 5",
    "12 Jan 2025", "Citizen (You)", "Sanitation Department", "Mr. R. Kumar",
    "Garbage overflowing near the community gate for 2 days. Attracting stray dogs and causing bad odor.",
    ["/garbage1.jpeg", "/garbage2.jpeg"],
    [ TimelineEntry("Registered", "Complaint Registered", "12 Jan 2025"),
      TimelineEntry("Assigned", "Assigned to Sanitation Dept.", "12 Jan 2025"),
      TimelineEntry("In Progress", "Cleaning Work In Progress", "13 Jan 2025"),
      TimelineEntry("Resolved", "Complaint Resolved", "—") ])

  /** `COMPLAINTS` */
  const Complaints := [Garbage1033]

  /** `complaints.find(c => c.id === id)`: the first complaint with that id, if any. */
  function FindComplaint(complaints: seq<Complaint>, id: string): (r: Option<Complaint>)
    ensures r.None? <==> forall i :: 0 <= i < |complaints| ==> complaints[i].id != id
    ensures r.Some? ==> r.value.id == id &&
                        exists i :: 0 <= i < |complaints| && complaints[i] == r.value &&
                                    forall j :: 0 <= j < i ==> complaints[j].id != id
  {
    if complaints == [] then None
    else if complaints[0].id == id then Some(complaints[0])
    else
      var r := FindComplaint(complaints[1..], id);
      assert forall i :: 1 <= i < |complaints| ==> complaints[i] == complaints[1..][i - 1];
      r
  }

  /** `timeline.findIndex(t => t.key === status)`: the first position with that key, or -1. */
  function FindIndex(timeline: seq<TimelineEntry>, status: string): (k: int)
    ensures -1 <= k < |timeline|
    ensures k == -1 <==> forall i :: 0 <= i < |timeline| ==> timeline[i].key != status
    ensures 0 <= k ==> timeline[k].key == status && forall j :: 0 <= j < k ==> timeline[j].key != status
  {
    if timeline == [] then -1
    else if timeline[0].key == status then 0
    else
      var k := FindIndex(timeline[1..], status);
      if k == -1 then -1 else k + 1
  }

  /** `isCompleted = index < currentIndex`, `isCurrent = index === currentIndex`, anything else pending. */
  function StageAt(index: int, currentIndex: int): Stage {
    if index < currentIndex then Completed
    else if index == currentIndex then Current
    else Pending
  }

  /** The stages the page renders for a complaint's timeline, in order. */
  function Stages(c: Complaint): (s: seq<Stage>)
    ensures |s| == |c.timeline|
  {
    var current := FindIndex(c.timeline, c.status);
    seq(|c.timeline|, i => StageAt(i, current))
  }

  /** The first timeline position whose key is `status`. */
  ghost predicate FirstMatch(timeline: seq<TimelineEntry>, status: string, k: int) {
    0 <= k < |timeline| && timeline[k].key == status &&
    forall j :: 0 <= j < k ==> timeline[j].key != status
  }

  /**
   * The stages read against the timeline's keys: an entry is current exactly
   * when it is the first one carrying the status, and completed exactly when
   * that first one comes later; otherwise (the status is absent, or first
   * carried by an earlier entry) it is pending.
   */
  lemma StageMeaning(c: Complaint, i: int)
    requires 0 <= i < |c.timeline|
    ensures Stages(c)[i] == Current <==> FirstMatch(c.timeline, c.status, i)
    ensures Stages(c)[i] == Completed <==> exists k :: i < k && FirstMatch(c.timeline, c.status, k)
    ensures Stages(c)[i] == Pending <==> forall k :: i <= k ==> !FirstMatch(c.timeline, c.status, k)
  {
    var t, status := c.timeline, c.status;
    var current := FindIndex(t, status);
    forall k | FirstMatch(t, status, k) ensures k == current {
      assert current != -1 && !(k < current) && !(current < k);
    }
    if 0 <= current {
      assert FirstMatch(t, status, current);
    }
  }

  /** At most one entry is current. */
  lemma OneCurrent(c: Complaint, i: int, j: int)
    requires 0 <= i < |c.timeline| && 0 <= j < |c.timeline|
    requires Stages(c)[i] == Current && Stages(c)[j] == Current
    ensures i == j
  {
  }

  /** Completed entries form a prefix, followed by at most one current entry, then the pending ones. */
  lemma StagesOrdered(c: Complaint, i: int, j: int)
    requires 0 <= i < j < |c.timeline|
    ensures Stages(c)[j] == Completed ==> Stages(c)[i] == Completed
    ensures Stages(c)[i] != Completed ==> Stages(c)[j] == Pending
  {
  }

  /** A status that appears nowhere in the timeline leaves every entry pending. */
  lemma AbsentStatusAllPending(c: Complaint)
    requires forall i :: 0 <= i < |c.timeline| ==> c.timeline[i].key != c.status
    ensures forall i :: 0 <= i < |c.timeline| ==> Stages(c)[i] == Pending
  {
  }

  /**
   * The built-in record is found by its id and by no other; with status
   * "In Progress" its first two entries are completed, the third current and
   * the fourth pending.
   */
  lemma BuiltInRecord(other: string)
    requires other != "1033"
    ensures FindComplaint(Complaints, "1033") == Some(Garbage1033)
    ensures FindComplaint(Complaints, other).None?
    ensures Stages(Garbage1033) == [Completed, Completed, Current, Pending]
  {
  }
}
