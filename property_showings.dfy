/**
 * The per-agent showing list of src/hooks/usePropertyShowings.ts: a state
 * field replaced by append / map / filter updaters, and two queries.
 * Random ids are passed in.
 */
module PropertyShowings {
  import opened Wrappers
  import opened Seqs
  import opened ShowingTypes
  import opened PropertyTypes

  /** The showing `addPropertyShowing` builds: every slot gets its own id, is not booked and has no attendees. */
  function NewShowing(property: Property, drafts: seq<SlotDraft>, showingId: string, slotIds: seq<string>): (r: Showing)
    requires |slotIds| == |drafts|
    ensures r.id == showingId && r.propertyId == property.id
    ensures |r.timeSlots| == |drafts|
    ensures forall i :: 0 <= i < |drafts| ==>
      var s := r.timeSlots[i];
      s.id == slotIds[i] && !s.isBooked && s.currentAttendees == Some(0) &&
      DraftOf(s) == drafts[i].(isBooked := false, currentAttendees := Some(0))
  {
    Showing(showingId, property.id,
      seq(|drafts|, i requires 0 <= i < |drafts| =>
        WithId(drafts[i].(isBooked := false, currentAttendees := Some(0)), slotIds[i])))
  }

  /** The `updateShowingTimeSlots` updater: new slots on the showings with that id, nothing else changes. */
  function ReplaceTimeSlots(showings: seq<Showing>, showingId: string, slots: seq<TimeSlot>): (r: seq<Showing>)
    ensures |r| == |showings|
    ensures forall i :: 0 <= i < |r| ==>
      r[i].id == showings[i].id && r[i].propertyId == showings[i].propertyId &&
      r[i].timeSlots == (if showings[i].id == showingId then slots else showings[i].timeSlots)
  {
    Map(showings, (s: Showing) => if s.id == showingId then s.(timeSlots := slots) else s)
  }

  /** Replacing the slots of an id no showing has changes nothing. */
  lemma ReplaceAbsentId(showings: seq<Showing>, showingId: string, slots: seq<TimeSlot>)
    requires forall i :: 0 <= i < |showings| ==> showings[i].id != showingId
    ensures ReplaceTimeSlots(showings, showingId, slots) == showings
  {
    var r := ReplaceTimeSlots(showings, showingId, slots);
    assert forall i :: 0 <= i < |r| ==> r[i] == showings[i];
  }

  /** The `removePropertyShowing` updater. */
  function RemoveShowing(showings: seq<Showing>, showingId: string): (r: seq<Showing>)
    ensures forall s :: s in r <==> s in showings && s.id != showingId
  {
    FilterMembers(showings, (s: Showing) => s.id != showingId);
    Filter(showings, (s: Showing) => s.id != showingId)
  }

  /** Removal drops exactly the showings with that id and keeps the others, with their multiplicity, in order. */
  lemma RemoveShowingKeepsOthers(showings: seq<Showing>, showingId: string)
    ensures IsSubsequence(RemoveShowing(showings, showingId), showings)
    ensures forall s: Showing :: s.id != showingId ==> multiset(RemoveShowing(showings, showingId))[s] == multiset(showings)[s]
    ensures forall i :: 0 <= i < |RemoveShowing(showings, showingId)| ==> RemoveShowing(showings, showingId)[i].id != showingId
  {
    var r := RemoveShowing(showings, showingId);
    FilterIsSubsequence(showings, (s: Showing) => s.id != showingId);
    FilterCounts(showings, (s: Showing) => s.id != showingId);
    forall i | 0 <= i < |r| ensures r[i].id != showingId {
      assert r[i] in r;
    }
  }

  predicate HasProperty(s: Showing, propertyId: string) {
    s.propertyId == propertyId
  }

  /** `showings.find(s => s.propertyId === propertyId)`: the first showing for that property. */
  function FindByProperty(showings: seq<Showing>, propertyId: string): (r: Option<Showing>)
    ensures r.None? <==> forall i :: 0 <= i < |showings| ==> !HasProperty(showings[i], propertyId)
    ensures r.Some? ==>
      exists k :: 0 <= k < |showings| && showings[k] == r.value && HasProperty(showings[k], propertyId) &&
        forall i :: 0 <= i < k ==> !HasProperty(showings[i], propertyId)
  {
    var k := FindIndex(showings, (s: Showing) => HasProperty(s, propertyId));
    if k < 0 then None else Some(showings[k])
  }

  /** The `getAvailableTimeSlots` query: the unbooked slots on that date of the property's first showing. */
  function AvailableTimeSlots(showings: seq<Showing>, propertyId: string, date: string): (r: seq<TimeSlot>)
    ensures FindByProperty(showings, propertyId).None? ==> r == []
    ensures FindByProperty(showings, propertyId).Some? ==>
      var slots := FindByProperty(showings, propertyId).value.timeSlots;
      IsSubsequence(r, slots) && (forall x :: x in r <==> x in slots && x.date == date && !x.isBooked) &&
      forall x :: multiset(r)[x] == if x.date == date && !x.isBooked then multiset(slots)[x] else 0
  {
    match FindByProperty(showings, propertyId)
    case None => []
    case Some(s) =>
      FilterIsSubsequence(s.timeSlots, (x: TimeSlot) => x.date == date && !x.isBooked);
      FilterMembers(s.timeSlots, (x: TimeSlot) => x.date == date && !x.isBooked);
      FilterCounts(s.timeSlots, (x: TimeSlot) => x.date == date && !x.isBooked);
      Filter(s.timeSlots, (x: TimeSlot) => x.date == date && !x.isBooked)
  }

  /** The hook's state: the showings list. */
  class ShowingStore {
    var showings: seq<Showing>

    constructor ()
      ensures showings == []
    {
      showings := [];
    }

    /** Appends exactly one new showing at the end and returns it. */
    method AddPropertyShowing(property: Property, drafts: seq<SlotDraft>, showingId: string, slotIds: seq<string>)
      returns (s: Showing)
      requires |slotIds| == |drafts|
      modifies this
      ensures s == NewShowing(property, drafts, showingId, slotIds)
      ensures showings == old(showings) + [s]
    {
      s := NewShowing(property, drafts, showingId, slotIds);
      showings := showings + [s];
    }

    method UpdateShowingTimeSlots(showingId: string, slots: seq<TimeSlot>)
      modifies this
      ensures showings == ReplaceTimeSlots(old(showings), showingId, slots)
    {
      showings := ReplaceTimeSlots(showings, showingId, slots);
    }

    method RemovePropertyShowing(showingId: string)
      modifies this
      ensures showings == RemoveShowing(old(showings), showingId)
    {
      showings := RemoveShowing(showings, showingId);
    }

    function GetShowingsByProperty(propertyId: string): Option<Showing>
      reads this
    {
      FindByProperty(showings, propertyId)
    }

    function GetAvailableTimeSlots(propertyId: string, date: string): seq<TimeSlot>
      reads this
    {
      AvailableTimeSlots(showings, propertyId, date)
    }
  }
}
