/**
 * Time slots and showings (src/types/propertyShowing.ts).
 *
 * A slot record built from the calendar editor's form carries no `agentId`
 * and no `currentAttendees`, so both are optional here.
 */
module ShowingTypes {
  import opened Wrappers

  datatype TimeSlot = TimeSlot(
    id: string,
    propertyId: string,
    agentId: Option<string>,
    date: string,
    startTime: string,
    endTime: string,
    isBooked: bool,
    maxAttendees: int,
    currentAttendees: Option<int>)

  /** A slot without its id (`Omit<ShowingTimeSlot, 'id'>`). */
  datatype SlotDraft = SlotDraft(
    propertyId: string,
    agentId: Option<string>,
    date: string,
    startTime: string,
    endTime: string,
    isBooked: bool,
    maxAttendees: int,
    currentAttendees: Option<int>)

  datatype Showing = Showing(id: string, propertyId: string, timeSlots: seq<TimeSlot>)

  /** `{ ...draft, id }`. */
  function WithId(d: SlotDraft, id: string): (s: TimeSlot)
    ensures s.id == id && DraftOf(s) == d
  {
    TimeSlot(id, d.propertyId, d.agentId, d.date, d.startTime, d.endTime, d.isBooked, d.maxAttendees, d.currentAttendees)
  }

  /** Every field of a slot but its id. */
  function DraftOf(s: TimeSlot): SlotDraft {
    SlotDraft(s.propertyId, s.agentId, s.date, s.startTime, s.endTime, s.isBooked, s.maxAttendees, s.currentAttendees)
  }
}
