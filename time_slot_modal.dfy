/**
 * The slot editor of src/components/calendar/TimeSlotModal.tsx: the form
 * record it starts from, its one-field change handlers and its submit.
 * `today` stands for the local date of `new Date()`.
 */
module TimeSlotModal {
  import opened Wrappers
  import opened Text
  import opened Gregorian
  import opened ShowingTypes
  import opened PropertyTypes

  const DefaultStart := "09:00"
  const DefaultEnd := "10:00"

  /** `n || 1` on a number: 0 is the falsy attendee limit. */
  function AttendeesOrOne(n: int): (r: int)
    ensures n != 0 ==> r == n
    ensures n == 0 ==> r == 1
  {
    if n == 0 then 1 else n
  }

  /**
   * The initial `formData`: the property's id, and each field of the slot
   * being edited unless it is falsy, else its default. The form carries no
   * agent id and no attendee count.
   */
  function InitialForm(property: Property, timeSlot: Option<TimeSlot>, today: Date): (f: SlotDraft)
    ensures f.propertyId == property.id
    ensures f.agentId == None && f.currentAttendees == None
    ensures f.date != "" && f.startTime != "" && f.endTime != "" && f.maxAttendees != 0
    ensures timeSlot.None? ==>
      f.date == DateKey(today) && f.startTime == DefaultStart && f.endTime == DefaultEnd &&
      !f.isBooked && f.maxAttendees == 1
    ensures timeSlot.Some? ==>
      var s := timeSlot.value;
      (s.date != "" ==> f.date == s.date) && (s.startTime != "" ==> f.startTime == s.startTime) &&
      (s.endTime != "" ==> f.endTime == s.endTime) && f.isBooked == s.isBooked &&
      (s.maxAttendees != 0 ==> f.maxAttendees == s.maxAttendees) &&
      (s.date == "" ==> f.date == DateKey(today)) && (s.startTime == "" ==> f.startTime == DefaultStart) &&
      (s.endTime == "" ==> f.endTime == DefaultEnd) && (s.maxAttendees == 0 ==> f.maxAttendees == 1)
  {
    var s := timeSlot.GetOr(TimeSlot("", "", None, "", "", "", false, 0, None));
    DateKeyNonEmpty(today);
    SlotDraft(
      property.id,
      None,
      OrElse(s.date, DateKey(today)),
      OrElse(s.startTime, DefaultStart),
      OrElse(s.endTime, DefaultEnd),
      s.isBooked,
      AttendeesOrOne(s.maxAttendees),
      None)
  }

  lemma DateKeyNonEmpty(d: Date)
    ensures DateKey(d) != ""
  {
    assert |DateKey(d)| > 0;
  }

  /**
   * Opening the editor on a slot of this property whose fields are all set,
   * and saving without a change, gives back the slot with only the two fields
   * the form omits cleared.
   */
  lemma EditWithoutChange(property: Property, s: TimeSlot, today: Date)
    requires s.propertyId == property.id
    requires s.date != "" && s.startTime != "" && s.endTime != "" && s.maxAttendees != 0
    ensures WithId(InitialForm(property, Some(s), today), s.id) == s.(agentId := None, currentAttendees := None)
  {
  }

  /** The editor's form state. */
  class SlotForm {
    var formData: SlotDraft

    constructor (property: Property, timeSlot: Option<TimeSlot>, today: Date)
      ensures formData == InitialForm(property, timeSlot, today)
    {
      formData := InitialForm(property, timeSlot, today);
    }

    method SetDate(value: string)
      modifies this
      ensures formData == old(formData).(date := value)
    {
      formData := formData.(date := value);
    }

    method SetStartTime(value: string)
      modifies this
      ensures formData == old(formData).(startTime := value)
    {
      formData := formData.(startTime := value);
    }

    method SetEndTime(value: string)
      modifies this
      ensures formData == old(formData).(endTime := value)
    {
      formData := formData.(endTime := value);
    }

    /** `value` is the already parsed number of the attendee input. */
    method SetMaxAttendees(value: int)
      modifies this
      ensures formData == old(formData).(maxAttendees := value)
    {
      formData := formData.(maxAttendees := value);
    }

    /** `handleSubmit`: hands the current form record to `onSave` as it is. */
    method Submit() returns (saved: SlotDraft)
      ensures saved == formData
    {
      saved := formData;
    }
  }
}
