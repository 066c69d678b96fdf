/**
 * The calendar sync hook of src/hooks/useCalendarSync.ts: the slots of all
 * showings grouped by property id and date, each stamped with the agent id,
 * and the add / update operations that stamp the agent id before handing
 * the slots to the showings hook.
 *
 * The hook's optional `agentId` is an `Option<string>`; the property list is
 * the one the properties hook has loaded.
 */
module CalendarSync {
  import opened Wrappers
  import opened Seqs
  import opened Text
  import opened ShowingTypes
  import opened PropertyTypes
  import opened PropertyShowings

  type Grouping = map<string, map<string, seq<TimeSlot>>>

  /** `agentId || ''`. */
  function AgentOr(agentId: Option<string>): string {
    match agentId
    case None => ""
    case Some(a) => a
  }

  /** `{ ...slot, agentId: agentId || '' }`. */
  function Stamp(slot: TimeSlot, agentId: Option<string>): (r: TimeSlot)
    ensures r.agentId == Some(AgentOr(agentId))
    ensures r.(agentId := slot.agentId) == slot
  {
    slot.(agentId := Some(AgentOr(agentId)))
  }

  /** The stamped slots of `slots` on `date`, in order. */
  function DateSlots(slots: seq<TimeSlot>, date: string, agentId: Option<string>): seq<TimeSlot>
    decreases |slots|
  {
    if slots == [] then []
    else
      var last := slots[|slots| - 1];
      DateSlots(slots[..|slots| - 1], date, agentId) + (if last.date == date then [Stamp(last, agentId)] else [])
  }

  /** The bucket for (`propertyId`, `date`): the stamped slots on that date, showing by showing, slot by slot. */
  function Bucket(showings: seq<Showing>, propertyId: string, date: string, agentId: Option<string>): seq<TimeSlot>
    decreases |showings|
  {
    if showings == [] then []
    else
      var last := showings[|showings| - 1];
      Bucket(showings[..|showings| - 1], propertyId, date, agentId) +
        (if last.propertyId == propertyId then DateSlots(last.timeSlots, date, agentId) else [])
  }

  function PropertyIds(showings: seq<Showing>): set<string> {
    set s | s in showings :: s.propertyId
  }

  /** The bucket a grouping holds for a property and a date, empty when it has none. */
  function Get(g: Grouping, propertyId: string, date: string): seq<TimeSlot> {
    if propertyId in g && date in g[propertyId] then g[propertyId][date] else []
  }

  lemma PropertyIdsStep(showings: seq<Showing>, i: int)
    requires 0 <= i < |showings|
    ensures PropertyIds(showings[..i + 1]) == PropertyIds(showings[..i]) + {showings[i].propertyId}
  {
    assert showings[..i + 1] == showings[..i] + [showings[i]];
  }

  /** No date key of a grouping holds an empty bucket. */
  predicate NoEmptyBuckets(g: Grouping) {
    forall p, d :: p in g && d in g[p] ==> g[p][d] != []
  }

  /** `acc[propertyId][slot.date].push(slot)`, creating the date's bucket when it is missing. */
  function Push(g: Grouping, propertyId: string, slot: TimeSlot): (r: Grouping)
    requires propertyId in g
    ensures r.Keys == g.Keys
    ensures NoEmptyBuckets(g) ==> NoEmptyBuckets(r)
  {
    g[propertyId := g[propertyId][slot.date := Get(g, propertyId, slot.date) + [slot]]]
  }

  lemma PushGet(g: Grouping, propertyId: string, slot: TimeSlot, p: string, d: string)
    requires propertyId in g
    ensures Get(Push(g, propertyId, slot), p, d) ==
            Get(g, p, d) + (if p == propertyId && d == slot.date then [slot] else [])
  {
  }

  lemma DateSlotsStep(slots: seq<TimeSlot>, j: int, d: string, agentId: Option<string>)
    requires 0 <= j < |slots|
    ensures DateSlots(slots[..j + 1], d, agentId) ==
            DateSlots(slots[..j], d, agentId) + (if slots[j].date == d then [Stamp(slots[j], agentId)] else [])
  {
    assert slots[..j + 1][..j] == slots[..j];
  }

  /** After the first `j` slots of `showing`, the grouping is `acc` with those slots pushed. */
  ghost predicate PushedUpTo(r: Grouping, acc: Grouping, showing: Showing, j: int, agentId: Option<string>)
    requires 0 <= j <= |showing.timeSlots|
  {
    forall p, d ::
      Get(r, p, d) == Get(acc, p, d) + (if p == showing.propertyId then DateSlots(showing.timeSlots[..j], d, agentId) else [])
  }

  lemma PushStep(r: Grouping, acc: Grouping, showing: Showing, j: int, agentId: Option<string>)
    requires 0 <= j < |showing.timeSlots| && showing.propertyId in r
    requires PushedUpTo(r, acc, showing, j, agentId)
    ensures PushedUpTo(Push(r, showing.propertyId, Stamp(showing.timeSlots[j], agentId)), acc, showing, j + 1, agentId)
  {
    var slot := Stamp(showing.timeSlots[j], agentId);
    var r' := Push(r, showing.propertyId, slot);
    forall p, d
      ensures Get(r', p, d) ==
              Get(acc, p, d) + (if p == showing.propertyId then DateSlots(showing.timeSlots[..j + 1], d, agentId) else [])
    {
      PushStepAt(r, acc, showing, j, agentId, p, d);
    }
  }

  /** `PushStep` at one property id and date. */
  lemma PushStepAt(r: Grouping, acc: Grouping, showing: Showing, j: int, agentId: Option<string>, p: string, d: string)
    requires 0 <= j < |showing.timeSlots| && showing.propertyId in r
    requires Get(r, p, d) ==
             Get(acc, p, d) + (if p == showing.propertyId then DateSlots(showing.timeSlots[..j], d, agentId) else [])
    ensures Get(Push(r, showing.propertyId, Stamp(showing.timeSlots[j], agentId)), p, d) ==
            Get(acc, p, d) + (if p == showing.propertyId then DateSlots(showing.timeSlots[..j + 1], d, agentId) else [])
  {
    var slot := Stamp(showing.timeSlots[j], agentId);
    PushGet(r, showing.propertyId, slot, p, d);
    DateSlotsStep(showing.timeSlots, j, d, agentId);
    if p == showing.propertyId {
      var before := DateSlots(showing.timeSlots[..j], d, agentId);
      var extra := if slot.date == d then [slot] else [];
      assert Get(acc, p, d) + before + extra == Get(acc, p, d) + (before + extra);
    }
  }

  /** The `forEach` over one showing's slots: each stamped slot is pushed onto its date's bucket. */
  method PushSlots(acc: Grouping, showing: Showing, agentId: Option<string>) returns (r: Grouping)
    requires showing.propertyId in acc && NoEmptyBuckets(acc)
    ensures r.Keys == acc.Keys && NoEmptyBuckets(r)
    ensures PushedUpTo(r, acc, showing, |showing.timeSlots|, agentId)
  {
    var pid := showing.propertyId;
    r := acc;
    var j := 0;
    assert showing.timeSlots[..0] == [];
    while j < |showing.timeSlots|
      invariant 0 <= j <= |showing.timeSlots|
      invariant r.Keys == acc.Keys && NoEmptyBuckets(r)
      invariant PushedUpTo(r, acc, showing, j, agentId)
    {
      PushStep(r, acc, showing, j, agentId);
      r := Push(r, pid, Stamp(showing.timeSlots[j], agentId));
      j := j + 1;
    }
  }

  /** After the first `i` showings, the grouping holds their buckets. */
  ghost predicate GroupedUpTo(acc: Grouping, showings: seq<Showing>, i: int, agentId: Option<string>)
    requires 0 <= i <= |showings|
  {
    forall p, d :: Get(acc, p, d) == Bucket(showings[..i], p, d, agentId)
  }

  lemma BucketStep(showings: seq<Showing>, i: int, p: string, d: string, agentId: Option<string>)
    requires 0 <= i < |showings|
    ensures Bucket(showings[..i + 1], p, d, agentId) ==
            Bucket(showings[..i], p, d, agentId) +
            (if showings[i].propertyId == p then DateSlots(showings[i].timeSlots, d, agentId) else [])
  {
    assert showings[..i + 1][..i] == showings[..i];
  }

  /** Two groupings hold the same buckets (one may have extra property keys with no dates). */
  ghost predicate SameBuckets(g: Grouping, h: Grouping) {
    forall p, d :: Get(g, p, d) == Get(h, p, d)
  }

  /** `acc[propertyId] = {}` for a new property id adds a key and no bucket. */
  lemma OpenProperty(acc: Grouping, propertyId: string)
    requires propertyId !in acc && NoEmptyBuckets(acc)
    ensures NoEmptyBuckets(acc[propertyId := map[]])
    ensures SameBuckets(acc[propertyId := map[]], acc)
  {
  }

  /** Once all showings are processed, the buckets are the whole list's. */
  lemma GroupedAll(acc: Grouping, showings: seq<Showing>, agentId: Option<string>)
    requires GroupedUpTo(acc, showings, |showings|, agentId)
    ensures forall p, d :: Get(acc, p, d) == Bucket(showings, p, d, agentId)
  {
    assert showings[..|showings|] == showings;
  }

  lemma GroupStep(acc: Grouping, start: Grouping, r: Grouping, showings: seq<Showing>, i: int, agentId: Option<string>)
    requires 0 <= i < |showings|
    requires GroupedUpTo(acc, showings, i, agentId)
    requires SameBuckets(start, acc)
    requires PushedUpTo(r, start, showings[i], |showings[i].timeSlots|, agentId)
    ensures GroupedUpTo(r, showings, i + 1, agentId)
  {
    assert showings[i].timeSlots[..|showings[i].timeSlots|] == showings[i].timeSlots;
    forall p, d ensures Get(r, p, d) == Bucket(showings[..i + 1], p, d, agentId) {
      BucketStep(showings, i, p, d, agentId);
    }
  }

  /**
   * `timeSlotsByProperty`: every showing's property id is a key (even with no
   * slots), a date appears under a property exactly when its bucket is not
   * empty, and each bucket is `Bucket`.
   */
  method GroupTimeSlots(showings: seq<Showing>, agentId: Option<string>) returns (acc: Grouping)
    ensures acc.Keys == PropertyIds(showings)
    ensures forall p, d :: Get(acc, p, d) == Bucket(showings, p, d, agentId)
    ensures NoEmptyBuckets(acc)
  {
    acc := map[];
    var i := 0;
    while i < |showings|
      invariant 0 <= i <= |showings|
      invariant acc.Keys == PropertyIds(showings[..i])
      invariant GroupedUpTo(acc, showings, i, agentId)
      invariant NoEmptyBuckets(acc)
    {
      var showing := showings[i];
      PropertyIdsStep(showings, i);
      var start := acc;
      if showing.propertyId !in acc {
        OpenProperty(acc, showing.propertyId);
        start := acc[showing.propertyId := map[]];
      }
      var r := PushSlots(start, showing, agentId);
      GroupStep(acc, start, r, showings, i, agentId);
      acc := r;
      i := i + 1;
    }
    assert showings[..i] == showings;
    GroupedAll(acc, showings, agentId);
  }

  /** Every slot's date text is the date of every slot in its bucket, and every slot there carries the agent id. */
  lemma {:induction false} DateSlotsStamped(slots: seq<TimeSlot>, date: string, agentId: Option<string>)
    ensures forall x :: x in DateSlots(slots, date, agentId) ==> x.date == date && x.agentId == Some(AgentOr(agentId))
    decreases |slots|
  {
    if slots != [] {
      DateSlotsStamped(slots[..|slots| - 1], date, agentId);
    }
  }

  /** A slot with that date is in the stamped list, stamped. */
  lemma {:induction false} DateSlotsContain(slots: seq<TimeSlot>, j: int, agentId: Option<string>)
    requires 0 <= j < |slots|
    ensures Stamp(slots[j], agentId) in DateSlots(slots, slots[j].date, agentId)
    decreases |slots|
  {
    if j < |slots| - 1 {
      DateSlotsContain(slots[..|slots| - 1], j, agentId);
    }
  }

  /** A bucket holds only slots of its date, each carrying the agent id. */
  lemma {:induction false} BucketStamped(showings: seq<Showing>, propertyId: string, date: string, agentId: Option<string>)
    ensures forall x :: x in Bucket(showings, propertyId, date, agentId) ==>
      x.date == date && x.agentId == Some(AgentOr(agentId))
    decreases |showings|
  {
    if showings != [] {
      BucketStamped(showings[..|showings| - 1], propertyId, date, agentId);
      DateSlotsStamped(showings[|showings| - 1].timeSlots, date, agentId);
    }
  }

  /** Slot j of showing k lands, stamped, in the bucket of its showing's property and its own date. */
  lemma {:induction false} BucketContains(showings: seq<Showing>, k: int, j: int, agentId: Option<string>)
    requires 0 <= k < |showings| && 0 <= j < |showings[k].timeSlots|
    ensures var s := showings[k].timeSlots[j];
            Stamp(s, agentId) in Bucket(showings, showings[k].propertyId, s.date, agentId)
    decreases |showings|
  {
    var s := showings[k].timeSlots[j];
    if k == |showings| - 1 {
      DateSlotsContain(showings[k].timeSlots, j, agentId);
    } else {
      var front := showings[..|showings| - 1];
      assert front[k] == showings[k];
      BucketContains(front, k, j, agentId);
    }
  }

  /** Every slot of every showing appears in the grouping, stamped, under its property id and its date. */
  lemma GroupingContains(showings: seq<Showing>, agentId: Option<string>, g: Grouping, k: int, j: int)
    requires forall p, d :: Get(g, p, d) == Bucket(showings, p, d, agentId)
    requires 0 <= k < |showings| && 0 <= j < |showings[k].timeSlots|
    ensures var s := showings[k].timeSlots[j];
            showings[k].propertyId in g && s.date in g[showings[k].propertyId] &&
            Stamp(s, agentId) in g[showings[k].propertyId][s.date]
  {
    var s := showings[k].timeSlots[j];
    BucketContains(showings, k, j, agentId);
    assert Get(g, showings[k].propertyId, s.date) == Bucket(showings, showings[k].propertyId, s.date, agentId);
  }

  /** `slots.map(slot => ({ ...slot, agentId: agentId || '' }))` in `addTimeSlots`. */
  function StampDrafts(slots: seq<SlotDraft>, agentId: Option<string>): (r: seq<SlotDraft>)
    ensures |r| == |slots|
    ensures forall i :: 0 <= i < |r| ==>
              r[i].agentId == Some(AgentOr(agentId)) && r[i].(agentId := slots[i].agentId) == slots[i]
  {
    Map(slots, (s: SlotDraft) => s.(agentId := Some(AgentOr(agentId))))
  }

  /** `slot.agentId || agentId || ''`. */
  function KeptAgent(slot: TimeSlot, agentId: Option<string>): string {
    match slot.agentId
    case Some(a) => OrElse(a, AgentOr(agentId))
    case None => AgentOr(agentId)
  }

  /** `updateTimeSlots`' map: a slot keeps its own non-empty agent id and otherwise takes the hook's, or ''. */
  function KeepAgents(slots: seq<TimeSlot>, agentId: Option<string>): (r: seq<TimeSlot>)
    ensures |r| == |slots|
    ensures forall i :: 0 <= i < |r| ==>
      r[i].(agentId := slots[i].agentId) == slots[i] &&
      (slots[i].agentId.Some? && slots[i].agentId.value != "" ==> r[i] == slots[i]) &&
      (slots[i].agentId == None || slots[i].agentId == Some("") ==> r[i].agentId == Some(AgentOr(agentId)))
  {
    Map(slots, (s: TimeSlot) => s.(agentId := Some(KeptAgent(s, agentId))))
  }

  /** Keeping agent ids twice is keeping them once. */
  lemma KeepAgentsIdempotent(slots: seq<TimeSlot>, agentId: Option<string>)
    ensures KeepAgents(KeepAgents(slots, agentId), agentId) == KeepAgents(slots, agentId)
  {
    var once := KeepAgents(slots, agentId);
    var twice := KeepAgents(once, agentId);
    forall i | 0 <= i < |slots| ensures twice[i] == once[i] {
      if slots[i].agentId.Some? && slots[i].agentId.value != "" {
        assert once[i] == slots[i];
      } else if AgentOr(agentId) == "" {
        assert once[i].agentId == Some("");
        assert twice[i].agentId == Some("");
      }
    }
  }

  /** `properties.find(p => p.id === propertyId)`. */
  function FindProperty(properties: seq<Property>, propertyId: string): (r: Option<Property>)
    ensures r.None? <==> forall i :: 0 <= i < |properties| ==> properties[i].id != propertyId
    ensures r.Some? ==>
      exists k :: 0 <= k < |properties| && properties[k] == r.value && r.value.id == propertyId &&
        forall i :: 0 <= i < k ==> properties[i].id != propertyId
  {
    var k := FindIndex(properties, (p: Property) => p.id == propertyId);
    if k < 0 then None else Some(properties[k])
  }

  /** The hook's state over the showings hook it delegates to. */
  class Sync {
    const agentId: Option<string>
    const properties: seq<Property>
    const store: ShowingStore
    var error: Option<string>

    constructor (agentId: Option<string>, properties: seq<Property>, store: ShowingStore)
      ensures this.agentId == agentId && this.properties == properties && this.store == store
      ensures error == None
    {
      this.agentId := agentId;
      this.properties := properties;
      this.store := store;
      error := None;
    }

    /**
     * `addTimeSlots`: an unknown property fails with 'Property not found' and
     * adds nothing; otherwise one showing with the stamped slots is appended.
     */
    method AddTimeSlots(propertyId: string, slots: seq<SlotDraft>, showingId: string, slotIds: seq<string>)
      returns (ok: bool)
      requires |slotIds| == |slots|
      modifies this, store
      ensures var found := FindProperty(properties, propertyId);
        if found.None? then
          !ok && error == Some("Property not found") && store.showings == old(store.showings)
        else
          ok && error == None &&
          store.showings == old(store.showings) + [NewShowing(found.value, StampDrafts(slots, agentId), showingId, slotIds)]
    {
      error := None;
      var property := FindProperty(properties, propertyId);
      if property.None? {
        error := Some("Property not found");
        return false;
      }
      var stamped := StampDrafts(slots, agentId);
      var _ := store.AddPropertyShowing(property.value, stamped, showingId, slotIds);
      return true;
    }

    /** `updateTimeSlots`: the showing's slots are replaced by the slots with their agent ids kept or filled in. */
    method UpdateTimeSlots(showingId: string, slots: seq<TimeSlot>) returns (ok: bool)
      modifies this, store
      ensures ok && error == None
      ensures store.showings == ReplaceTimeSlots(old(store.showings), showingId, KeepAgents(slots, agentId))
    {
      error := None;
      store.UpdateShowingTimeSlots(showingId, KeepAgents(slots, agentId));
      return true;
    }
  }
}
