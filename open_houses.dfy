/**
 * The open-house list of src/hooks/useOpenHouses.ts: a local list that starts
 * as one sample open house and from which `deleteOpenHouse` drops entries.
 */
module OpenHouses {
  import opened Wrappers
  import opened Seqs

  datatype Attendee = Attendee(id: string, name: string, email: string)

  /** `OpenHouse` of src/types/openHouse.ts. */
  datatype OpenHouse = OpenHouse(
    id: string,
    propertyId: string,
    date: string,
    startTime: string,
    endTime: string,
    agentId: string,
    agentName: string,
    address: string,
    city: string,
    province: string,
    postalCode: string,
    attendees: seq<Attendee>,
    maxAttendees: Option<int>)

  /** `mockOpenHouses[0]`. */
  const SampleOpenHouse := OpenHouse(
    "1", "prop1", "2024-03-25", "14:00", "16:00", "agent1", "John Doe",
    "123 Main Street", "Vancouver", "BC", "V6B 2W2", [], Some(20))

  function NotId(id: string): OpenHouse -> bool {
    (oh: OpenHouse) => oh.id != id
  }

  function HasId(id: string): OpenHouse -> bool {
    (oh: OpenHouse) => oh.id == id
  }

  /** `prev.filter(oh => oh.id !== id)`. */
  function WithoutId(openHouses: seq<OpenHouse>, id: string): (r: seq<OpenHouse>)
    ensures IsSubsequence(r, openHouses)
    ensures forall oh :: oh in r <==> oh in openHouses && oh.id != id
  {
    FilterIsSubsequence(openHouses, NotId(id));
    FilterMembers(openHouses, NotId(id));
    Filter(openHouses, NotId(id))
  }

  /** Deleting an id no open house has leaves the list as it is. */
  lemma DeleteAbsent(openHouses: seq<OpenHouse>, id: string)
    requires forall i :: 0 <= i < |openHouses| ==> openHouses[i].id != id
    ensures WithoutId(openHouses, id) == openHouses
  {
    FilterAll(openHouses, NotId(id));
  }

  /** Deleting the same id twice is deleting it once. */
  lemma DeleteIdempotent(openHouses: seq<OpenHouse>, id: string)
    ensures WithoutId(WithoutId(openHouses, id), id) == WithoutId(openHouses, id)
  {
    FilterIdempotent(openHouses, NotId(id));
  }

  /** Deleting removes every open house with the id: the result has exactly that many fewer. */
  lemma DeleteCount(openHouses: seq<OpenHouse>, id: string)
    ensures |WithoutId(openHouses, id)| + |Filter(openHouses, HasId(id))| == |openHouses|
  {
    FilterSplit(openHouses, NotId(id), HasId(id));
  }

  /** The hook's state. */
  class OpenHouseList {
    var openHouses: seq<OpenHouse>

    constructor ()
      ensures openHouses == [SampleOpenHouse]
    {
      openHouses := [SampleOpenHouse];
    }

    /** `deleteOpenHouse`. */
    method DeleteOpenHouse(id: string)
      modifies this
      ensures openHouses == WithoutId(old(openHouses), id)
    {
      openHouses := WithoutId(openHouses, id);
    }
  }

  /** From the initial list, deleting '1' empties it and deleting any other id changes nothing. */
  lemma InitialDeletes(id: string)
    ensures id == "1" ==> WithoutId([SampleOpenHouse], id) == []
    ensures id != "1" ==> WithoutId([SampleOpenHouse], id) == [SampleOpenHouse]
  {
    if id == "1" {
      FilterNone([SampleOpenHouse], NotId(id));
    } else {
      DeleteAbsent([SampleOpenHouse], id);
    }
  }
}
