/**
 * The open-house service of src/services/openHouse/OpenHouseService.ts: the
 * optional equality filters of the list query, the mapping of fetched rows
 * (with their joined agent name and property) to listing records, and the
 * row that `createOpenHouse` inserts.
 *
 * The query and the insert are replaced by the answers they give.
 */
module OpenHouseService {
  import opened Wrappers
  import opened Seqs
  import opened Text

  /** `filters?: { city?: string; date?: string }`. */
  datatype ListFilters = ListFilters(city: Option<string>, date: Option<string>)

  /** One `query.eq(column, value)`. */
  datatype Eq = Eq(column: string, value: string)

  /** `filters?.x` is truthy: present and not the empty string. */
  predicate Given(v: Option<string>) {
    v.Some? && v.value != ""
  }

  /**
   * The filters `getOpenHouses` adds to its query, by reassigning `query`:
   * the city's, then the date's, each only when it is given.
   */
  method QueryFilters(filters: Option<ListFilters>) returns (query: seq<Eq>)
    ensures filters.None? ==> query == []
    ensures filters.Some? ==>
      query == (if Given(filters.value.city) then [Eq("city", filters.value.city.value)] else []) +
               (if Given(filters.value.date) then [Eq("date", filters.value.date.value)] else [])
  {
    query := [];
    if filters.Some? && Given(filters.value.city) {
      query := query + [Eq("city", filters.value.city.value)];
    }
    if filters.Some? && Given(filters.value.date) {
      query := query + [Eq("date", filters.value.date.value)];
    }
  }

  /** The joined `agent_profiles (name)`. */
  datatype AgentJoin = AgentJoin(name: Option<string>)

  /** The joined `properties (title, images)`. */
  datatype PropertyJoin = PropertyJoin(title: Option<string>, images: Option<seq<string>>)

  /** A row of `open_houses` with its joins. */
  datatype OpenHouseRow = OpenHouseRow(
    id: string,
    property_id: string,
    date: string,
    start_time: string,
    end_time: string,
    agent_id: string,
    address: string,
    city: string,
    province: string,
    postal_code: string,
    max_attendees: Option<int>,
    current_attendees: Option<int>,
    agent_profiles: Option<AgentJoin>,
    properties: Option<PropertyJoin>)

  /** The record `getOpenHouses` returns for a row. */
  datatype OpenHouseListing = OpenHouseListing(
    id: string,
    propertyId: string,
    date: string,
    startTime: string,
    endTime: string,
    agentId: string,
    agentName: string,
    address: string,
    city: string,
    province: string,
    postalCode: string,
    maxAttendees: Option<int>,
    currentAttendees: int,
    propertyTitle: Option<string>,
    images: seq<string>)

  /** `oh.agent_profiles?.name || ''`. */
  function AgentName(join: Option<AgentJoin>): (name: string)
    ensures join.Some? && join.value.name.Some? ==> name == join.value.name.value
    ensures join.None? || join.value.name.None? ==> name == ""
  {
    match join
    case None => ""
    case Some(a) => a.name.GetOr("")
  }

  /** `oh.current_attendees || 0`: null and 0 give 0. */
  function AttendeesOrZero(n: Option<int>): (r: int)
    ensures n.Some? ==> r == n.value
    ensures n.None? ==> r == 0
  {
    n.GetOr(0)
  }

  /** The `data.map(oh => ...)` body: each column copied to its camelCase field, with the fallbacks. */
  function ToListing(oh: OpenHouseRow): (r: OpenHouseListing)
    ensures r.id == oh.id && r.propertyId == oh.property_id && r.date == oh.date
    ensures r.startTime == oh.start_time && r.endTime == oh.end_time && r.agentId == oh.agent_id
    ensures r.address == oh.address && r.city == oh.city && r.province == oh.province && r.postalCode == oh.postal_code
    ensures r.maxAttendees == oh.max_attendees
    ensures r.currentAttendees == AttendeesOrZero(oh.current_attendees) && r.agentName == AgentName(oh.agent_profiles)
    ensures r.propertyTitle == (if oh.properties.Some? then oh.properties.value.title else None)
    ensures r.images == (if oh.properties.Some? then oh.properties.value.images.GetOr([]) else [])
  {
    OpenHouseListing(
      oh.id, oh.property_id, oh.date, oh.start_time, oh.end_time, oh.agent_id,
      AgentName(oh.agent_profiles), oh.address, oh.city, oh.province, oh.postal_code,
      oh.max_attendees, AttendeesOrZero(oh.current_attendees),
      if oh.properties.Some? then oh.properties.value.title else None,
      if oh.properties.Some? then oh.properties.value.images.GetOr([]) else [])
  }

  /** `getOpenHouses` after the query: a failure is rethrown, rows map one to one, in order. */
  function GetOpenHouses(response: Result<seq<OpenHouseRow>, string>): (r: Result<seq<OpenHouseListing>, string>)
    ensures response.Err? ==> r == Err(response.error)
    ensures response.Ok? ==>
              (r.Ok? && |r.value| == |response.value| &&
               forall i :: 0 <= i < |r.value| ==> r.value[i] == ToListing(response.value[i]))
  {
    match response
    case Err(e) => Err(e)
    case Ok(rows) => Ok(Map(rows, ToListing))
  }

  /** `Omit<OpenHouse, 'id' | 'currentAttendees'>`, the fields `createOpenHouse` reads. */
  datatype NewOpenHouse = NewOpenHouse(
    propertyId: string,
    agentId: string,
    date: string,
    startTime: string,
    endTime: string,
    maxAttendees: Option<int>,
    address: string,
    city: string,
    province: string,
    postalCode: string)

  /** The inserted columns. */
  datatype InsertRow = InsertRow(
    property_id: string,
    agent_id: string,
    date: string,
    start_time: string,
    end_time: string,
    max_attendees: int,
    current_attendees: int,
    address: string,
    city: string,
    province: string,
    postal_code: string)

  const DefaultMaxAttendees := 20

  /** `data.maxAttendees || 20`: absent and 0 give 20. */
  function MaxOrDefault(n: Option<int>): (r: int)
    ensures n.None? || n.value == 0 ==> r == DefaultMaxAttendees
    ensures n.Some? && n.value != 0 ==> r == n.value
  {
    match n
    case None => DefaultMaxAttendees
    case Some(v) => if v == 0 then DefaultMaxAttendees else v
  }

  /** The row `createOpenHouse` inserts: the new open house always starts with no attendees. */
  function InsertRowOf(data: NewOpenHouse): (row: InsertRow)
    ensures row.current_attendees == 0 && row.max_attendees == MaxOrDefault(data.maxAttendees)
    ensures row.property_id == data.propertyId && row.agent_id == data.agentId && row.date == data.date
    ensures row.start_time == data.startTime && row.end_time == data.endTime
    ensures row.address == data.address && row.city == data.city && row.province == data.province
    ensures row.postal_code == data.postalCode
  {
    InsertRow(data.propertyId, data.agentId, data.date, data.startTime, data.endTime,
              MaxOrDefault(data.maxAttendees), 0, data.address, data.city, data.province, data.postalCode)
  }

  /** The inserted row as the list query later reads it back, with its id and joins. */
  function Stored(row: InsertRow, id: string, agent: Option<AgentJoin>, property: Option<PropertyJoin>): OpenHouseRow {
    OpenHouseRow(id, row.property_id, row.date, row.start_time, row.end_time, row.agent_id,
                 row.address, row.city, row.province, row.postal_code,
                 Some(row.max_attendees), Some(row.current_attendees), agent, property)
  }

  /**
   * Creating then listing: the listing carries the new open house's own fields
   * back, with no attendees and its attendee limit defaulted to 20.
   */
  lemma CreateThenList(data: NewOpenHouse, id: string, agent: Option<AgentJoin>, property: Option<PropertyJoin>)
    ensures var l := ToListing(Stored(InsertRowOf(data), id, agent, property));
            l.id == id && l.propertyId == data.propertyId && l.agentId == data.agentId &&
            l.date == data.date && l.startTime == data.startTime && l.endTime == data.endTime &&
            l.address == data.address && l.city == data.city && l.province == data.province &&
            l.postalCode == data.postalCode && l.currentAttendees == 0 &&
            l.maxAttendees == Some(if data.maxAttendees.None? || data.maxAttendees == Some(0) then 20 else data.maxAttendees.value)
  {
  }

  /** `createOpenHouse`: sends the insert row and returns the backend's record, or rethrows its failure. */
  function CreateOpenHouse(data: NewOpenHouse, response: Result<OpenHouseRow, string>): (r: (InsertRow, Result<OpenHouseRow, string>))
    ensures r.0 == InsertRowOf(data) && r.1 == response
  {
    (InsertRowOf(data), response)
  }
}
