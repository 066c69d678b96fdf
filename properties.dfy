/**
 * The listing hook of src/hooks/useProperties.ts: the agent filter of the
 * fetch query, and the local list updates of add / update / delete with
 * their unauthenticated guard and error messages.
 *
 * Each backend call is replaced by the answer it gives, passed in; the
 * signed-in user is the auth store's user id.
 */
module Properties {
  import opened Wrappers
  import opened Seqs
  import opened Text
  import opened PropertyTypes

  // ---- The agent filter ----

  predicate IsHexDigit(c: char) {
    '0' <= c <= '9' || 'a' <= c <= 'f' || 'A' <= c <= 'F'
  }

  /** The positions of the dashes in `xxxxxxxx-xxxx-xxxx-xxxx-xxxxxxxxxxxx`. */
  predicate IsDashPosition(i: int) {
    i == 8 || i == 13 || i == 18 || i == 23
  }

  /** `/^[0-9a-f]{8}-[0-9a-f]{4}-[0-9a-f]{4}-[0-9a-f]{4}-[0-9a-f]{12}$/i.test(s)`. */
  predicate IsUuid(s: string) {
    |s| == 36 &&
    forall i :: 0 <= i < 36 ==> if IsDashPosition(i) then s[i] == '-' else IsHexDigit(s[i])
  }

  /** The `agent_id` equality filter of the fetch, present only for a UUID-shaped agent id. */
  function AgentFilter(agentId: Option<string>): (f: Option<string>)
    ensures f.Some? <==> agentId.Some? && IsUuid(agentId.value)
    ensures f.Some? ==> f == agentId
  {
    match agentId
    case Some(a) => if a != "" && IsUuid(a) then Some(a) else None
    case None => None
  }

  /** The pattern ignores case: lower-casing an id does not change whether it is a UUID. */
  lemma UuidIgnoresCase(s: string)
    ensures IsUuid(ToLower(s)) <==> IsUuid(s)
  {
    var t := ToLower(s);
    if |s| == 36 {
      forall i | 0 <= i < 36
        ensures (if IsDashPosition(i) then t[i] == '-' else IsHexDigit(t[i])) <==>
                (if IsDashPosition(i) then s[i] == '-' else IsHexDigit(s[i]))
      {
        assert t[i] == LowerChar(s[i]);
      }
    }
  }

  /** A sample UUID passes; an id such as 'agent1' or the empty id queries all properties. */
  lemma AgentFilterExamples()
    ensures AgentFilter(Some("123e4567-E89B-12d3-a456-426614174000")) == Some("123e4567-E89B-12d3-a456-426614174000")
    ensures AgentFilter(Some("agent1")) == None
    ensures AgentFilter(Some("")) == None
    ensures AgentFilter(None) == None
  {
    var u := "123e4567-E89B-12d3-a456-426614174000";
    assert IsUuid(u) by {
      forall i | 0 <= i < 36 ensures if IsDashPosition(i) then u[i] == '-' else IsHexDigit(u[i]) {
      }
    }
  }

  // ---- Errors ----

  /**
   * A thrown value: `isError` tells whether it is an `Error` instance, whose
   * `message` the hook shows. Backend errors are plain objects.
   */
  datatype Failure = Failure(isError: bool, message: string)

  const NotAuthenticated := Failure(true, "User not authenticated")

  /** `err instanceof Error ? err.message : fallback`. */
  function ErrorText(f: Failure, fallback: string): (t: string)
    ensures f.isError ==> t == f.message
    ensures !f.isError ==> t == fallback
  {
    if f.isError then f.message else fallback
  }

  // ---- The list updates ----

  /** The fields of a new listing (`Omit<Property, 'id' | 'createdAt' | 'updatedAt'>`). */
  datatype PropertyData = PropertyData(
    title: string,
    address: string,
    city: string,
    category: PropertyCategory,
    propertyType: string,
    price: int,
    agentId: string)

  /** The inserted row: the listing's fields plus `agent_id` set to the signed-in user. */
  datatype InsertRow = InsertRow(data: PropertyData, agent_id: string)

  /** `prev.map(p => p.id === id ? data : p)`. */
  function ReplaceById(properties: seq<Property>, id: string, data: Property): (r: seq<Property>)
    ensures |r| == |properties|
    ensures forall i :: 0 <= i < |r| ==> r[i] == if properties[i].id == id then data else properties[i]
  {
    Map(properties, (p: Property) => if p.id == id then data else p)
  }

  /** Replacing by an id no listing has changes nothing; replacing twice with the same record is replacing once. */
  lemma ReplaceByIdFacts(properties: seq<Property>, id: string, data: Property)
    ensures (forall i :: 0 <= i < |properties| ==> properties[i].id != id) ==> ReplaceById(properties, id, data) == properties
    ensures data.id == id ==> ReplaceById(ReplaceById(properties, id, data), id, data) == ReplaceById(properties, id, data)
  {
    var once := ReplaceById(properties, id, data);
    if forall i :: 0 <= i < |properties| ==> properties[i].id != id {
      assert forall i :: 0 <= i < |once| ==> once[i] == properties[i];
    }
    if data.id == id {
      var twice := ReplaceById(once, id, data);
      assert forall i :: 0 <= i < |once| ==> twice[i] == once[i];
    }
  }

  /** `prev.filter(p => p.id !== id)`. */
  function RemoveById(properties: seq<Property>, id: string): (r: seq<Property>)
    ensures IsSubsequence(r, properties)
    ensures forall p :: p in r <==> p in properties && p.id != id
    ensures forall p :: multiset(r)[p] == if p.id != id then multiset(properties)[p] else 0
  {
    FilterIsSubsequence(properties, (p: Property) => p.id != id);
    FilterMembers(properties, (p: Property) => p.id != id);
    FilterCounts(properties, (p: Property) => p.id != id);
    Filter(properties, (p: Property) => p.id != id)
  }

  /** Deleting an absent id changes nothing, and deleting twice is deleting once. */
  lemma RemoveByIdFacts(properties: seq<Property>, id: string)
    ensures (forall i :: 0 <= i < |properties| ==> properties[i].id != id) ==> RemoveById(properties, id) == properties
    ensures RemoveById(RemoveById(properties, id), id) == RemoveById(properties, id)
  {
    if forall i :: 0 <= i < |properties| ==> properties[i].id != id {
      FilterAll(properties, (p: Property) => p.id != id);
    }
    FilterIdempotent(properties, (p: Property) => p.id != id);
  }

  /** The hook's state. */
  class PropertyStore {
    var properties: seq<Property>
    var error: Option<string>

    constructor ()
      ensures properties == [] && error == None
    {
      properties := [];
      error := None;
    }

    /** `fetchProperties` with the query's answer: the rows (`data || []`) or a failure. */
    method FetchProperties(response: Result<Option<seq<Property>>, Failure>)
      modifies this
      ensures response.Ok? ==> properties == response.value.GetOr([]) && error == old(error)
      ensures response.Err? ==>
        properties == old(properties) && error == Some(ErrorText(response.error, "Failed to fetch properties"))
    {
      match response
      case Ok(data) => properties := data.GetOr([]);
      case Err(f) => error := Some(ErrorText(f, "Failed to fetch properties"));
    }

    /**
     * `addProperty`: without a user it fails with 'User not authenticated' and
     * sends nothing; otherwise it sends the row with `agent_id` = the user and,
     * on success, appends the returned record.
     */
    method AddProperty(user: Option<string>, propertyData: PropertyData, response: Result<Property, Failure>)
      returns (sent: Option<InsertRow>, r: Result<Property, Failure>)
      modifies this
      ensures user.None? ==>
        sent == None && r == Err(NotAuthenticated) && properties == old(properties) &&
        error == Some("User not authenticated")
      ensures user.Some? ==> sent == Some(InsertRow(propertyData, user.value)) && r == response
      ensures user.Some? && response.Ok? ==> properties == old(properties) + [response.value] && error == old(error)
      ensures user.Some? && response.Err? ==>
        properties == old(properties) && error == Some(ErrorText(response.error, "Failed to add property"))
    {
      if user.None? {
        error := Some(ErrorText(NotAuthenticated, "Failed to add property"));
        return None, Err(NotAuthenticated);
      }
      sent := Some(InsertRow(propertyData, user.value));
      r := response;
      match response
      case Ok(data) =>
        properties := properties + [data];
      case Err(f) =>
        error := Some(ErrorText(f, "Failed to add property"));
    }

    /** `updateProperty`: on success every listing with that id becomes the returned record. */
    method UpdateProperty(user: Option<string>, id: string, response: Result<Property, Failure>)
      returns (r: Result<Property, Failure>)
      modifies this
      ensures user.None? ==>
        r == Err(NotAuthenticated) && properties == old(properties) && error == Some("User not authenticated")
      ensures user.Some? ==> r == response
      ensures user.Some? && response.Ok? ==>
        properties == ReplaceById(old(properties), id, response.value) && error == old(error)
      ensures user.Some? && response.Err? ==>
        properties == old(properties) && error == Some(ErrorText(response.error, "Failed to update property"))
    {
      if user.None? {
        error := Some(ErrorText(NotAuthenticated, "Failed to update property"));
        return Err(NotAuthenticated);
      }
      r := response;
      match response
      case Ok(data) =>
        properties := ReplaceById(properties, id, data);
      case Err(f) =>
        error := Some(ErrorText(f, "Failed to update property"));
    }

    /** `deleteProperty`: on success the listings with that id are dropped. `failure` is the delete's error, if any. */
    method DeleteProperty(user: Option<string>, id: string, failure: Option<Failure>)
      returns (r: Result<(), Failure>)
      modifies this
      ensures user.None? ==>
        r == Err(NotAuthenticated) && properties == old(properties) && error == Some("User not authenticated")
      ensures user.Some? && failure.None? ==> r == Ok(()) && properties == RemoveById(old(properties), id) && error == old(error)
      ensures user.Some? && failure.Some? ==>
        r == Err(failure.value) && properties == old(properties) &&
        error == Some(ErrorText(failure.value, "Failed to delete property"))
    {
      if user.None? {
        error := Some(ErrorText(NotAuthenticated, "Failed to delete property"));
        return Err(NotAuthenticated);
      }
      if failure.Some? {
        error := Some(ErrorText(failure.value, "Failed to delete property"));
        return Err(failure.value);
      }
      properties := RemoveById(properties, id);
      return Ok(());
    }
  }
}
