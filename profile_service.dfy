/**
 * The profile service of src/services/auth/profileService.ts: which table a
 * role uses, the default profile created when none exists, the missing
 * fields `ensureProfileFields` fills in, and the create-or-ensure decision
 * of `getUserProfile`.
 *
 * A profile row is a map from column names to values, as the untyped
 * record (`any`) the service reads; an absent key is `undefined`. The
 * query, insert and update calls are replaced by the answers they give.
 */
module ProfileService {
  import opened Wrappers

  datatype Role = Agent | Client

  /** A column value of a row. */
  datatype Value = Null | Text(s: string) | Number(n: int) | Bool(b: bool) | List(items: seq<string>)

  type Row = map<string, Value>

  /** A backend error with its PostgREST code. */
  datatype DbError = DbError(code: string, message: string)

  /** The code of "the query returned no row", which is not an error for this service. */
  const NoRows := "PGRST116"

  /** JavaScript falsiness of a column: `undefined`, `null`, '', 0 and false. An empty list is truthy. */
  predicate IsFalsy(row: Row, key: string) {
    key !in row || row[key] == Null || row[key] == Text("") || row[key] == Number(0) || row[key] == Bool(false)
  }

  function ProfileTable(role: Role): string {
    match role
    case Agent => "agent_profiles"
    case Client => "client_profiles"
  }

  /** The columns `ensureProfileFields` checks for a role, with the value each gets when missing. */
  function FieldDefaults(role: Role): (m: Row)
    ensures role == Agent ==> m.Keys == {"areas", "languages", "certifications", "subscription_status", "subscription_tier"}
    ensures role == Client ==> m.Keys == {"preferred_areas", "preferred_contact"}
  {
    match role
    case Agent =>
      map["areas" := List([]), "languages" := List([]), "certifications" := List([]),
          "subscription_status" := Text("trial"), "subscription_tier" := Text("basic")]
    case Client =>
      map["preferred_areas" := List([]), "preferred_contact" := Text("email")]
  }

  /** The update that fills exactly the role's falsy columns with their defaults. */
  function MissingDefaults(profile: Row, role: Role): (u: Row)
    ensures forall k :: k in u <==> k in FieldDefaults(role) && IsFalsy(profile, k)
    ensures forall k :: k in u ==> u[k] == FieldDefaults(role)[k]
  {
    var d := FieldDefaults(role);
    map k | k in d && IsFalsy(profile, k) :: d[k]
  }

  /** One `if (!profile.key) updates.key = v`. */
  function Fill(u: Row, profile: Row, key: string, v: Value): (r: Row)
    ensures IsFalsy(profile, key) ==> r == u[key := v]
    ensures !IsFalsy(profile, key) ==> r == u
  {
    if IsFalsy(profile, key) then u[key := v] else u
  }

  /** The five agent columns filled in turn, from an empty update. */
  function AgentFills(profile: Row): Row {
    Fill(Fill(Fill(Fill(Fill(map[], profile, "areas", List([])), profile, "languages", List([])),
      profile, "certifications", List([])), profile, "subscription_status", Text("trial")),
      profile, "subscription_tier", Text("basic"))
  }

  /** An agent's missing defaults are its five columns filled in turn. */
  lemma AgentMissingInTurn(profile: Row)
    ensures MissingDefaults(profile, Agent) == AgentFills(profile)
  {
    AgentMissingKeys(profile);
    AgentMissingValues(profile);
  }

  lemma AgentMissingKeys(profile: Row)
    ensures forall k :: k in MissingDefaults(profile, Agent) <==> k in AgentFills(profile)
  {
    AgentColumnsDistinct();
  }

  lemma AgentMissingValues(profile: Row)
    ensures forall k :: k in MissingDefaults(profile, Agent) && k in AgentFills(profile) ==>
                        MissingDefaults(profile, Agent)[k] == AgentFills(profile)[k]
  {
    AgentColumnsDistinct();
  }

  /** The five agent columns are five different names. */
  lemma AgentColumnsDistinct()
    ensures "areas" != "languages" && "areas" != "certifications" && "areas" != "subscription_status"
    ensures "areas" != "subscription_tier" && "languages" != "certifications" && "languages" != "subscription_status"
    ensures "languages" != "subscription_tier" && "certifications" != "subscription_status"
    ensures "certifications" != "subscription_tier" && "subscription_status" != "subscription_tier"
  {
    assert |"areas"| == 5 && |"languages"| == 9 && |"certifications"| == 14;
    assert |"subscription_status"| == 19 && |"subscription_tier"| == 17;
  }

  /** A client's missing defaults are its two columns filled in turn. */
  lemma ClientMissingInTurn(profile: Row)
    ensures MissingDefaults(profile, Client) ==
              Fill(Fill(map[], profile, "preferred_areas", List([])), profile, "preferred_contact", Text("email"))
  {
  }

  /** `ensureProfileFields`' sequence of conditional assignments to `updates`. */
  method EnsureUpdates(profile: Row, role: Role) returns (updates: Row)
    ensures updates == MissingDefaults(profile, role)
  {
    if role == Agent { AgentMissingInTurn(profile); } else { ClientMissingInTurn(profile); }
    updates := map[];
    if role == Agent {
      if IsFalsy(profile, "areas") { updates := updates["areas" := List([])]; }
      if IsFalsy(profile, "languages") { updates := updates["languages" := List([])]; }
      if IsFalsy(profile, "certifications") { updates := updates["certifications" := List([])]; }
      if IsFalsy(profile, "subscription_status") { updates := updates["subscription_status" := Text("trial")]; }
      if IsFalsy(profile, "subscription_tier") { updates := updates["subscription_tier" := Text("basic")]; }
    } else {
      if IsFalsy(profile, "preferred_areas") { updates := updates["preferred_areas" := List([])]; }
      if IsFalsy(profile, "preferred_contact") { updates := updates["preferred_contact" := Text("email")]; }
    }
  }

  /** A column that already holds a list, even an empty one, is left alone. */
  lemma ExistingListKept(profile: Row, role: Role, key: string)
    requires key in profile && profile[key].List?
    ensures key !in MissingDefaults(profile, role)
  {
  }

  /** After the update is applied, nothing is missing any more: ensuring is idempotent. */
  lemma EnsureIdempotent(profile: Row, role: Role)
    ensures MissingDefaults(profile + MissingDefaults(profile, role), role) == map[]
  {
    var u := MissingDefaults(profile, role);
    var after := profile + u;
    forall k | k in FieldDefaults(role) ensures !IsFalsy(after, k) {
      if k in u {
        assert after[k] == FieldDefaults(role)[k];
      }
    }
    assert MissingDefaults(after, role).Keys == {};
  }

  /** `createDefaultProfile`'s record; only agents get the subscription and list columns. */
  function DefaultProfile(userId: string, role: Role): (row: Row)
    ensures row.Keys == {"user_id", "name"} + (if role == Agent then FieldDefaults(Agent).Keys else {})
    ensures row["user_id"] == Text(userId)
    ensures row["name"] == Text(if role == Agent then "New Agent" else "New Client")
    ensures role == Agent ==> forall k :: k in FieldDefaults(Agent) ==> row[k] == FieldDefaults(Agent)[k]
  {
    var base := map["user_id" := Text(userId), "name" := Text(if role == Agent then "New Agent" else "New Client")];
    if role == Agent then base + FieldDefaults(Agent) else base
  }

  /** An agent's default profile passes `ensureProfileFields` without a write. */
  lemma AgentDefaultComplete(userId: string)
    ensures MissingDefaults(DefaultProfile(userId, Agent), Agent) == map[]
  {
    var a := DefaultProfile(userId, Agent);
    forall k | k in FieldDefaults(Agent) ensures !IsFalsy(a, k) {
      assert a[k] == FieldDefaults(Agent)[k];
    }
    assert MissingDefaults(a, Agent).Keys == {};
  }

  /** A client's default profile has neither client column, so ensuring it would write both defaults. */
  lemma ClientDefaultIncomplete(userId: string)
    ensures MissingDefaults(DefaultProfile(userId, Client), Client) == FieldDefaults(Client)
  {
    var c := DefaultProfile(userId, Client);
    assert c.Keys == {"user_id", "name"};
    assert "preferred_areas" !in c && "preferred_contact" !in c;
    var u := MissingDefaults(c, Client);
    assert u.Keys == FieldDefaults(Client).Keys;
  }

  /** What the service does after the first query, before any write answers. */
  datatype Step =
    | Fail(error: DbError)
    | Create(table: string, row: Row)
    | Update(table: string, userIdValue: Option<Value>, updates: Row)
    | Return(profile: Row)

  /**
   * `getUserProfile` after the select: an error other than "no rows" is
   * thrown; no profile means the default profile is inserted; otherwise the
   * missing columns are written, or the profile is returned when none is missing.
   */
  function NextStep(userId: string, role: Role, profile: Option<Row>, error: Option<DbError>): (s: Step)
    ensures error.Some? && error.value.code != NoRows ==> s == Fail(error.value)
    ensures (error.None? || error.value.code == NoRows) && profile.None? ==>
              s == Create(ProfileTable(role), DefaultProfile(userId, role))
    ensures (error.None? || error.value.code == NoRows) && profile.Some? ==>
              var u := MissingDefaults(profile.value, role);
              (u == map[] ==> s == Return(profile.value)) &&
              (u != map[] ==> s.Update? && s.table == ProfileTable(role) && s.updates == u &&
                              s.userIdValue == (if "user_id" in profile.value then Some(profile.value["user_id"]) else None))
  {
    if error.Some? && error.value.code != NoRows then Fail(error.value)
    else match profile
      case None => Create(ProfileTable(role), DefaultProfile(userId, role))
      case Some(p) =>
        var u := MissingDefaults(p, role);
        if u == map[] then Return(p)
        else Update(ProfileTable(role), if "user_id" in p then Some(p["user_id"]) else None, u)
  }

  /** The service's result: the step's own outcome, or the write's answer when it writes. */
  function GetUserProfile(userId: string, role: Role, profile: Option<Row>, error: Option<DbError>,
                          write: Result<Row, DbError>): (r: Result<Row, DbError>)
    ensures NextStep(userId, role, profile, error).Fail? ==> r == Err(NextStep(userId, role, profile, error).error)
    ensures NextStep(userId, role, profile, error).Return? ==> r == Ok(NextStep(userId, role, profile, error).profile)
    ensures NextStep(userId, role, profile, error).Create? || NextStep(userId, role, profile, error).Update? ==> r == write
  {
    match NextStep(userId, role, profile, error)
    case Fail(e) => Err(e)
    case Return(p) => Ok(p)
    case Create(_, _) => write
    case Update(_, _, _) => write
  }

  /** A fetched profile with every column of its role set is returned as it is, with no write. */
  lemma CompleteProfileReturned(userId: string, role: Role, profile: Row, write: Result<Row, DbError>)
    requires forall k :: k in FieldDefaults(role) ==> !IsFalsy(profile, k)
    ensures GetUserProfile(userId, role, Some(profile), None, write) == Ok(profile)
  {
    assert MissingDefaults(profile, role).Keys == {};
  }
}
