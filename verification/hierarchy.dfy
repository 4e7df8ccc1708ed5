/**
 * Hierarchy walk and candidate list (`getEligibleUsersForSubstation`).
 * The org collections (substations, subdivisions, divisions, circles) are maps
 * from document id to record; the users collection is a sequence in the order
 * its queries return documents, and a query is a filter over it.
 */
module Hierarchy {
  import opened Wrappers

  type Id = string

  /** A link is followed only when it holds a non-empty id (the code tests it for truthiness). */
  predicate IsSet(link: Option<Id>) { link.Some? && link.value != "" }

  /**
   * A link as the walk uses it: absent when unset. It never invents an id and never yields the
   * empty one, so a level the walk reaches always names a stored parent, which the level
   * queries then match against the users' scope ids.
   */
  function Link(link: Option<Id>): (r: Option<Id>)
    ensures r == None || r == link
    ensures r.Some? ==> r.value != ""
    ensures link == Some("") ==> r == None
  {
    if IsSet(link) then link else None
  }

  datatype Substation = Substation(subdivisionId: Option<Id>)
  datatype Subdivision = Subdivision(divisionId: Option<Id>)
  datatype Division = Division(circleId: Option<Id>)
  datatype Circle = Circle(zoneId: Option<Id>)

  datatype Org = Org(
    substations: map<Id, Substation>,
    subdivisions: map<Id, Subdivision>,
    divisions: map<Id, Division>,
    circles: map<Id, Circle>)

  datatype Role = SubdivisionManager | DivisionManager | CircleManager | ZoneManager | Admin | OtherRole(name: string)

  datatype Level = SubdivisionLevel | DivisionLevel | CircleLevel | ZoneLevel | AdminLevel

  datatype AssignedLevels = AssignedLevels(
    subdivisionId: Option<Id>, divisionId: Option<Id>, circleId: Option<Id>, zoneId: Option<Id>)

  /**
   * A user document: its id, the `userId` field if the document stores one, the
   * role and the assigned hierarchy nodes.
   */
  datatype User = User(docId: Id, storedUserId: Option<Id>, role: Role, assignedLevels: AssignedLevels)

  /** An entry of the candidate list: `{userId, role, level, ...doc.data()}`. */
  datatype Candidate = Candidate(userId: Id, role: Role, level: Level)

  /** The spread of the document data comes last, so a stored `userId` field wins over the document id. */
  function CandidateId(u: User): Id {
    if u.storedUserId.Some? then u.storedUserId.value else u.docId
  }

  /** The hierarchy above a substation as far as the walk reaches; unset levels are None. */
  datatype Resolved = Resolved(subdivisionId: Id, divisionId: Option<Id>, circleId: Option<Id>, zoneId: Option<Id>)

  /** The walk substation -> subdivision -> division -> circle -> zone. */
  function Resolve(org: Org, substationId: Id): Option<Resolved> {
    if substationId !in org.substations then None
    else
      var sub := org.substations[substationId].subdivisionId;
      if !IsSet(sub) || sub.value !in org.subdivisions then None
      else
        var divisionId := Link(org.subdivisions[sub.value].divisionId);
        var circleId :=
          if divisionId.Some? && divisionId.value in org.divisions
          then Link(org.divisions[divisionId.value].circleId) else None;
        var zoneId :=
          if circleId.Some? && circleId.value in org.circles
          then Link(org.circles[circleId.value].zoneId) else None;
        Some(Resolved(sub.value, divisionId, circleId, zoneId))
  }

  /** Each level of the walk is reached only through the record of the level below it. */
  lemma ResolveFollowsLinks(org: Org, substationId: Id)
    ensures Resolve(org, substationId).None? <==>
      || substationId !in org.substations
      || !IsSet(org.substations[substationId].subdivisionId)
      || org.substations[substationId].subdivisionId.value !in org.subdivisions
    ensures Resolve(org, substationId).Some? ==>
      var h := Resolve(org, substationId).value;
      && org.substations[substationId].subdivisionId == Some(h.subdivisionId)
      && h.divisionId == Link(org.subdivisions[h.subdivisionId].divisionId)
      && (h.circleId.Some? <==>
            h.divisionId.Some? && h.divisionId.value in org.divisions
            && IsSet(org.divisions[h.divisionId.value].circleId))
      && (h.circleId.Some? ==> h.circleId == org.divisions[h.divisionId.value].circleId)
      && (h.zoneId.Some? <==>
            h.circleId.Some? && h.circleId.value in org.circles
            && IsSet(org.circles[h.circleId.value].zoneId))
      && (h.zoneId.Some? ==> h.zoneId == org.circles[h.circleId.value].zoneId)
  {
  }

  function RoleOf(level: Level): Role {
    match level
    case SubdivisionLevel => SubdivisionManager
    case DivisionLevel => DivisionManager
    case CircleLevel => CircleManager
    case ZoneLevel => ZoneManager
    case AdminLevel => Admin
  }

  function Rank(level: Level): nat {
    match level
    case SubdivisionLevel => 0
    case DivisionLevel => 1
    case CircleLevel => 2
    case ZoneLevel => 3
    case AdminLevel => 4
  }

  /** The assigned-level field a manager query filters on. */
  function AssignedAt(a: AssignedLevels, level: Level): Option<Id> {
    match level
    case SubdivisionLevel => a.subdivisionId
    case DivisionLevel => a.divisionId
    case CircleLevel => a.circleId
    case ZoneLevel => a.zoneId
    case AdminLevel => None
  }

  /** The query of one level: role equality, and for managers equality of the assigned node. */
  predicate Picks(u: User, level: Level, scope: Id) {
    u.role == RoleOf(level) && (level == AdminLevel || AssignedAt(u.assignedLevels, level) == Some(scope))
  }

  function CandidateAt(u: User, level: Level): Candidate {
    Candidate(CandidateId(u), RoleOf(level), level)
  }

  /** Result of one level's query, in collection order. */
  function Select(users: seq<User>, level: Level, scope: Id): seq<Candidate>
    decreases |users|
  {
    if users == [] then []
    else
      var u := users[|users| - 1];
      Select(users[..|users| - 1], level, scope) + (if Picks(u, level, scope) then [CandidateAt(u, level)] else [])
  }

  /** The candidate list of a resolved hierarchy: subdivision, division, circle, zone, admins. */
  function Candidates(users: seq<User>, h: Resolved): seq<Candidate> {
    Select(users, SubdivisionLevel, h.subdivisionId)
    + (if h.divisionId.Some? then Select(users, DivisionLevel, h.divisionId.value) else [])
    + (if h.circleId.Some? then Select(users, CircleLevel, h.circleId.value) else [])
    + (if h.zoneId.Some? then Select(users, ZoneLevel, h.zoneId.value) else [])
    + Select(users, AdminLevel, "")
  }

  /** What `getEligibleUsersForSubstation` returns when every read succeeds. */
  function EligibleUsers(org: Org, users: seq<User>, substationId: Id): seq<Candidate> {
    match Resolve(org, substationId)
    case None => []
    case Some(h) => Candidates(users, h)
  }

  /** Append the users one level's query returns, in collection order. */
  method PushLevel(eligible: seq<Candidate>, users: seq<User>, level: Level, scope: Id)
    returns (result: seq<Candidate>)
    ensures result == eligible + Select(users, level, scope)
  {
    result := eligible;
    for k := 0 to |users|
      invariant result == eligible + Select(users[..k], level, scope)
    {
      assert users[..k + 1][..k] == users[..k];
      if Picks(users[k], level, scope) {
        result := result + [CandidateAt(users[k], level)];
      }
    }
    assert users[..|users|] == users;
  }

  /** `getEligibleUsersForSubstation`: walk the hierarchy, then append each level's managers and the admins. */
  method GetEligibleUsersForSubstation(org: Org, users: seq<User>, substationId: Id)
    returns (eligible: seq<Candidate>)
    ensures eligible == EligibleUsers(org, users, substationId)
  {
    if substationId !in org.substations {
      return [];
    }
    var subdivisionId := org.substations[substationId].subdivisionId;
    if !IsSet(subdivisionId) {
      return [];
    }
    if subdivisionId.value !in org.subdivisions {
      return [];
    }
    var divisionId := org.subdivisions[subdivisionId.value].divisionId;
    var circleId: Option<Id> := None;
    var zoneId: Option<Id> := None;
    if IsSet(divisionId) {
      if divisionId.value in org.divisions {
        circleId := org.divisions[divisionId.value].circleId;
        if IsSet(circleId) {
          if circleId.value in org.circles {
            zoneId := org.circles[circleId.value].zoneId;
          }
        }
      }
    }
    eligible := [];
    eligible := PushLevel(eligible, users, SubdivisionLevel, subdivisionId.value);
    if IsSet(divisionId) {
      eligible := PushLevel(eligible, users, DivisionLevel, divisionId.value);
    }
    if IsSet(circleId) {
      eligible := PushLevel(eligible, users, CircleLevel, circleId.value);
    }
    if IsSet(zoneId) {
      eligible := PushLevel(eligible, users, ZoneLevel, zoneId.value);
    }
    eligible := PushLevel(eligible, users, AdminLevel, "");
  }

  /** A missing substation, an unset subdivision link or a missing subdivision gives no candidates. */
  lemma NoCandidatesWithoutSubdivision(org: Org, users: seq<User>, substationId: Id)
    requires
      || substationId !in org.substations
      || !IsSet(org.substations[substationId].subdivisionId)
      || org.substations[substationId].subdivisionId.value !in org.subdivisions
    ensures EligibleUsers(org, users, substationId) == []
  {
  }

  /** Exactly the users that one level's query picks, each at that level. */
  lemma {:induction false} SelectMembers(users: seq<User>, level: Level, scope: Id)
    ensures forall c :: c in Select(users, level, scope) <==>
      exists u :: u in users && Picks(u, level, scope) && c == CandidateAt(u, level)
    decreases |users|
  {
    if users != [] {
      var init := users[..|users| - 1];
      SelectMembers(init, level, scope);
      assert users == init + [users[|users| - 1]];
    }
  }

  /** A user is eligible by hierarchy when its role's assigned node is on the resolved chain, or it is an admin. */
  predicate InScope(u: User, h: Resolved) {
    match u.role
    case SubdivisionManager => u.assignedLevels.subdivisionId == Some(h.subdivisionId)
    case DivisionManager => h.divisionId.Some? && u.assignedLevels.divisionId == h.divisionId
    case CircleManager => h.circleId.Some? && u.assignedLevels.circleId == h.circleId
    case ZoneManager => h.zoneId.Some? && u.assignedLevels.zoneId == h.zoneId
    case Admin => true
    case OtherRole(_) => false
  }

  function LevelOf(r: Role): Level
    requires !r.OtherRole?
  {
    match r
    case SubdivisionManager => SubdivisionLevel
    case DivisionManager => DivisionLevel
    case CircleManager => CircleLevel
    case ZoneManager => ZoneLevel
    case Admin => AdminLevel
  }

  /**
   * The candidates of a resolved hierarchy are exactly the users in scope, each
   * recorded at the level of its role.
   */
  lemma CandidatesAreUsersInScope(users: seq<User>, h: Resolved)
    ensures forall c :: c in Candidates(users, h) <==>
      exists u :: u in users && InScope(u, h) && c == CandidateAt(u, LevelOf(u.role))
  {
    SelectMembers(users, SubdivisionLevel, h.subdivisionId);
    if h.divisionId.Some? { SelectMembers(users, DivisionLevel, h.divisionId.value); }
    if h.circleId.Some? { SelectMembers(users, CircleLevel, h.circleId.value); }
    if h.zoneId.Some? { SelectMembers(users, ZoneLevel, h.zoneId.value); }
    SelectMembers(users, AdminLevel, "");
    forall c | c in Candidates(users, h)
      ensures exists u :: u in users && InScope(u, h) && c == CandidateAt(u, LevelOf(u.role))
    {
    }
    forall u | u in users && InScope(u, h)
      ensures CandidateAt(u, LevelOf(u.role)) in Candidates(users, h)
    {
      assert Picks(u, LevelOf(u.role), match LevelOf(u.role)
        case SubdivisionLevel => h.subdivisionId
        case DivisionLevel => h.divisionId.value
        case CircleLevel => h.circleId.value
        case ZoneLevel => h.zoneId.value
        case AdminLevel => "");
    }
  }

  predicate SortedByLevel(cs: seq<Candidate>) {
    forall i, j :: 0 <= i < j < |cs| ==> Rank(cs[i].level) <= Rank(cs[j].level)
  }

  lemma {:induction false} SelectAtLevel(users: seq<User>, level: Level, scope: Id)
    ensures forall c :: c in Select(users, level, scope) ==> c.level == level
  {
    SelectMembers(users, level, scope);
  }

  /** Appending a block whose levels are all at least those already present keeps the order. */
  lemma AppendKeepsOrder(a: seq<Candidate>, b: seq<Candidate>, level: Level)
    requires SortedByLevel(a)
    requires forall c :: c in a ==> Rank(c.level) <= Rank(level)
    requires forall c :: c in b ==> c.level == level
    ensures SortedByLevel(a + b)
  {
    var ab := a + b;
    forall i, j | 0 <= i < j < |ab|
      ensures Rank(ab[i].level) <= Rank(ab[j].level)
    {
      if j < |a| {
        assert ab[i] == a[i] && ab[j] == a[j];
      } else if i < |a| {
        assert ab[i] in a && ab[j] in b;
      } else {
        assert ab[i] in b && ab[j] in b;
      }
    }
  }

  /** Five blocks, one per level in rank order, concatenate to a list sorted by level. */
  lemma BlocksOrdered(s1: seq<Candidate>, s2: seq<Candidate>, s3: seq<Candidate>, s4: seq<Candidate>, s5: seq<Candidate>)
    requires forall c :: c in s1 ==> c.level == SubdivisionLevel
    requires forall c :: c in s2 ==> c.level == DivisionLevel
    requires forall c :: c in s3 ==> c.level == CircleLevel
    requires forall c :: c in s4 ==> c.level == ZoneLevel
    requires forall c :: c in s5 ==> c.level == AdminLevel
    ensures SortedByLevel(s1 + s2 + s3 + s4 + s5)
  {
    AppendKeepsOrder([], s1, SubdivisionLevel);
    assert [] + s1 == s1;
    AppendKeepsOrder(s1, s2, DivisionLevel);
    AppendKeepsOrder(s1 + s2, s3, CircleLevel);
    AppendKeepsOrder(s1 + s2 + s3, s4, ZoneLevel);
    AppendKeepsOrder(s1 + s2 + s3 + s4, s5, AdminLevel);
  }

  /** Candidates come out level by level: subdivision, division, circle, zone, admin. */
  lemma CandidatesOrderedByLevel(org: Org, users: seq<User>, substationId: Id)
    ensures SortedByLevel(EligibleUsers(org, users, substationId))
  {
    if Resolve(org, substationId).Some? {
      var h := Resolve(org, substationId).value;
      SelectAtLevel(users, SubdivisionLevel, h.subdivisionId);
      if h.divisionId.Some? { SelectAtLevel(users, DivisionLevel, h.divisionId.value); }
      if h.circleId.Some? { SelectAtLevel(users, CircleLevel, h.circleId.value); }
      if h.zoneId.Some? { SelectAtLevel(users, ZoneLevel, h.zoneId.value); }
      SelectAtLevel(users, AdminLevel, "");
      BlocksOrdered(
        Select(users, SubdivisionLevel, h.subdivisionId),
        if h.divisionId.Some? then Select(users, DivisionLevel, h.divisionId.value) else [],
        if h.circleId.Some? then Select(users, CircleLevel, h.circleId.value) else [],
        if h.zoneId.Some? then Select(users, ZoneLevel, h.zoneId.value) else [],
        Select(users, AdminLevel, ""));
    }
  }

  /**
   * A level above a break in the chain contributes nobody: no division, circle or
   * zone managers without a division link, none at circle or zone level unless the
   * division record exists with a circle link, none at zone level unless the circle
   * record exists with a zone link.
   */
  lemma TruncatedLevelsContributeNobody(org: Org, users: seq<User>, substationId: Id)
    requires substationId in org.substations
    requires IsSet(org.substations[substationId].subdivisionId)
    requires org.substations[substationId].subdivisionId.value in org.subdivisions
    ensures
      var sub := org.subdivisions[org.substations[substationId].subdivisionId.value];
      !IsSet(sub.divisionId) ==>
        forall c :: c in EligibleUsers(org, users, substationId) ==>
          c.level in {SubdivisionLevel, AdminLevel}
    ensures
      var sub := org.subdivisions[org.substations[substationId].subdivisionId.value];
      (!IsSet(sub.divisionId) || sub.divisionId.value !in org.divisions
        || !IsSet(org.divisions[sub.divisionId.value].circleId)) ==>
        forall c :: c in EligibleUsers(org, users, substationId) ==>
          c.level in {SubdivisionLevel, DivisionLevel, AdminLevel}
    ensures
      var sub := org.subdivisions[org.substations[substationId].subdivisionId.value];
      (!IsSet(sub.divisionId) || sub.divisionId.value !in org.divisions
        || !IsSet(org.divisions[sub.divisionId.value].circleId)
        || org.divisions[sub.divisionId.value].circleId.value !in org.circles
        || !IsSet(org.circles[org.divisions[sub.divisionId.value].circleId.value].zoneId)) ==>
        forall c :: c in EligibleUsers(org, users, substationId) ==> c.level != ZoneLevel
  {
    var h := Resolve(org, substationId).value;
    CandidatesAreUsersInScope(users, h);
  }

  predicate DistinctIds(cs: seq<Candidate>) {
    forall i, j :: 0 <= i < j < |cs| ==> cs[i].userId != cs[j].userId
  }

  lemma {:induction false} SelectDistinct(users: seq<User>, level: Level, scope: Id)
    requires forall i, j :: 0 <= i < j < |users| ==> CandidateId(users[i]) != CandidateId(users[j])
    ensures DistinctIds(Select(users, level, scope))
    decreases |users|
  {
    if users != [] {
      var init := users[..|users| - 1];
      var u := users[|users| - 1];
      SelectDistinct(init, level, scope);
      SelectMembers(init, level, scope);
      var s := Select(init, level, scope);
      forall c | c in s
        ensures c.userId != CandidateId(u)
      {
        var v :| v in init && Picks(v, level, scope) && c == CandidateAt(v, level);
        var k :| 0 <= k < |init| && init[k] == v;
        assert users[k] == v;
      }
      if Picks(u, level, scope) {
        var r := s + [CandidateAt(u, level)];
        forall i, j | 0 <= i < j < |r|
          ensures r[i].userId != r[j].userId
        {
          if j == |s| {
            assert r[i] in s;
          }
        }
      }
    }
  }

  lemma DistinctAppend(a: seq<Candidate>, b: seq<Candidate>)
    requires DistinctIds(a) && DistinctIds(b)
    requires forall x, y :: x in a && y in b ==> x.userId != y.userId
    ensures DistinctIds(a + b)
  {
    var ab := a + b;
    forall i, j | 0 <= i < j < |ab|
      ensures ab[i].userId != ab[j].userId
    {
      if j < |a| {
        assert ab[i] == a[i] && ab[j] == a[j];
      } else if i < |a| {
        assert ab[i] in a && ab[j] in b;
      } else {
        assert ab[i] == b[i - |a|] && ab[j] == b[j - |a|];
      }
    }
  }

  /** Five blocks with distinct ids each, one level per block, and one level per id, have distinct ids. */
  lemma BlocksDistinct(s1: seq<Candidate>, s2: seq<Candidate>, s3: seq<Candidate>, s4: seq<Candidate>, s5: seq<Candidate>)
    requires DistinctIds(s1) && DistinctIds(s2) && DistinctIds(s3) && DistinctIds(s4) && DistinctIds(s5)
    requires forall c :: c in s1 ==> c.level == SubdivisionLevel
    requires forall c :: c in s2 ==> c.level == DivisionLevel
    requires forall c :: c in s3 ==> c.level == CircleLevel
    requires forall c :: c in s4 ==> c.level == ZoneLevel
    requires forall c :: c in s5 ==> c.level == AdminLevel
    requires forall x, y :: x in s1 + s2 + s3 + s4 + s5 && y in s1 + s2 + s3 + s4 + s5 && x.userId == y.userId ==> x.level == y.level
    ensures DistinctIds(s1 + s2 + s3 + s4 + s5)
  {
    DistinctAppend(s1, s2);
    DistinctAppend(s1 + s2, s3);
    DistinctAppend(s1 + s2 + s3, s4);
    DistinctAppend(s1 + s2 + s3 + s4, s5);
  }

  /** Two candidates of one resolved hierarchy with one id come from one user, so share a level. */
  lemma OneIdOneLevel(users: seq<User>, h: Resolved)
    requires forall i, j :: 0 <= i < j < |users| ==> CandidateId(users[i]) != CandidateId(users[j])
    ensures forall x, y :: x in Candidates(users, h) && y in Candidates(users, h) && x.userId == y.userId ==> x.level == y.level
  {
    CandidatesAreUsersInScope(users, h);
    forall x, y | x in Candidates(users, h) && y in Candidates(users, h) && x.userId == y.userId
      ensures x.level == y.level
    {
      var u :| u in users && InScope(u, h) && x == CandidateAt(u, LevelOf(u.role));
      var v :| v in users && InScope(v, h) && y == CandidateAt(v, LevelOf(v.role));
      var i :| 0 <= i < |users| && users[i] == u;
      var j :| 0 <= j < |users| && users[j] == v;
      assert i == j;
    }
  }

  /**
   * Every user has one role, so when user ids are unique each user appears in the
   * candidate list at most once, even though an admin query and a manager query
   * both run.
   */
  lemma CandidatesHaveDistinctIds(org: Org, users: seq<User>, substationId: Id)
    requires forall i, j :: 0 <= i < j < |users| ==> CandidateId(users[i]) != CandidateId(users[j])
    ensures DistinctIds(EligibleUsers(org, users, substationId))
  {
    if Resolve(org, substationId).Some? {
      var h := Resolve(org, substationId).value;
      SelectDistinct(users, SubdivisionLevel, h.subdivisionId);
      SelectDistinct(users, DivisionLevel, if h.divisionId.Some? then h.divisionId.value else "");
      SelectDistinct(users, CircleLevel, if h.circleId.Some? then h.circleId.value else "");
      SelectDistinct(users, ZoneLevel, if h.zoneId.Some? then h.zoneId.value else "");
      SelectDistinct(users, AdminLevel, "");
      SelectAtLevel(users, SubdivisionLevel, h.subdivisionId);
      if h.divisionId.Some? { SelectAtLevel(users, DivisionLevel, h.divisionId.value); }
      if h.circleId.Some? { SelectAtLevel(users, CircleLevel, h.circleId.value); }
      if h.zoneId.Some? { SelectAtLevel(users, ZoneLevel, h.zoneId.value); }
      SelectAtLevel(users, AdminLevel, "");
      OneIdOneLevel(users, h);
      BlocksDistinct(
        Select(users, SubdivisionLevel, h.subdivisionId),
        if h.divisionId.Some? then Select(users, DivisionLevel, h.divisionId.value) else [],
        if h.circleId.Some? then Select(users, CircleLevel, h.circleId.value) else [],
        if h.zoneId.Some? then Select(users, ZoneLevel, h.zoneId.value) else [],
        Select(users, AdminLevel, ""));
    }
  }
}
