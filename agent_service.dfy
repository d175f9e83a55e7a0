/** The agent store with group isolation: agents are listed per group, newest
    first, stamped with the creating group, and partially updated with only
    the fields that were given. */
module AgentService {
  import opened Wrappers
  import opened Values
  import opened UserContext

  /** A stored agent. `fields` holds the columns of the create and update
      schemas; the group columns and the creation time are kept apart. */
  datatype Agent = Agent(
    id: string,
    fields: Dictionary,
    groupId: Option<string>,
    createdByEmail: Option<string>,
    createdAt: int)

  /** `Agent.group_id.in_(group_ids)`: a missing group never matches. */
  predicate InGroups(a: Agent, groupIds: seq<string>) {
    a.groupId.Some? && a.groupId.value in groupIds
  }

  /** The rows whose group is among `groupIds`, in storage order. */
  function GroupMembers(rows: seq<Agent>, groupIds: seq<string>): (r: seq<Agent>)
    ensures forall a :: a in r <==> a in rows && InGroups(a, groupIds)
    ensures multiset(r) <= multiset(rows)
  {
    if rows == [] then []
    else
      var rest := GroupMembers(rows[1..], groupIds);
      assert rows == [rows[0]] + rows[1..];
      if InGroups(rows[0], groupIds) then [rows[0]] + rest else rest
  }

  /** `order_by(created_at.desc())` */
  predicate NewestFirst(s: seq<Agent>) {
    forall i, j :: 0 <= i < j < |s| ==> s[i].createdAt >= s[j].createdAt
  }

  /** Puts `a` before the first agent that is not newer than it. */
  function InsertNewestFirst(a: Agent, s: seq<Agent>): (r: seq<Agent>)
    requires NewestFirst(s)
    ensures NewestFirst(r)
    ensures multiset(r) == multiset(s) + multiset{a}
  {
    if s == [] || s[0].createdAt <= a.createdAt then
      PrependNewer(a, s);
      [a] + s
    else
      TailNewestFirst(s);
      var rest := InsertNewestFirst(a, s[1..]);
      KeepHead(s, a, rest);
      [s[0]] + rest
  }

  lemma TailNewestFirst(s: seq<Agent>)
    requires NewestFirst(s) && s != []
    ensures NewestFirst(s[1..])
  {
    forall i, j | 0 <= i < j < |s[1..]| ensures s[1..][i].createdAt >= s[1..][j].createdAt {
      assert s[1..][i] == s[i + 1] && s[1..][j] == s[j + 1];
    }
  }

  /** An agent at least as new as the first of a sorted list may go in front. */
  lemma PrependNewer(a: Agent, s: seq<Agent>)
    requires NewestFirst(s)
    requires s != [] ==> s[0].createdAt <= a.createdAt
    ensures NewestFirst([a] + s)
  {
    var r := [a] + s;
    forall i, j | 0 <= i < j < |r| ensures r[i].createdAt >= r[j].createdAt {
      assert r[j] == s[j - 1];
      if i > 0 {
        assert r[i] == s[i - 1];
      } else if j > 1 {
        assert s[0].createdAt >= s[j - 1].createdAt;
      }
    }
  }

  /** The head of a sorted list that is newer than `a` stays in front of the
      rest with `a` inserted. */
  lemma KeepHead(s: seq<Agent>, a: Agent, rest: seq<Agent>)
    requires NewestFirst(s) && s != [] && s[0].createdAt > a.createdAt
    requires NewestFirst(rest) && multiset(rest) == multiset(s[1..]) + multiset{a}
    ensures NewestFirst([s[0]] + rest)
    ensures multiset([s[0]] + rest) == multiset(s) + multiset{a}
  {
    assert s == [s[0]] + s[1..];
    assert multiset([s[0]] + rest) == multiset{s[0]} + multiset(rest);
    assert forall k :: 0 <= k < |s[1..]| ==> s[0].createdAt >= s[1..][k].createdAt by {
      forall k | 0 <= k < |s[1..]| ensures s[0].createdAt >= s[1..][k].createdAt {
        assert s[1..][k] == s[k + 1];
      }
    }
    PrependNewest(s[0], rest, a, s[1..]);
  }

  /** `x` may go first when it is at least as new as everything in `rest`,
      which holds `a` and the agents of `tail`. */
  lemma PrependNewest(x: Agent, rest: seq<Agent>, a: Agent, tail: seq<Agent>)
    requires NewestFirst(rest)
    requires multiset(rest) == multiset(tail) + multiset{a}
    requires x.createdAt >= a.createdAt
    requires forall k :: 0 <= k < |tail| ==> x.createdAt >= tail[k].createdAt
    ensures NewestFirst([x] + rest)
  {
    var r := [x] + rest;
    forall j | 0 < j < |r| ensures x.createdAt >= r[j].createdAt {
      assert r[j] == rest[j - 1];
      assert rest[j - 1] in multiset(rest);
      if rest[j - 1] != a {
        assert rest[j - 1] in multiset(tail);
        var k :| 0 <= k < |tail| && tail[k] == rest[j - 1];
      }
    }
    forall i, j | 0 <= i < j < |r| ensures r[i].createdAt >= r[j].createdAt {
      if i > 0 {
        assert r[i] == rest[i - 1] && r[j] == rest[j - 1];
      }
    }
  }

  /** A stable insertion sort, newest first. */
  function SortNewestFirst(s: seq<Agent>): (r: seq<Agent>)
    ensures NewestFirst(r)
    ensures multiset(r) == multiset(s)
  {
    if s == [] then []
    else
      assert s == [s[0]] + s[1..];
      InsertNewestFirst(s[0], SortNewestFirst(s[1..]))
  }

  /** `find_by_group(group_context)`: nothing without group ids; otherwise
      exactly the agents of those groups, newest first. */
  function FindByGroup(rows: seq<Agent>, context: GroupContext): (r: seq<Agent>)
    ensures context.groupIds == [] ==> r == []
    ensures context.groupIds != [] ==> multiset(r) == multiset(GroupMembers(rows, context.groupIds))
    ensures NewestFirst(r)
  {
    if context.groupIds == [] then
      []
    else SortNewestFirst(GroupMembers(rows, context.groupIds))
  }

  /** Group isolation: an agent is listed exactly when it is stored and
      belongs to one of the context's groups. */
  lemma FindByGroupIsolates(rows: seq<Agent>, context: GroupContext, a: Agent)
    ensures a in FindByGroup(rows, context) <==> a in rows && InGroups(a, context.groupIds)
  {
    var r := FindByGroup(rows, context);
    assert a in r <==> a in multiset(r);
    assert context.groupIds == [] ==> !InGroups(a, context.groupIds);
    assert a in GroupMembers(rows, context.groupIds) <==> a in multiset(GroupMembers(rows, context.groupIds));
  }

  /** `get(id)`: the agent with that id, if one is stored. */
  function Get(rows: seq<Agent>, id: string): (r: Option<Agent>)
    ensures r.Some? ==> r.value in rows && r.value.id == id
    ensures r.None? <==> forall i :: 0 <= i < |rows| ==> rows[i].id != id
  {
    if rows == [] then None
    else if rows[0].id == id then Some(rows[0])
    else
      assert forall i :: 1 <= i < |rows| ==> rows[i] == rows[1..][i - 1];
      Get(rows[1..], id)
  }

  /** `model_dump(exclude_none=True)`: the given fields, without those set to None. */
  function ExcludeNone(patch: Dictionary): (d: Dictionary)
    ensures forall k :: k in d <==> k in patch && patch[k] != Null
    ensures forall k :: k in d ==> d[k] == patch[k]
  {
    map k | k in patch && patch[k] != Null :: patch[k]
  }

  /** The repository's `update(id, data)`: the rows with that id take the
      given columns; every other row is unchanged. */
  function UpdateRows(rows: seq<Agent>, id: string, data: Dictionary): (r: seq<Agent>)
    ensures |r| == |rows|
    ensures forall i :: 0 <= i < |rows| ==>
              r[i] == if rows[i].id == id then rows[i].(fields := rows[i].fields + data) else rows[i]
  {
    if rows == [] then []
    else [if rows[0].id == id then rows[0].(fields := rows[0].fields + data) else rows[0]] + UpdateRows(rows[1..], id, data)
  }

  /** The agent read back after an update is the stored one with the given
      columns replaced and every other column kept; an unknown id stays unknown. */
  lemma {:induction false} UpdateRowsGet(rows: seq<Agent>, id: string, data: Dictionary)
    ensures Get(UpdateRows(rows, id, data), id).Some? <==> Get(rows, id).Some?
    ensures Get(rows, id).Some? ==>
              Get(UpdateRows(rows, id, data), id) == Some(Get(rows, id).value.(fields := Get(rows, id).value.fields + data))
  {
    if rows != [] {
      UpdateRowsGet(rows[1..], id, data);
      assert UpdateRows(rows, id, data)[1..] == UpdateRows(rows[1..], id, data);
    }
  }

  /** The stored agents, as one service instance's session sees them. */
  class AgentStore {
    var agents: seq<Agent>

    /** A service session over the agents already stored. */
    constructor (rows: seq<Agent>)
      ensures agents == rows
    {
      agents := rows;
    }

    /** `create_with_group(obj_in, group_context)`: stores the schema's fields
        with the context's primary group and email; `id` and `now` are the
        identifier and time the database assigns. */
    method CreateWithGroup(data: Dictionary, context: GroupContext, id: string, now: int) returns (a: Agent)
      modifies this
      ensures a.id == id && a.createdAt == now
      ensures a.fields == data - {"group_id", "created_by_email"}
      ensures a.groupId == context.primaryGroupId && a.createdByEmail == context.groupEmail
      ensures agents == old(agents) + [a]
    {
      a := Agent(id, data - {"group_id", "created_by_email"}, context.primaryGroupId, context.groupEmail, now);
      agents := agents + [a];
    }

    /** `update_with_partial_data(id, obj_in)` and `update_limited_fields(id,
        obj_in)`: with no field given, the store is unchanged and the agent is
        read back; otherwise only the given fields are written. */
    method UpdateWithPartialData(id: string, patch: Dictionary) returns (r: Option<Agent>)
      modifies this
      ensures ExcludeNone(patch) == map[] ==> agents == old(agents)
      ensures ExcludeNone(patch) != map[] ==> agents == UpdateRows(old(agents), id, ExcludeNone(patch))
      ensures r == Get(agents, id)
      ensures r.Some? <==> Get(old(agents), id).Some?
      ensures r.Some? ==> r.value.fields == Get(old(agents), id).value.fields + ExcludeNone(patch)
    {
      var data := ExcludeNone(patch);
      if data == map[] {
        assert Get(agents, id).Some? ==> Get(agents, id).value.fields + data == Get(agents, id).value.fields;
        return Get(agents, id);
      }
      UpdateRowsGet(agents, id, data);
      agents := UpdateRows(agents, id, data);
      r := Get(agents, id);
    }
  }
}
