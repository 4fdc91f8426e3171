/**
 * The staging client of the SysML v2 API: it remembers the project, branch
 * and head commit it works on, collects create/update/delete requests as
 * `DataVersion` entries in a local change list, and sends the whole list as
 * one commit.
 *
 * The REST calls are the fields of a `Remote` value: functions from their
 * arguments to the decoded JSON body, `JNull` where the request did not
 * answer with status 200.
 */
module SysmlClient {
  import opened Json

  /** One staged change. `payload` is JNull for a delete; `identity` holds the
      `@id` of the element an update or delete targets and is None for a
      create. */
  datatype DataVersion = DataVersion(payload: Json, identity: Option<Json>)

  /** The dict the client stages for a `DataVersion`. */
  function DataVersionJson(d: DataVersion): (r: Json)
    ensures r.JObj? && Lookup(r.members, "@type") == Some(JStr("DataVersion"))
    ensures Lookup(r.members, "payload") == Some(d.payload)
    ensures Lookup(r.members, "identity") ==
      match d.identity
      case None => None
      case Some(id) => Some(JObj([Member("@id", id)]))
  {
    match d.identity
    case None => JObj([Member("@type", JStr("DataVersion")), Member("payload", d.payload)])
    case Some(id) =>
      var ms := [Member("@type", JStr("DataVersion")), Member("payload", d.payload),
        Member("identity", JObj([Member("@id", id)]))];
      assert ms[1..][1..] == [ms[2]];
      assert Lookup(ms[1..][1..], "identity") == Some(JObj([Member("@id", id)]));
      assert Lookup(ms[1..], "identity") == Lookup(ms[1..][1..], "identity");
      JObj(ms)
  }

  /** Different changes stage different dicts. */
  lemma DataVersionJsonInjective(a: DataVersion, b: DataVersion)
    requires DataVersionJson(a) == DataVersionJson(b)
    ensures a == b
  {
    var ra := DataVersionJson(a).members;
    assert Lookup(ra, "payload") == Some(a.payload) && Lookup(ra, "payload") == Some(b.payload);
    if a.identity.Some? || b.identity.Some? {
      assert Lookup(ra, "identity") == Lookup(DataVersionJson(b).members, "identity");
    }
  }

  /** The REST endpoints of the SysML v2 API server the client calls. */
  datatype Remote = Remote(
    getProject: Json -> Json,
    getProjectBranch: (Json, Json) -> Json,
    datatypes: Json,
    getProjectElements: (Json, Json) -> Json,
    getProjectElement: (Json, Json, Json) -> Json,
    pushCommit: (Json, seq<DataVersion>) -> Json)

  /** `SysMLClient.check_project_branch`: the project is looked up first and
      the branch only when the project exists. */
  function CheckProjectBranch(remote: Remote, projectId: Json, branchId: Json): (r: (string, int))
    ensures r.1 == 200 <==> remote.getProject(projectId) != JNull && remote.getProjectBranch(projectId, branchId) != JNull
    ensures r.1 != 200 ==> r.1 == 404
    ensures r.0 == "Project not found" <==> remote.getProject(projectId) == JNull
    ensures r.0 == "Branch not found" <==>
      remote.getProject(projectId) != JNull && remote.getProjectBranch(projectId, branchId) == JNull
    ensures r.1 == 200 ==> r.0 == "Check successfull"
  {
    if remote.getProject(projectId) == JNull then ("Project not found", 404)
    else if remote.getProjectBranch(projectId, branchId) == JNull then ("Branch not found", 404)
    else ("Check successfull", 200)
  }

  /** The values of a dict, in insertion order. */
  function Values(ms: Obj): (r: seq<Json>)
    ensures |r| == |ms| && forall i :: 0 <= i < |ms| ==> r[i] == ms[i].value
  {
    seq(|ms|, i requires 0 <= i < |ms| => ms[i].value)
  }

  /** `[d["title"] for d in values]`: the first value without a title stops
      the comprehension with its error. */
  function Titles(values: seq<Json>): (r: Result<seq<Json>>)
    ensures r.Ok? <==> forall i :: 0 <= i < |values| ==> Index(values[i], "title").Ok?
    ensures r.Ok? ==> |r.value| == |values|
    ensures r.Ok? ==> forall i :: 0 <= i < |values| ==> r.value[i] == Index(values[i], "title").value
    ensures r.Err? ==> exists i :: (0 <= i < |values| && Index(values[i], "title") == Err(r.error) &&
      forall j :: 0 <= j < i ==> Index(values[j], "title").Ok?)
  {
    if values == [] then Ok([])
    else
      var t := Index(values[0], "title");
      if t.Err? then Err(t.error)
      else
        var rest := Titles(values[1..]);
        if rest.Err? then
          TitlesConsErr(values, values[1..], rest.error);
          Err(rest.error)
        else
          TitlesConsOk(values, values[1..], t.value, rest.value);
          Ok([t.value] + rest.value)
  }

  /** A title for the first value and for each of the others. */
  lemma TitlesConsOk(values: seq<Json>, rest: seq<Json>, t: Json, ts: seq<Json>)
    requires values != [] && rest == values[1..] && Index(values[0], "title") == Ok(t)
    requires |ts| == |rest| && forall i :: 0 <= i < |rest| ==> Index(rest[i], "title").Ok? && ts[i] == Index(rest[i], "title").value
    ensures forall i :: 0 <= i < |values| ==> Index(values[i], "title").Ok? && ([t] + ts)[i] == Index(values[i], "title").value
  {
    forall i | 0 <= i < |values| ensures Index(values[i], "title").Ok? && ([t] + ts)[i] == Index(values[i], "title").value {
      if i > 0 {
        assert values[i] == rest[i - 1];
      }
    }
  }

  /** The first value without a title among the others is the first one
      overall when the first value has one. */
  lemma TitlesConsErr(values: seq<Json>, rest: seq<Json>, e: Error)
    requires values != [] && rest == values[1..] && Index(values[0], "title").Ok?
    requires exists i :: (0 <= i < |rest| && Index(rest[i], "title") == Err(e) &&
      forall j :: 0 <= j < i ==> Index(rest[j], "title").Ok?)
    ensures exists i :: (0 <= i < |values| && Index(values[i], "title") == Err(e) &&
      forall j :: 0 <= j < i ==> Index(values[j], "title").Ok?)
  {
    var i :| 0 <= i < |rest| && Index(rest[i], "title") == Err(e) &&
      forall j :: 0 <= j < i ==> Index(rest[j], "title").Ok?;
    assert values[i + 1] == rest[i];
    forall j | 0 <= j < i + 1 ensures Index(values[j], "title").Ok? {
      if j > 0 {
        assert values[j] == rest[j - 1];
      }
    }
  }

  /** The titles of the schemas in `datatypes["$defs"]`: `.values()` exists only
      on a dict. */
  function DatatypeTitles(datatypes: Json): (r: Result<seq<Json>>)
    ensures Index(datatypes, "$defs").Err? ==> r == Err(Index(datatypes, "$defs").error)
    ensures Index(datatypes, "$defs").Ok? && !Index(datatypes, "$defs").value.JObj? ==> r == Err(AttributeError)
    ensures Index(datatypes, "$defs").Ok? && Index(datatypes, "$defs").value.JObj? ==>
      r == Titles(Values(Index(datatypes, "$defs").value.members))
  {
    match Index(datatypes, "$defs")
    case Err(e) => Err(e)
    case Ok(defs) => if defs.JObj? then Titles(Values(defs.members)) else Err(AttributeError)
  }

  /** `project["name"]` for the project the server returns. */
  function ProjectName(remote: Remote, projectId: Json): Result<Json> {
    Index(remote.getProject(projectId), "name")
  }

  /** `branch["head"]["@id"]` for the branch the server returns. */
  function HeadCommit(remote: Remote, projectId: Json, branchId: Json): (r: Result<Json>)
    ensures r.Ok? <==> (Index(remote.getProjectBranch(projectId, branchId), "head").Ok? &&
      Index(Index(remote.getProjectBranch(projectId, branchId), "head").value, "@id").Ok?)
  {
    match Index(remote.getProjectBranch(projectId, branchId), "head")
    case Err(e) => Err(e)
    case Ok(head) => Index(head, "@id")
  }

  /** How a call that ends in staging `r` (or raising `r.error` before it
      stages anything) changes the client's change list from `before` to
      `after`: the list is only appended to, and a client without the
      attribute raises AttributeError. */
  predicate StagedBy(r: Result<DataVersion>, o: Outcome, before: Option<seq<DataVersion>>, after: Option<seq<DataVersion>>) {
    match r
    case Err(e) => o == Raised(e) && after == before
    case Ok(d) =>
      if before.None? then o == Raised(AttributeError) && after == before
      else o == Done && after == Some(before.value + [d])
  }

  class SysMLClient {
    const remote: Remote
    /** The attributes `initialize` assigns; None while the Python object does
        not have the attribute yet, where reading it raises AttributeError. */
    var projectId: Option<Json>
    var projectName: Option<Json>
    var branchId: Option<Json>
    var commitId: Option<Json>
    var change: Option<seq<DataVersion>>
    var datatypes: Option<seq<Json>>
    /** Every commit sent to the server: the project id and the change list. */
    ghost var pushed: seq<(Json, seq<DataVersion>)>

    /** `SysMLClient()`: the class has no `__init__`, so no attribute is set. */
    constructor(remote: Remote)
      ensures this.remote == remote
      ensures projectId == None && projectName == None && branchId == None
      ensures commitId == None && change == None && datatypes == None
      ensures pushed == []
    {
      this.remote := remote;
      projectId := None;
      projectName := None;
      branchId := None;
      commitId := None;
      change := None;
      datatypes := None;
      pushed := [];
    }

    /** `initialize(project_id, branch_id)`. The attributes are assigned in
        source order, so a failing lookup leaves the ones before it set. */
    method Initialize(pid: Json, bid: Json) returns (o: Outcome)
      modifies this
      ensures projectId == Some(pid) && pushed == old(pushed)
      ensures o.Done? <==> (ProjectName(remote, pid).Ok? && HeadCommit(remote, pid, bid).Ok? &&
        DatatypeTitles(remote.datatypes).Ok?)
      ensures o.Done? ==>
        projectName == Some(ProjectName(remote, pid).value) && branchId == Some(bid) &&
        commitId == Some(HeadCommit(remote, pid, bid).value) && change == Some([]) &&
        datatypes == Some(DatatypeTitles(remote.datatypes).value)
      ensures ProjectName(remote, pid).Err? ==>
        o == Raised(ProjectName(remote, pid).error) &&
        projectName == old(projectName) && branchId == old(branchId) && commitId == old(commitId) &&
        change == old(change) && datatypes == old(datatypes)
      ensures ProjectName(remote, pid).Ok? && HeadCommit(remote, pid, bid).Err? ==>
        o == Raised(HeadCommit(remote, pid, bid).error) &&
        projectName == Some(ProjectName(remote, pid).value) && branchId == Some(bid) &&
        commitId == old(commitId) && change == old(change) && datatypes == old(datatypes)
      ensures ProjectName(remote, pid).Ok? && HeadCommit(remote, pid, bid).Ok? && DatatypeTitles(remote.datatypes).Err? ==>
        o == Raised(DatatypeTitles(remote.datatypes).error) &&
        projectName == Some(ProjectName(remote, pid).value) && branchId == Some(bid) &&
        commitId == Some(HeadCommit(remote, pid, bid).value) && change == Some([]) &&
        datatypes == old(datatypes)
    {
      projectId := Some(pid);
      var name := ProjectName(remote, pid);
      if name.Err? {
        return Raised(name.error);
      }
      projectName := Some(name.value);
      branchId := Some(bid);
      var head := HeadCommit(remote, pid, bid);
      if head.Err? {
        return Raised(head.error);
      }
      commitId := Some(head.value);
      change := Some([]);
      var titles := DatatypeTitles(remote.datatypes);
      if titles.Err? {
        return Raised(titles.error);
      }
      datatypes := Some(titles.value);
      return Done;
    }

    /** `get_all_elements()`: the elements of the head commit. */
    method GetAllElements() returns (r: Result<Json>)
      ensures projectId.None? || commitId.None? ==> r == Err(AttributeError)
      ensures projectId.Some? && commitId.Some? ==>
        r == Ok(remote.getProjectElements(projectId.value, commitId.value))
    {
      if projectId.None? || commitId.None? {
        return Err(AttributeError);
      }
      return Ok(remote.getProjectElements(projectId.value, commitId.value));
    }

    /** `get_element(element_id)`: one element of the head commit. */
    method GetElement(elementId: Json) returns (r: Result<Json>)
      ensures projectId.None? || commitId.None? ==> r == Err(AttributeError)
      ensures projectId.Some? && commitId.Some? ==>
        r == Ok(remote.getProjectElement(projectId.value, commitId.value, elementId))
    {
      if projectId.None? || commitId.None? {
        return Err(AttributeError);
      }
      return Ok(remote.getProjectElement(projectId.value, commitId.value, elementId));
    }

    /** `create(**attrs)`: stage a new element whose payload is a copy of the
        keyword arguments. A `self` keyword collides with the bound instance. */
    method Create(attrs: Obj) returns (o: Outcome)
      modifies this`change
      ensures HasKey(attrs, "self") ==> o == Raised(TypeError) && change == old(change)
      ensures !HasKey(attrs, "self") && old(change).None? ==> o == Raised(AttributeError) && change == old(change)
      ensures !HasKey(attrs, "self") && old(change).Some? ==>
        o == Done && change == Some(old(change).value + [DataVersion(JObj(attrs), None)])
    {
      if HasKey(attrs, "self") {
        return Raised(TypeError);
      }
      if change.None? {
        return Raised(AttributeError);
      }
      change := Some(change.value + [DataVersion(JObj(attrs), None)]);
      return Done;
    }

    /** `update(element_id, **attrs)`: stage new attributes for an existing
        element. */
    method Update(elementId: Json, attrs: Obj) returns (o: Outcome)
      modifies this`change
      ensures HasKey(attrs, "self") || HasKey(attrs, "element_id") ==> o == Raised(TypeError) && change == old(change)
      ensures !HasKey(attrs, "self") && !HasKey(attrs, "element_id") && old(change).None? ==>
        o == Raised(AttributeError) && change == old(change)
      ensures !HasKey(attrs, "self") && !HasKey(attrs, "element_id") && old(change).Some? ==>
        o == Done && change == Some(old(change).value + [DataVersion(JObj(attrs), Some(elementId))])
    {
      if HasKey(attrs, "self") || HasKey(attrs, "element_id") {
        return Raised(TypeError);
      }
      if change.None? {
        return Raised(AttributeError);
      }
      change := Some(change.value + [DataVersion(JObj(attrs), Some(elementId))]);
      return Done;
    }

    /** `delete(element_id)`: stage the removal of an element; a change
        without payload removes it. */
    method Delete(elementId: Json) returns (o: Outcome)
      modifies this`change
      ensures old(change).None? ==> o == Raised(AttributeError) && change == old(change)
      ensures old(change).Some? ==> o == Done && change == Some(old(change).value + [DataVersion(JNull, Some(elementId))])
    {
      if change.None? {
        return Raised(AttributeError);
      }
      change := Some(change.value + [DataVersion(JNull, Some(elementId))]);
      return Done;
    }

    /** `commit_and_push()`: send the staged list, take the answer as the new
        head commit and empty the list. The answer is JNull when the push
        failed, and the list is emptied all the same. */
    method CommitAndPush() returns (o: Outcome)
      modifies this`commitId, this`change, this`pushed
      ensures projectId.None? || old(change).None? ==>
        o == Raised(AttributeError) && commitId == old(commitId) && change == old(change) && pushed == old(pushed)
      ensures projectId.Some? && old(change).Some? ==>
        o == Done &&
        pushed == old(pushed) + [(projectId.value, old(change).value)] &&
        commitId == Some(remote.pushCommit(projectId.value, old(change).value)) &&
        change == Some([])
    {
      if projectId.None? || change.None? {
        return Raised(AttributeError);
      }
      var sent := change.value;
      var answer := remote.pushCommit(projectId.value, sent);
      pushed := pushed + [(projectId.value, sent)];
      commitId := Some(answer);
      change := Some([]);
      return Done;
    }
  }
}
