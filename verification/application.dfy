/** The `Application` aggregate: built once from a payload that must carry an
    "info" key, then updated by replacing whole sections ("info", "diskspace")
    whenever a payload supplies them. The state machine is stated on values
    (`AppState`, `Update`, `Init`); the class below wraps it as the mutable
    object the library hands out. */
module Applications {
  import opened Results
  import opened JsonValues
  import opened Records

  /** The visible attributes of an Application. `info` is None while the
      attribute has never been assigned. */
  datatype AppState = AppState(info: Option<Info>, disks: seq<Disk>)

  /** The object before any payload is applied: `info` unassigned, `disks`
      the class-level empty list. */
  const Unset: AppState := AppState(None, [])

  /** What one `update_from_dict` call leaves behind: the new state and the
      exception it raised, if any. The call is not atomic: when "diskspace"
      fails to decode, a new `info` has already been stored. */
  datatype Applied = Applied(state: AppState, failure: Option<Error>)

  /** The top-level keys an update reads. */
  const Sections: set<string> := {"info", "diskspace"}

  /** A section takes part in an update when its key is present and its value truthy. */
  function Supplies(data: Object, section: string): (b: bool)
    ensures b <==> Truthy(Get(data, section, JNull))
    ensures section !in data ==> !b
  {
    section in data && Truthy(data[section])
  }

  /** `[Disk.from_dict(disk) for disk in diskspace]`. */
  function DecodeDisks(j: Json): (r: Result<seq<Disk>, Error>)
    ensures r.Err? ==> r.error == WrongKind
    ensures j.JArr? ==> (r.Ok? <==> forall i :: 0 <= i < |j.items| ==> j.items[i].JObj?)
    ensures j.JArr? && r.Ok? ==>
              |r.value| == |j.items|
              && forall i :: 0 <= i < |j.items| ==> r.value[i] == DecodeDisk(j.items[i].fields)
    ensures !j.JArr? ==> (r.Ok? <==> j == JStr("") || j == JObj(map[]))
    ensures r.Ok? && !j.JArr? ==> r.value == []
  {
    DecodeList(o => Ok(DecodeDisk(o)), j)
  }

  /** `update_from_dict`. */
  function Update(st: AppState, data: Object): (a: Applied)
    // info: replaced wholesale when supplied, untouched otherwise
    ensures !Supplies(data, "info") ==> a.state.info == st.info
    ensures Supplies(data, "info") && data["info"].JObj? ==>
              a.state.info == Some(DecodeInfo(data["info"].fields))
    ensures Supplies(data, "info") && !data["info"].JObj? ==> a == Applied(st, Some(WrongKind))
    // disks: replaced wholesale when supplied and decodable, untouched otherwise
    ensures a.failure.None? && Supplies(data, "diskspace") ==> DecodeDisks(data["diskspace"]) == Ok(a.state.disks)
    ensures !Supplies(data, "diskspace") || a.failure.Some? ==> a.state.disks == st.disks
    // the only failures
    ensures a.failure.None? <==>
              && (Supplies(data, "info") ==> data["info"].JObj?)
              && (Supplies(data, "diskspace") ==> DecodeDisks(data["diskspace"]).Ok?)
    ensures a.failure.Some? ==> a.failure.value == WrongKind
  {
    if Supplies(data, "info") && !data["info"].JObj? then Applied(st, Some(WrongKind))
    else
      var st' := if Supplies(data, "info") then st.(info := Some(DecodeInfo(data["info"].fields))) else st;
      if !Supplies(data, "diskspace") then Applied(st', None)
      else
        match DecodeDisks(data["diskspace"])
        case Ok(disks) => Applied(st'.(disks := disks), None)
        case Err(e) => Applied(st', Some(e))
  }

  /** `Application.__init__`: a payload without an "info" key is refused with
      RadarrError before anything is stored; any other payload is applied to
      the unset object, and a failure while applying it also leaves no object. */
  function Init(data: Object): (r: Result<AppState, Error>)
    ensures r == Err(Incomplete) <==> "info" !in data
    ensures "info" in data ==>
              && (r.Ok? <==> Update(Unset, data).failure.None?)
              && (r.Ok? ==> r.value == Update(Unset, data).state)
              && (r.Err? ==> Update(Unset, data).failure == Some(r.error))
  {
    if "info" !in data then Err(Incomplete)
    else
      var a := Update(Unset, data);
      match a.failure
      case Some(e) => Err(e)
      case None => Ok(a.state)
  }

  // ------------------------------------------------------------ properties

  /** Keys other than "info" and "diskspace" are ignored. */
  lemma UpdateIgnoresOtherKeys(st: AppState, data: Object)
    ensures Update(st, data) == Update(st, Restrict(data, Sections))
  {
    assert Supplies(data, "info") == Supplies(Restrict(data, Sections), "info");
    assert Supplies(data, "diskspace") == Supplies(Restrict(data, Sections), "diskspace");
  }

  /** Applying the same payload twice changes nothing the first application
      did not, whether or not that one raised. */
  lemma UpdateIdempotent(st: AppState, data: Object)
    ensures Update(Update(st, data).state, data) == Update(st, data)
  {
  }

  /** Last write wins per section: a payload that supplies both sections and
      applies cleanly erases every trace of the previous state. */
  lemma UpdateLastWriteWins(st1: AppState, st2: AppState, data: Object)
    requires Supplies(data, "info") && Supplies(data, "diskspace")
    requires Update(st1, data).failure.None?
    ensures Update(st1, data) == Update(st2, data)
  {
  }

  /** An empty "diskspace" list is falsy: the stored disks stay. */
  lemma EmptyDiskspaceKeepsDisks(st: AppState, data: Object)
    requires "diskspace" in data && data["diskspace"] == JArr([])
    ensures Update(st, data).state.disks == st.disks
  {
  }

  /** A supplied disk list replaces the stored one element by element,
      never merging with it. */
  lemma DiskspaceReplacesWholesale(st: AppState, data: Object, entries: seq<Json>)
    requires "diskspace" in data && data["diskspace"] == JArr(entries) && entries != []
    requires forall i :: 0 <= i < |entries| ==> entries[i].JObj?
    requires !Supplies(data, "info") || data["info"].JObj?
    ensures Update(st, data).failure.None?
    ensures |Update(st, data).state.disks| == |entries|
    ensures forall i :: 0 <= i < |entries| ==> Update(st, data).state.disks[i] == DecodeDisk(entries[i].fields)
  {
    var decode := (o: Object) => Ok(DecodeDisk(o));
    assert forall i :: 0 <= i < |entries| ==> DecodeObject(decode, entries[i]) == Ok(DecodeDisk(entries[i].fields));
  }

  /** Construction fails with RadarrError exactly when "info" is absent; a
      falsy "info" such as {} is accepted but never stored. */
  lemma InitExamples(version: Json)
    ensures Init(map[]) == Err(Incomplete)
    ensures Init(map["info" := JObj(map[])]) == Ok(Unset)
    ensures Init(map["info" := JObj(map["version" := version])])
            == Ok(AppState(Some(Info("Radarr", version)), []))
  {
    var withVersion: Object := map["info" := JObj(map["version" := version])];
    assert "version" in withVersion["info"].fields;
  }

  // ------------------------------------------------------------ the object

  class Application {
    var info: Option<Info>
    var disks: seq<Disk>

    function State(): AppState
      reads this
    {
      AppState(info, disks)
    }

    /** The object as allocated, before `__init__` stores anything. */
    constructor Allocate()
      ensures State() == Unset
    {
      info := None;
      disks := [];
    }

    /** `update_from_dict`; returns the exception raised, if any. */
    method UpdateFromDict(data: Object) returns (failure: Option<Error>)
      modifies this
      ensures State() == Update(old(State()), data).state
      ensures failure == Update(old(State()), data).failure
      ensures !Supplies(data, "info") ==> info == old(info)
      ensures !Supplies(data, "diskspace") || failure.Some? ==> disks == old(disks)
    {
      var a := Update(State(), data);
      info, disks := a.state.info, a.state.disks;
      failure := a.failure;
    }
  }

  /** `Application(data)`: no object escapes a failed construction. */
  method NewApplication(data: Object) returns (r: Result<Application, Error>)
    ensures r.Err? <==> Init(data).Err?
    ensures r.Err? ==> r.error == Init(data).error
    ensures r.Ok? ==> fresh(r.value) && Init(data) == Ok(r.value.State())
  {
    if "info" !in data {
      return Err(Incomplete);
    }
    var app := new Application.Allocate();
    var failure := app.UpdateFromDict(data);
    if failure.Some? {
      return Err(failure.value);
    }
    return Ok(app);
  }
}
