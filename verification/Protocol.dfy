/** The parts of the daemon's wire protocol that its session logic rests on: keys for request
    ids, and the normal form of initialize parameters. */
module Protocol {
  import opened Json

  // ----- request identifiers

  /** The key under which a request id is stored. */
  function IdKey(id: Value): string { Fingerprint(id) }

  /** Reads a key back; text that is not JSON becomes a string value. */
  function RequestIdFromKey(key: string): Value {
    match ParseValue(key)
    case Parsed(v, rest) => if rest == [] then v else String(key)
    case Failed => String(key)
  }

  /** Keys identify ids: reading a key back gives the id, so different ids never share a key. */
  lemma IdKeyInverse(id: Value)
    ensures RequestIdFromKey(IdKey(id)) == id
  {
    RoundTrip(id, []);
    assert Fingerprint(id) + [] == Fingerprint(id);
  }

  /** The ids `lsp_types::NumberOrString` can hold: strings and 32-bit integers. */
  predicate IsNumberOrString(id: Value) {
    id.String? || (id.Number? && -0x8000_0000 <= id.n < 0x8000_0000)
  }

  // ----- initialize parameters

  datatype Target = Target(rootUri: string, rootPath: string, name: string, processId: nat)

  datatype Result<+T> = Ok(value: T) | Err

  function WorkspaceFolders(target: Target): Value {
    Array([Object(map["uri" := String(target.rootUri), "name" := String(target.name)])])
  }

  /** The members that normalization removes or overwrites. */
  const OVERRIDDEN: set<string> :=
    {"processId", "workDoneToken", "rootUri", "rootPath", "workspaceFolders"}

  predicate AcceptsString(params: Value, key: string, expected: string) {
    var given := params.Get(key);
    given == None || given.value == Null || given.value == String(expected)
  }

  predicate AcceptsFolders(params: Value, target: Target) {
    var given := params.Get("workspaceFolders");
    given == None || given.value == Null
    || (given.value.Array? && |given.value.items| == 1
        && given.value.items[0].Get("uri") == Some(String(target.rootUri)))
  }

  function NormalizeInitialize(params: Value, target: Target): Result<Value> {
    if !params.Object? then Err
    else if !AcceptsString(params, "rootUri", target.rootUri) then Err
    else if !AcceptsString(params, "rootPath", target.rootPath) then Err
    else if !AcceptsFolders(params, target) then Err
    else
      Ok(Object((params.fields - {"workDoneToken"})[
        "processId" := Number(target.processId)][
        "rootUri" := String(target.rootUri)][
        "rootPath" := String(target.rootPath)][
        "workspaceFolders" := WorkspaceFolders(target)]))
  }

  /** Two accepted initialize requests are treated alike exactly when they agree on every
      member that is not overridden. */
  lemma NormalFormsAgree(p: Value, q: Value, target: Target)
    requires NormalizeInitialize(p, target).Ok? && NormalizeInitialize(q, target).Ok?
    ensures NormalizeInitialize(p, target) == NormalizeInitialize(q, target)
      <==> p.fields - OVERRIDDEN == q.fields - OVERRIDDEN
  {
    var np, nq := NormalizeInitialize(p, target).value.fields, NormalizeInitialize(q, target).value.fields;
    assert np - OVERRIDDEN == p.fields - OVERRIDDEN;
    assert nq - OVERRIDDEN == q.fields - OVERRIDDEN;
    if np - OVERRIDDEN == nq - OVERRIDDEN {
      NormalMembers(p, target);
      NormalMembers(q, target);
      assert np == nq by {
        forall k ensures k in np <==> k in nq {
          if k !in OVERRIDDEN {
            assert k in np <==> k in np - OVERRIDDEN;
            assert k in nq <==> k in nq - OVERRIDDEN;
          }
        }
        forall k | k in np ensures np[k] == nq[k] {
          if k !in OVERRIDDEN {
            assert np[k] == (np - OVERRIDDEN)[k];
            assert nq[k] == (nq - OVERRIDDEN)[k];
          }
        }
      }
    }
  }

  lemma NormalMembers(p: Value, target: Target)
    requires NormalizeInitialize(p, target).Ok?
    ensures var n := NormalizeInitialize(p, target).value;
            && n.Object?
            && n.fields.Keys * OVERRIDDEN == OVERRIDDEN - {"workDoneToken"}
            && n.Get("processId") == Some(Number(target.processId))
            && n.Get("rootUri") == Some(String(target.rootUri))
            && n.Get("rootPath") == Some(String(target.rootPath))
            && n.Get("workspaceFolders") == Some(WorkspaceFolders(target))
  {
  }

  /** Normalizing is idempotent: a normalized request is accepted and left as it is. */
  lemma NormalizeIdempotent(p: Value, target: Target)
    requires NormalizeInitialize(p, target).Ok?
    ensures NormalizeInitialize(NormalizeInitialize(p, target).value, target) == NormalizeInitialize(p, target)
  {
    var n := NormalizeInitialize(p, target).value;
    NormalMembers(p, target);
    assert NormalizeInitialize(n, target).Ok?;
    var m := NormalizeInitialize(n, target).value;
    NormalMembers(n, target);
    assert m.fields == n.fields;
  }

  /** Whose initialize is accepted: that of a client whose parameters name no workspace, or this one; a
      `null` counts as no name. */
  lemma AcceptsThisWorkspace(params: Value, target: Target)
    ensures NormalizeInitialize(params, target).Ok?
       <==> && params.Object?
            && (forall key, name | (key, name) in {("rootUri", target.rootUri), ("rootPath", target.rootPath)} ::
                  key in params.fields ==> params.fields[key] in {Null, String(name)})
            && ("workspaceFolders" in params.fields && params.fields["workspaceFolders"] != Null ==>
                  exists folder: Value :: NamesFolder(params.fields["workspaceFolders"], folder, target))
  {
    if params.Object? && "workspaceFolders" in params.fields {
      var folders := params.fields["workspaceFolders"];
      if folders.Array? && |folders.items| == 1 {
        assert folders.items == [folders.items[0]];
        assert NamesFolder(folders, folders.items[0], target) <==>
               folders.items[0].Get("uri") == Some(String(target.rootUri));
      }
    }
    assert ("rootUri", target.rootUri) in {("rootUri", target.rootUri), ("rootPath", target.rootPath)};
    assert ("rootPath", target.rootPath) in {("rootUri", target.rootUri), ("rootPath", target.rootPath)};
  }

  predicate NamesFolder(folders: Value, folder: Value, target: Target) {
    && folders == Array([folder]) && folder.Object?
    && "uri" in folder.fields && folder.fields["uri"] == String(target.rootUri)
  }

  function Flag(v: Option<Value>, key: string): bool {
    v.Some? && v.value.Object? && v.value.Get(key) == Some(Bool(true))
  }

  /** Whether the client asked to be told about background work. */
  function WantsBackgroundWork(params: Value): bool {
    var capabilities := params.Get("capabilities");
    capabilities.Some? && capabilities.value.Object?
    && (Flag(capabilities.value.Get("window"), "workDoneProgress")
        || Flag(capabilities.value.Get("experimental"), "serverStatusNotification"))
  }

  /** The value at the end of a path of members. */
  function At(v: Value, path: seq<string>): Option<Value> {
    if path == [] then Some(v)
    else if v.Object? && path[0] in v.fields then At(v.fields[path[0]], path[1..]) else None
  }

  /** It asks by one of two capabilities. */
  lemma AsksForBackgroundWork(params: Value)
    ensures WantsBackgroundWork(params)
       <==> || At(params, ["capabilities", "window", "workDoneProgress"]) == Some(Bool(true))
            || At(params, ["capabilities", "experimental", "serverStatusNotification"]) == Some(Bool(true))
  {
    At3(params, "capabilities", "window", "workDoneProgress");
    At3(params, "capabilities", "experimental", "serverStatusNotification");
  }

  lemma At3(v: Value, a: string, b: string, c: string)
    ensures At(v, [a, b, c])
         == match v.Get(a)
            case None => None
            case Some(x) => match x.Get(b)
                            case None => None
                            case Some(y) => y.Get(c)
  {
    assert [a, b, c][1..] == [b, c] && [b, c][1..] == [c] && [c][1..] == [];
    AtStep(v, [a, b, c]);
    if v.Get(a).Some? {
      AtStep(v.Get(a).value, [b, c]);
      if v.Get(a).value.Get(b).Some? { AtStep(v.Get(a).value.Get(b).value, [c]); }
    }
  }

  lemma AtStep(v: Value, path: seq<string>)
    requires path != []
    ensures At(v, path) == if v.Get(path[0]).Some? then At(v.Get(path[0]).value, path[1..]) else None
    ensures At(v, []) == Some(v)
  {
  }
}
