/**
 * The credential store: a map from workspace name to API key together with
 * a `default` pointer, kept in one JSON file. Every operation loads the
 * whole file, changes the loaded object in place and writes it back; here
 * the loaded object is a `CredentialStore` and loading is its constructor.
 * The store's invariant, `DefaultConsistent`, says that the default is unset
 * exactly when there are no workspaces and otherwise names a stored one.
 */
module Credentials {
  import opened Common
  import opened Errors

  /** What reading and parsing the credentials file yields. */
  datatype CredentialFile =
    | Missing   // the file does not exist or cannot be read
    | Corrupt   // the text is not JSON, or its JSON has no properties to read
    | Parsed(default: Option<string>, workspaces: Option<Record<string>>)

  function NotFoundMessage(workspace: string): string {
    "Workspace \"" + workspace + "\" not found in credentials"
  }

  class CredentialStore {
    var default: Option<string>
    var workspaces: Record<string>

    /** Unset default exactly when empty; otherwise the default is a stored name. */
    predicate DefaultConsistent()
      reads this
    {
      && (default.None? <==> Keys(workspaces) == [])
      && (default.Some? ==> default.value in Keys(workspaces))
    }

    /** `loadCredentials`: a missing or corrupt file is an empty store. */
    constructor Load(file: CredentialFile)
      ensures file.Parsed? ==> default == file.default
      ensures file.Parsed? ==> workspaces == file.workspaces.GetOr(Empty())
      ensures !file.Parsed? ==> default == None && Keys(workspaces) == []
      ensures !file.Parsed? ==> DefaultConsistent()
    {
      match file
      case Parsed(d, ws) =>
        default := d;
        workspaces := ws.GetOr(Empty());
      case _ =>
        default := None;
        workspaces := Empty();
    }

    /** `addCredential`: store or overwrite a key; the first workspace becomes the default. */
    method AddCredential(workspace: string, apiKey: string)
      modifies this
      ensures Lookup(workspaces, workspace) == Some(apiKey)
      ensures forall w :: w != workspace ==> Lookup(workspaces, w) == Lookup(old(workspaces), w)
      ensures Keys(workspaces) ==
                if workspace in Keys(old(workspaces)) then Keys(old(workspaces))
                else Keys(old(workspaces)) + [workspace]
      ensures Keys(old(workspaces)) == [] ==> default == Some(workspace)
      ensures Keys(old(workspaces)) != [] ==> default == old(default)
      ensures old(DefaultConsistent()) ==> DefaultConsistent()
    {
      if |Keys(workspaces)| == 0 {
        default := Some(workspace);
      }
      workspaces := Assign(workspaces, workspace, apiKey);
    }

    /**
     * `removeCredential`: delete the entry; when it was the default, the
     * first remaining workspace in key order becomes the default, or none.
     */
    method RemoveCredential(workspace: string)
      modifies this
      ensures Lookup(workspaces, workspace) == None
      ensures forall w :: w != workspace ==> Lookup(workspaces, w) == Lookup(old(workspaces), w)
      ensures Keys(workspaces) == Without(Keys(old(workspaces)), workspace)
      ensures old(default) == Some(workspace) ==>
                default == if Keys(workspaces) == [] then None else Some(Keys(workspaces)[0])
      ensures old(default) != Some(workspace) ==> default == old(default)
      ensures old(DefaultConsistent()) ==> DefaultConsistent()
    {
      workspaces := Remove(workspaces, workspace);
      if default == Some(workspace) {
        var remaining := Keys(workspaces);
        default := if |remaining| > 0 then Some(remaining[0]) else None;
      }
    }

    /**
     * `setDefaultWorkspace`: fails, changing nothing, unless the workspace
     * holds a key that is not the empty string.
     */
    method SetDefaultWorkspace(workspace: string) returns (outcome: Outcome<PylonError>)
      modifies this
      ensures outcome.Pass? <==> Truthy(Lookup(old(workspaces), workspace))
      ensures outcome.Fail? ==> outcome.error == PlainError(NotFoundMessage(workspace))
      ensures outcome.Fail? ==> default == old(default)
      ensures outcome.Pass? ==> default == Some(workspace)
      ensures workspaces == old(workspaces)
      ensures old(DefaultConsistent()) ==> DefaultConsistent()
    {
      var key := Lookup(workspaces, workspace);
      if !Truthy(key) {
        return Fail(PlainError(NotFoundMessage(workspace)));
      }
      default := Some(workspace);
      return Pass;
    }

    /**
     * `getCredentialApiKey`: the named workspace's key when a non-empty name
     * is given, else the default workspace's key, else nothing.
     */
    function ApiKey(workspace: Option<string>): (key: Option<string>)
      reads this
      ensures Truthy(workspace) ==> key == Lookup(workspaces, workspace.value)
      ensures !Truthy(workspace) && !Truthy(default) ==> key == None
      ensures !Truthy(workspace) && Truthy(default) ==> key == Lookup(workspaces, default.value)
    {
      if Truthy(workspace) then Lookup(workspaces, workspace.value)
      else if Truthy(default) then Lookup(workspaces, default.value)
      else None
    }

    /** `getWorkspaces`: every stored name once, in key order. */
    function Workspaces(): (names: seq<string>)
      reads this
      ensures Distinct(names)
      ensures forall w :: w in names <==> Lookup(workspaces, w).Some?
    {
      Keys(workspaces)
    }
  }

  /**
   * In a consistent store whose default name is not the empty string, asking
   * for no particular workspace always yields a key, the default's; a
   * default that names no stored workspace yields nothing.
   */
  lemma DefaultKeyResolution(store: CredentialStore)
    ensures store.DefaultConsistent() && Truthy(store.default) ==>
              store.ApiKey(None).Some? && store.ApiKey(None) == Lookup(store.workspaces, store.default.value)
    ensures Truthy(store.default) && store.default.value !in Keys(store.workspaces) ==>
              store.ApiKey(None) == None
  {
  }

  // ---------------------------------------------------------------------
  // Indexing the workspaces object as the source does

  /**
   * The names every plain object inherits from `Object.prototype`. Reading
   * one that is not an own key yields a function, or for `__proto__` the
   * prototype itself: truthy either way.
   */
  const InheritedNames: set<string> := {
    "constructor", "__proto__", "__defineGetter__", "__defineSetter__", "__lookupGetter__",
    "__lookupSetter__", "hasOwnProperty", "isPrototypeOf", "propertyIsEnumerable",
    "toLocaleString", "toString", "valueOf"
  }

  /** `!!workspaces[name]` in the source: an own entry's truthiness, else whether an inherited member answers. */
  predicate IndexTruthyAsWritten(workspaces: Record<string>, name: string) {
    match Lookup(workspaces, name)
    case Some(key) => key != ""
    case None => name in InheritedNames
  }

  /** `setDefaultWorkspace` as written: its outcome and the default it leaves. */
  function SetDefaultAsWritten(workspaces: Record<string>, default: Option<string>, name: string): (Outcome<PylonError>, Option<string>) {
    if !IndexTruthyAsWritten(workspaces, name) then (Fail(PlainError(NotFoundMessage(name))), default)
    else (Pass, Some(name))
  }

  /**
   * An inherited name the store does not hold passes the source's check and
   * becomes the default, which then names no stored workspace; the
   * own-entry check of `SetDefaultWorkspace` refuses it.
   */
  lemma InheritedNameBecomesDefault(workspaces: Record<string>, default: Option<string>, name: string)
    requires name in InheritedNames && name !in Keys(workspaces)
    ensures SetDefaultAsWritten(workspaces, default, name) == (Pass, Some(name))
    ensures !Truthy(Lookup(workspaces, name))
  {
  }

  /** `pylon auth default constructor` with only workspace `a` stored. */
  lemma DefaultConstructorAccepted(key: string)
    requires key != ""
    ensures var workspaces := Assign(Empty(), "a", key);
            && SetDefaultAsWritten(workspaces, Some("a"), "constructor") == (Pass, Some("constructor"))
            && Keys(workspaces) == ["a"]
  {
    InheritedNameBecomesDefault(Assign(Empty(), "a", key), Some("a"), "constructor");
  }

  /** On every other name the source's check and the own-entry check agree. */
  lemma IndexAgreesOffPrototype(workspaces: Record<string>, name: string)
    requires name !in InheritedNames || name in Keys(workspaces)
    ensures IndexTruthyAsWritten(workspaces, name) <==> Truthy(Lookup(workspaces, name))
  {
  }

  /**
   * `addCredential` as written. Assigning a string to `__proto__` on an
   * object without an own `__proto__` entry is ignored, so nothing is stored.
   */
  function AddAsWritten(workspaces: Record<string>, default: Option<string>, name: string, key: string): (Record<string>, Option<string>) {
    var newDefault := if Keys(workspaces) == [] then Some(name) else default;
    if name == "__proto__" && name !in Keys(workspaces) then (workspaces, newDefault)
    else (Assign(workspaces, name, key), newDefault)
  }

  /**
   * `pylon auth login --key k --name __proto__` on an empty store: no key is
   * stored, yet the default names `__proto__`.
   */
  lemma ProtoNameStoresNothing(key: string)
    ensures var (workspaces, default) := AddAsWritten(Empty(), None, "__proto__", key);
            Keys(workspaces) == [] && Lookup(workspaces, "__proto__") == None && default == Some("__proto__")
  {
  }

  /** On every other name `addCredential` as written stores the key, as `AddCredential` does. */
  lemma AddAgreesOffProto(workspaces: Record<string>, default: Option<string>, name: string, key: string)
    requires name != "__proto__" || name in Keys(workspaces)
    ensures AddAsWritten(workspaces, default, name, key).0 == Assign(workspaces, name, key)
    ensures Lookup(AddAsWritten(workspaces, default, name, key).0, name) == Some(key)
  {
  }
}
