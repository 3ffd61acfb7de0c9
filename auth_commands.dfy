/**
 * The `auth` commands (src/commands/auth.ts) on top of the credential
 * store: `login`, `logout`, `list` and `default`, and the auth source that
 * `whoami` reports. Each command's console output is a `Report`: the lines
 * written to standard output, those written to standard error, and the exit
 * status. An error that reaches the top-level handler is written as
 * `Error: <message>` with status 1.
 */
module AuthCommands {
  import opened Common
  import opened Errors
  import opened JsonModel
  import opened KeyResolver
  import opened HttpClient
  import opened Credentials

  datatype Report = Report(out: seq<string>, err: seq<string>, exitCode: int)

  /** What the top-level error handler prints for an error. */
  function Handled(e: PylonError): Report {
    Report([], ["Error: " + Message(e)], 1)
  }

  // ---------------------------------------------------------------------
  // The workspace name derived from an organisation name

  /** The characters a derived workspace name may hold: `a-z`, `0-9` and `-`. */
  predicate SlugSafe(c: char) {
    ('a' <= c <= 'z') || ('0' <= c <= '9') || c == '-'
  }

  predicate UpperAscii(c: char) {
    'A' <= c <= 'Z'
  }

  /** `toLowerCase` on the ASCII range. */
  function LowerAscii(c: char): char {
    if UpperAscii(c) then (c as int + 32) as char else c
  }

  function SlugChar(c: char): char {
    var lower := LowerAscii(c);
    if SlugSafe(lower) then lower else '-'
  }

  /** `name.toLowerCase().replace(/[^a-z0-9-]/g, '-')`, character by character. */
  function Slug(name: string): string {
    seq(|name|, i requires 0 <= i < |name| => SlugChar(name[i]))
  }

  /**
   * A derived name has the length of the organisation name; each upper-case
   * ASCII letter becomes its lower-case letter, each safe character stays,
   * and every other character becomes `-`.
   */
  lemma SlugShape(name: string)
    ensures |Slug(name)| == |name|
    ensures forall i :: 0 <= i < |name| ==> SlugSafe(Slug(name)[i])
    ensures forall i :: 0 <= i < |name| && UpperAscii(name[i]) ==> Slug(name)[i] as int == name[i] as int + 32
    ensures forall i :: 0 <= i < |name| && SlugSafe(name[i]) ==> Slug(name)[i] == name[i]
    ensures forall i :: 0 <= i < |name| && !SlugSafe(name[i]) && !UpperAscii(name[i]) ==> Slug(name)[i] == '-'
  {
  }

  /** Deriving a name from a derived name changes nothing. */
  lemma SlugIdempotent(name: string)
    ensures Slug(Slug(name)) == Slug(name)
  {
    assert forall i :: 0 <= i < |name| ==> SlugSafe(Slug(name)[i]);
  }

  /** A name is its own derived name exactly when it already holds only safe characters. */
  lemma SlugFixedPoint(name: string)
    ensures Slug(name) == name <==> forall i :: 0 <= i < |name| ==> SlugSafe(name[i])
  {
    if Slug(name) == name {
      assert forall i :: 0 <= i < |name| ==> SlugSafe(Slug(name)[i]);
    } else {
      var i :| 0 <= i < |name| && Slug(name)[i] != name[i];
      assert !SlugSafe(name[i]);
    }
  }

  // ---------------------------------------------------------------------
  // auth login

  /**
   * How `auth login` ends: logged in, with what it prints (the organisation's
   * name, the workspace, whether it says the workspace became the default,
   * whether it warns that the environment key takes precedence); failed
   * with an error; or failed reading the organisation's name, which
   * JavaScript reports as a `TypeError`.
   */
  datatype LoginOutcome =
    | LoggedIn(orgName: Json, workspace: string, setAsDefault: bool, envWarning: bool)
    | LoginFailed(error: PylonError)
    | OrgUnreadable

  /** The workspace name `login` uses: `--name` verbatim, else the derived name of a text `name`. */
  function LoginWorkspace(name: Option<string>, org: Json): Option<string> {
    if name.Some? then name
    else if Field(org, "name").JStr? then Some(Slug(Field(org, "name").s))
    else None
  }

  /**
   * `auth login`. The key is checked by fetching `/me` with a client made
   * from `--key` (an empty key falls through to the environment and the
   * stored key, as in `createClient`); `me` is what that request gives.
   * Then the credential is stored under the chosen name.
   */
  method Login(store: CredentialStore, key: string, name: Option<string>, env: Option<string>,
               me: Result<ApiResponse, PylonError>)
    returns (outcome: LoginOutcome)
    modifies store
    ensures CreateClient(Some(key), env, old(store.ApiKey(None))).Err? ==> outcome == LoginFailed(AuthError)
    ensures CreateClient(Some(key), env, old(store.ApiKey(None))).Ok? && me.Err? ==> outcome == LoginFailed(me.error)
    ensures CreateClient(Some(key), env, old(store.ApiKey(None))).Ok? && me.Ok? && LoginWorkspace(name, me.value.data).None? ==>
              outcome == OrgUnreadable
    ensures CreateClient(Some(key), env, old(store.ApiKey(None))).Err? || me.Err? || LoginWorkspace(name, me.value.data).None? ==>
              store.default == old(store.default) && store.workspaces == old(store.workspaces)
    ensures CreateClient(Some(key), env, old(store.ApiKey(None))).Ok? && me.Ok? && LoginWorkspace(name, me.value.data).Some? ==>
              var w := LoginWorkspace(name, me.value.data).value;
              && (outcome.LoggedIn? <==> me.value.data != JNull)
              && (outcome.OrgUnreadable? <==> me.value.data == JNull)
              && Lookup(store.workspaces, w) == Some(key)
              && (forall v :: v != w ==> Lookup(store.workspaces, v) == Lookup(old(store.workspaces), v))
              && Keys(store.workspaces) == (if w in old(Keys(store.workspaces)) then old(Keys(store.workspaces))
                                            else old(Keys(store.workspaces)) + [w])
              && (old(Keys(store.workspaces)) == [] ==> store.default == Some(w))
              && (old(Keys(store.workspaces)) != [] ==> store.default == old(store.default))
    ensures outcome.LoggedIn? ==>
              && me.Ok? && me.value.data != JNull
              && outcome.orgName == Field(me.value.data, "name")
              && Some(outcome.workspace) == LoginWorkspace(name, me.value.data)
              && (outcome.setAsDefault <==> |Keys(store.workspaces)| == 1)
              && (outcome.envWarning <==> Truthy(env))
    ensures outcome.LoggedIn? && outcome.setAsDefault && old(store.DefaultConsistent()) ==>
              store.default == Some(outcome.workspace)
    ensures old(store.DefaultConsistent()) ==> store.DefaultConsistent()
  {
    var client := CreateClient(Some(key), env, store.ApiKey(None));
    if client.Err? {
      return LoginFailed(client.error);
    }
    if me.Err? {
      return LoginFailed(me.error);
    }
    var org := me.value.data;
    var workspace := LoginWorkspace(name, org);
    if workspace.None? {
      return OrgUnreadable;
    }
    ghost var before := Keys(store.workspaces);
    store.AddCredential(workspace.value, key);
    var isDefault := |store.Workspaces()| == 1;
    if org == JNull {
      return OrgUnreadable;
    }
    if isDefault && before != [] {
      // The one workspace left is the one just written; a consistent store
      // already had it as its default.
      assert before == [workspace.value];
    }
    outcome := LoggedIn(Field(org, "name"), workspace.value, isDefault, Truthy(env));
  }

  /**
   * The warning `login` prints is accurate: without `--api-key`, a set
   * environment key is the one every later command uses.
   */
  lemma EnvWarningIsAccurate(env: Option<string>, stored: Option<string>)
    requires Truthy(env)
    ensures SourceOf(None, env, stored) == Some(EnvKey)
    ensures ResolveApiKey(None, env, stored) == Ok(env.value)
  {
  }

  // ---------------------------------------------------------------------
  // auth logout

  /** `names.join(sep)`. */
  function Join(names: seq<string>, sep: string): string {
    if names == [] then ""
    else if |names| == 1 then names[0]
    else names[0] + sep + Join(names[1..], sep)
  }

  /** The workspace `logout` acts on: the argument, else the default. */
  function LogoutTarget(workspace: Option<string>, default: Option<string>): Option<string> {
    if workspace.Some? then workspace else default
  }

  /**
   * `auth logout`: removes the named workspace, or the default one. Without
   * a target, or with one the store does not hold, it fails and the store
   * is left as it was.
   */
  method Logout(store: CredentialStore, workspace: Option<string>) returns (report: Report)
    modifies store
    ensures var target := LogoutTarget(workspace, old(store.default));
      && (!Truthy(target) ==>
            report == Report([], ["Error: No workspace specified and no default set."], 1))
      && (Truthy(target) && target.value !in old(Keys(store.workspaces)) ==>
            var listed := Join(old(Keys(store.workspaces)), ", ");
            report == Report([], ["Error: Workspace \"" + target.value + "\" not found.",
                                  "Available: " + (if listed == "" then "(none)" else listed)], 1))
      && (Truthy(target) && target.value in old(Keys(store.workspaces)) ==>
            && report == Report(["Removed credentials for workspace: " + target.value], [], 0)
            && Lookup(store.workspaces, target.value) == None
            && Keys(store.workspaces) == Without(old(Keys(store.workspaces)), target.value)
            && (forall w :: w != target.value ==> Lookup(store.workspaces, w) == Lookup(old(store.workspaces), w))
            && (old(store.default) == target ==>
                  store.default == if Keys(store.workspaces) == [] then None else Some(Keys(store.workspaces)[0]))
            && (old(store.default) != target ==> store.default == old(store.default)))
    ensures report.exitCode != 0 ==> store.default == old(store.default) && store.workspaces == old(store.workspaces)
    ensures old(store.DefaultConsistent()) ==> store.DefaultConsistent()
  {
    var target := LogoutTarget(workspace, store.default);
    if !Truthy(target) {
      return Report([], ["Error: No workspace specified and no default set."], 1);
    }
    var workspaces := store.Workspaces();
    if target.value !in workspaces {
      var listed := Join(workspaces, ", ");
      return Report([], ["Error: Workspace \"" + target.value + "\" not found.",
                         "Available: " + (if listed == "" then "(none)" else listed)], 1);
    }
    store.RemoveCredential(target.value);
    report := Report(["Removed credentials for workspace: " + target.value], [], 0);
  }

  // ---------------------------------------------------------------------
  // auth list

  const NoWorkspaces := ["No workspaces configured.", "Run: pylon auth login --key <api-key>"]

  /** The prefix of a workspace's line: `* ` for the default, two spaces otherwise. */
  function Marker(name: string, default: Option<string>): string {
    if default == Some(name) then "* " else "  "
  }

  /** What `auth list` prints for the stored names and the default. */
  function ListLines(names: seq<string>, default: Option<string>): seq<string> {
    if names == [] then NoWorkspaces
    else ["Configured workspaces:"] + seq(|names|, i requires 0 <= i < |names| => Marker(names[i], default) + names[i])
  }

  /** `auth list`: one line per stored workspace, in key order. */
  method ListWorkspaces(store: CredentialStore) returns (lines: seq<string>)
    ensures lines == ListLines(Keys(store.workspaces), store.default)
  {
    var workspaces := store.Workspaces();
    var defaultWs := store.default;
    if |workspaces| == 0 {
      return NoWorkspaces;
    }
    lines := ["Configured workspaces:"];
    for i := 0 to |workspaces|
      invariant |lines| == i + 1 && lines[0] == "Configured workspaces:"
      invariant forall k :: 0 <= k < i ==> lines[k + 1] == Marker(workspaces[k], defaultWs) + workspaces[k]
    {
      var marker := if Some(workspaces[i]) == defaultWs then "* " else "  ";
      lines := lines + [marker + workspaces[i]];
    }
  }

  /** Line `i + 1` of the listing, the one for the `i`-th name, starts with `* `. */
  predicate MarkedAt(names: seq<string>, default: Option<string>, i: nat)
    requires names != [] && i < |names|
  {
    ListLines(names, default)[i + 1][..2] == "* "
  }

  /**
   * The listing has a line per name after its heading; a name's line is
   * marked exactly when the name is the default, so at most one line is.
   */
  lemma {:induction false} ExactlyDefaultMarked(names: seq<string>, default: Option<string>)
    requires Distinct(names) && names != []
    ensures |ListLines(names, default)| == |names| + 1
    ensures forall i :: 0 <= i < |names| ==> (MarkedAt(names, default, i) <==> default == Some(names[i]))
    ensures forall i, j :: 0 <= i < |names| && 0 <= j < |names| && MarkedAt(names, default, i) && MarkedAt(names, default, j) ==> i == j
  {
    var lines := ListLines(names, default);
    forall i | 0 <= i < |names|
      ensures MarkedAt(names, default, i) <==> default == Some(names[i])
    {
      assert lines[i + 1] == Marker(names[i], default) + names[i];
      assert lines[i + 1][..2] == Marker(names[i], default);
    }
    forall i, j | 0 <= i < |names| && 0 <= j < |names| && MarkedAt(names, default, i) && MarkedAt(names, default, j)
      ensures i == j
    {
      if i != j {
        DistinctIndex(names, i, j);
      }
    }
  }

  /** An empty store prints only the hint to log in. */
  lemma EmptyListHint(default: Option<string>)
    ensures ListLines([], default) == ["No workspaces configured.", "Run: pylon auth login --key <api-key>"]
  {
  }

  // ---------------------------------------------------------------------
  // auth default

  /**
   * `auth default`: without a workspace it reports the default and changes
   * nothing; with one it makes it the default through `setDefaultWorkspace`,
   * which refuses a workspace without a key.
   */
  method DefaultCommand(store: CredentialStore, workspace: Option<string>) returns (report: Report)
    modifies store
    ensures !Truthy(workspace) ==>
              && report == Report([if Truthy(old(store.default)) then "Default workspace: " + old(store.default).value
                                   else "No default workspace set."], [], 0)
              && store.default == old(store.default)
    ensures Truthy(workspace) && Truthy(old(Lookup(store.workspaces, workspace.value))) ==>
              report == Report(["Default workspace set to: " + workspace.value], [], 0)
              && store.default == workspace
    ensures Truthy(workspace) && !Truthy(old(Lookup(store.workspaces, workspace.value))) ==>
              report == Handled(PlainError(Credentials.NotFoundMessage(workspace.value)))
              && store.default == old(store.default)
    ensures store.workspaces == old(store.workspaces)
    ensures old(store.DefaultConsistent()) ==> store.DefaultConsistent()
  {
    if !Truthy(workspace) {
      var defaultWs := store.default;
      if Truthy(defaultWs) {
        report := Report(["Default workspace: " + defaultWs.value], [], 0);
      } else {
        report := Report(["No default workspace set."], [], 0);
      }
      return;
    }
    var outcome := store.SetDefaultWorkspace(workspace.value);
    if outcome.Fail? {
      return Handled(outcome.error);
    }
    report := Report(["Default workspace set to: " + workspace.value], [], 0);
  }

  // ---------------------------------------------------------------------
  // The auth source `whoami` reports

  /** The source `whoami` names as written: the environment is asked first. */
  function WhoamiSourceAsWritten(flag: Option<string>, env: Option<string>): KeySource {
    if Truthy(env) then EnvKey
    else if Truthy(flag) then FlagKey
    else StoredKey
  }

  /**
   * With both `--api-key` and `PYLON_API_KEY` set, the client authenticates
   * with the flag's key while `whoami` names the environment variable.
   */
  lemma WhoamiMisreportsFlag()
    ensures ResolveApiKey(Some("flag-key"), Some("env-key"), None) == Ok("flag-key")
    ensures SourceOf(Some("flag-key"), Some("env-key"), None) == Some(FlagKey)
    ensures WhoamiSourceAsWritten(Some("flag-key"), Some("env-key")) == EnvKey
  {
  }

  /** The source `whoami` names, in the precedence the key resolver uses. */
  function WhoamiSource(flag: Option<string>, env: Option<string>): KeySource {
    if Truthy(flag) then FlagKey
    else if Truthy(env) then EnvKey
    else StoredKey
  }

  /**
   * Whenever a client could be created, the corrected report names the
   * level whose key the client holds; the code as written agrees with it
   * exactly when the flag is not set or the environment is not.
   */
  lemma WhoamiSourceIsKeySource(flag: Option<string>, env: Option<string>, stored: Option<string>)
    requires CreateClient(flag, env, stored).Ok?
    ensures SourceOf(flag, env, stored) == Some(WhoamiSource(flag, env))
    ensures match WhoamiSource(flag, env)
            case FlagKey => CreateClient(flag, env, stored).value.apiKey == flag.value
            case EnvKey => CreateClient(flag, env, stored).value.apiKey == env.value
            case StoredKey => CreateClient(flag, env, stored).value.apiKey == stored.value
    ensures WhoamiSourceAsWritten(flag, env) == WhoamiSource(flag, env) <==> !(Truthy(flag) && Truthy(env))
  {
  }
}
