/** Start-up configuration: the test command, the auth token, the settings
    file (a JSON object), the excluded telemetry fields, the retry count,
    the idle timeout and the server endpoint, and the client they make.
    Command-line parsing, file reads and JSON decoding are abstract. */
module Settings {
  import opened Wrappers
  import opened GoStrings
  import Client

  /** A decoded JSON value; numbers are taken as integers. */
  datatype Json =
    | JNull
    | JBool(b: bool)
    | JNumber(n: int)
    | JString(s: string)
    | JArray(items: seq<Json>)
    | JObject(fields: map<string, Json>)

  /** The top-level object of the settings file. */
  type SettingsMap = map<string, Json>

  // ---------------------------------------------------------------------
  // Test command
  // ---------------------------------------------------------------------

  /** The first positional argument that does not look like a flag, or ""
      when there is none. */
  method FirstPositional(args: seq<string>) returns (testCommand: string)
    ensures testCommand != "" ==>
              exists i :: 0 <= i < |args| && args[i] == testCommand && !HasPrefix(args[i], "-")
                          && forall j :: 0 <= j < i ==> HasPrefix(args[j], "-")
    ensures (forall i :: 0 <= i < |args| ==> HasPrefix(args[i], "-")) ==> testCommand == ""
    ensures forall i :: 0 <= i < |args| && !HasPrefix(args[i], "-") && (forall j :: 0 <= j < i ==> HasPrefix(args[j], "-"))
              ==> testCommand == args[i]
  {
    testCommand := "";
    var i := 0;
    while i < |args|
      invariant 0 <= i <= |args|
      invariant forall j :: 0 <= j < i ==> HasPrefix(args[j], "-")
    {
      if !HasPrefix(args[i], "-") {
        testCommand := args[i];
        return;
      }
      i := i + 1;
    }
  }

  /** The "Run" setting, when it is a string. */
  function RunSetting(settings: SettingsMap): (r: string)
    ensures "Run" in settings && settings["Run"].JString? ==> r == settings["Run"].s
    ensures !("Run" in settings && settings["Run"].JString?) ==> r == ""
  {
    if "Run" in settings && settings["Run"].JString? then settings["Run"].s else ""
  }

  /** The test command: the first positional argument, else the "Run"
      setting. */
  method ResolveTestCommand(args: seq<string>, settings: SettingsMap) returns (testCommand: string)
    ensures forall i :: 0 <= i < |args| && !HasPrefix(args[i], "-") && (forall j :: 0 <= j < i ==> HasPrefix(args[j], "-"))
              ==> testCommand == if args[i] != "" then args[i] else RunSetting(settings)
    ensures (forall i :: 0 <= i < |args| ==> HasPrefix(args[i], "-")) ==> testCommand == RunSetting(settings)
  {
    testCommand := FirstPositional(args);
    if testCommand == "" {
      testCommand := RunSetting(settings);
    }
  }

  // ---------------------------------------------------------------------
  // Auth token
  // ---------------------------------------------------------------------

  const TokenFileUnreadable := "Could not read from the specified auth token file"
  const TokenFileEmpty := "Could not find an auth token in the specified file"

  /** The auth token: the flag, else the trimmed contents of the token
      file (whose failure or emptiness is fatal), else the environment. */
  function ResolveToken(tokenFlag: string, tokenFileFlag: string, fileContents: Result<string>, envToken: string)
    : (r: Result<string>)
    ensures tokenFlag != "" ==> r == Ok(tokenFlag)
    ensures tokenFlag == "" && tokenFileFlag != "" && fileContents.Err? ==> r == Err(TokenFileUnreadable)
    ensures tokenFlag == "" && tokenFileFlag != "" && fileContents.Ok? ==>
              (TrimSpace(fileContents.value) == "" ==> r == Err(TokenFileEmpty))
              && (TrimSpace(fileContents.value) != "" ==> r == Ok(TrimSpace(fileContents.value)))
    ensures tokenFlag == "" && tokenFileFlag == "" ==> r == Ok(envToken)
  {
    if tokenFlag != "" then Ok(tokenFlag)
    else if tokenFileFlag != "" then
      if fileContents.Err? then Err(TokenFileUnreadable)
      else
        var t := TrimSpace(fileContents.value);
        if t == "" then Err(TokenFileEmpty) else Ok(t)
    else Ok(envToken)
  }

  /** A token file holding the token on a line of its own yields exactly
      the token, and the environment is then not consulted. */
  lemma TokenFileIsTrimmed(tokenFileFlag: string, pre: string, token: string, post: string, envToken: string)
    requires tokenFileFlag != ""
    requires AllSpace(pre) && AllSpace(post)
    requires |token| > 0 && !IsSpace(token[0]) && !IsSpace(token[|token| - 1])
    ensures ResolveToken("", tokenFileFlag, Ok(pre + token + post), envToken) == Ok(token)
  {
    TrimSpaceStripsPadding(pre, token, post);
  }

  /** An empty token can only come from an empty environment variable with
      neither flag given. */
  lemma EmptyTokenOnlyFromEnvironment(tokenFlag: string, tokenFileFlag: string, fileContents: Result<string>,
                                      envToken: string)
    ensures ResolveToken(tokenFlag, tokenFileFlag, fileContents, envToken) == Ok("") <==>
              tokenFlag == "" && tokenFileFlag == "" && envToken == ""
  {
  }

  // ---------------------------------------------------------------------
  // Settings file
  // ---------------------------------------------------------------------

  const SettingsUnreadable := "Could not read from the specified settings file!"
  const SettingsUnparsable := "Could not parse JSON from the specified settings file!"

  /** The settings: empty without a settings flag; otherwise the decoded
      object, where an unreadable file or a document that is not a JSON
      object is fatal. */
  function LoadSettings(settingsFlag: string, contents: Result<string>, parse: string -> Option<SettingsMap>)
    : (r: Result<SettingsMap>)
    ensures settingsFlag == "" ==> r == Ok(map[])
    ensures settingsFlag != "" && contents.Err? ==> r == Err(SettingsUnreadable)
    ensures settingsFlag != "" && contents.Ok? ==>
              (parse(contents.value).None? ==> r == Err(SettingsUnparsable))
              && (parse(contents.value).Some? ==> r == Ok(parse(contents.value).value))
  {
    if settingsFlag == "" then Ok(map[])
    else if contents.Err? then Err(SettingsUnreadable)
    else match parse(contents.value)
      case None => Err(SettingsUnparsable)
      case Some(settings) => Ok(settings)
  }

  // ---------------------------------------------------------------------
  // Excluded telemetry fields
  // ---------------------------------------------------------------------

  /** The string elements of a list, each mapped to true. */
  function StringElements(items: seq<Json>): (r: map<string, bool>)
    ensures forall k :: k in r <==> JString(k) in items
    ensures forall k :: k in r ==> r[k]
    decreases |items|
  {
    if |items| == 0 then map[]
    else
      var rest := StringElements(items[1..]);
      assert forall k :: JString(k) in items <==> items[0] == JString(k) || JString(k) in items[1..] by {
        assert items == [items[0]] + items[1..];
      }
      if items[0].JString? then rest[items[0].s := true] else rest
  }

  /** `ExcludedTelemetryFields`: its string elements when it is a list;
      anything else excludes nothing. */
  function ExcludedFields(settings: SettingsMap): (r: map<string, bool>)
    ensures forall k :: k in r <==>
              "ExcludedTelemetryFields" in settings && settings["ExcludedTelemetryFields"].JArray?
              && JString(k) in settings["ExcludedTelemetryFields"].items
    ensures forall k :: k in r ==> r[k]
  {
    if "ExcludedTelemetryFields" in settings && settings["ExcludedTelemetryFields"].JArray?
    then StringElements(settings["ExcludedTelemetryFields"].items)
    else map[]
  }

  // ---------------------------------------------------------------------
  // Numbers and the endpoint
  // ---------------------------------------------------------------------

  /** The default of the retry flag, meaning "not given". */
  const RetryFlagUnset := -1

  /** The number under `key`, or 0 when it is absent or not a number. */
  function NumberSetting(settings: SettingsMap, key: string): (r: int)
    ensures key in settings && settings[key].JNumber? ==> r == settings[key].n
    ensures !(key in settings && settings[key].JNumber?) ==> r == 0
  {
    if key in settings && settings[key].JNumber? then settings[key].n else 0
  }

  /** The retry count: the flag unless it holds its default, else the
      numeric "NumRetries" setting, else zero. */
  function ResolveRetries(retryFlag: int, settings: SettingsMap): (r: int)
    ensures retryFlag != RetryFlagUnset ==> r == retryFlag
    ensures retryFlag == RetryFlagUnset ==> r == NumberSetting(settings, "NumRetries")
  {
    if retryFlag == RetryFlagUnset then NumberSetting(settings, "NumRetries") else retryFlag
  }

  /** The flag always wins over the settings file, and the settings file
      over the zero default. */
  lemma RetryPrecedence(retryFlag: int, settings: SettingsMap, other: SettingsMap)
    ensures retryFlag != RetryFlagUnset ==> ResolveRetries(retryFlag, settings) == ResolveRetries(retryFlag, other)
    ensures "NumRetries" !in settings ==> ResolveRetries(RetryFlagUnset, settings) == 0
  {
  }

  /** The server's domains and path, which the build fixes. */
  datatype ServerNames = ServerNames(serverDomain: string, devServerDomain: string, wrapServerPath: string)

  /** The websocket location: secure on the production domain unless the
      build is a local development build. */
  function Endpoint(localDevBuild: string, names: ServerNames): (r: string)
    ensures localDevBuild != "true" ==> HasPrefix(r, "wss://") && r == "wss://" + names.serverDomain + "/" + names.wrapServerPath
    ensures localDevBuild == "true" ==> HasPrefix(r, "ws://") && !HasPrefix(r, "wss://")
                                        && r == "ws://" + names.devServerDomain + "/" + names.wrapServerPath
  {
    if localDevBuild == "true" then
      var r := "ws://" + names.devServerDomain + "/" + names.wrapServerPath;
      assert r[..5] == "ws://";
      assert |r| >= 6 ==> r[..6] != "wss://" by {
        if |r| >= 6 { assert r[2] == ':' && "wss://"[2] == 's'; }
      }
      r
    else
      var r := "wss://" + names.serverDomain + "/" + names.wrapServerPath;
      assert r[..6] == "wss://";
      r
  }

  // ---------------------------------------------------------------------
  // The client `main` builds
  // ---------------------------------------------------------------------

  /** The command line as parsed: the flags' values and the positional
      arguments. */
  datatype CommandLine = CommandLine(tokenFlag: string, tokenFileFlag: string, settingsFlag: string,
                                     retryFlag: int, args: seq<string>)

  /** What `main` reads from outside: the two files, the environment
      variable, and the build's variables. */
  datatype Surroundings = Surroundings(
    tokenFile: Result<string>,
    settingsFile: Result<string>,
    parse: string -> Option<SettingsMap>,
    envToken: string,
    localDevBuild: string,
    names: ServerNames)

  /** `main` up to `Run`: the client it configures, or the message of the
      fatal error it stops with. The token is resolved before the settings
      file is read. */
  method Configure(cl: CommandLine, env: Surroundings) returns (r: Result<Client.Client>)
    ensures ResolveToken(cl.tokenFlag, cl.tokenFileFlag, env.tokenFile, env.envToken).Err? ==>
              r == Err(ResolveToken(cl.tokenFlag, cl.tokenFileFlag, env.tokenFile, env.envToken).error)
    ensures ResolveToken(cl.tokenFlag, cl.tokenFileFlag, env.tokenFile, env.envToken).Ok?
            && LoadSettings(cl.settingsFlag, env.settingsFile, env.parse).Err? ==>
              r == Err(LoadSettings(cl.settingsFlag, env.settingsFile, env.parse).error)
    ensures r.Ok? <==>
              ResolveToken(cl.tokenFlag, cl.tokenFileFlag, env.tokenFile, env.envToken).Ok?
              && LoadSettings(cl.settingsFlag, env.settingsFile, env.parse).Ok?
    ensures r.Ok? ==>
              var settings := LoadSettings(cl.settingsFlag, env.settingsFile, env.parse).value;
              var c := r.value;
              && c.token == ResolveToken(cl.tokenFlag, cl.tokenFileFlag, env.tokenFile, env.envToken).value
              && c.websocketLocation == Endpoint(env.localDevBuild, env.names)
              && c.excludedTelemetryFields == ExcludedFields(settings)
              && c.timeoutMinutes == NumberSetting(settings, "Timeout")
              && c.numRetries == ResolveRetries(cl.retryFlag, settings)
              && c.exitCode == 0 && !c.wasAccessed && !c.closed && c.connections == map[]
              && c.ws.None? && c.terminal.None? && c.dashboardUrl == ""
    ensures r.Ok? ==>
              var settings := LoadSettings(cl.settingsFlag, env.settingsFile, env.parse).value;
              var args := cl.args;
              && (forall i :: 0 <= i < |args| && !HasPrefix(args[i], "-") && (forall j :: 0 <= j < i ==> HasPrefix(args[j], "-"))
                    ==> r.value.testCommand == if args[i] != "" then args[i] else RunSetting(settings))
              && ((forall i :: 0 <= i < |args| ==> HasPrefix(args[i], "-")) ==> r.value.testCommand == RunSetting(settings))
  {
    var token := ResolveToken(cl.tokenFlag, cl.tokenFileFlag, env.tokenFile, env.envToken);
    if token.Err? {
      return Err(token.error);
    }
    var loaded := LoadSettings(cl.settingsFlag, env.settingsFile, env.parse);
    if loaded.Err? {
      return Err(loaded.error);
    }
    var settings := loaded.value;
    var testCommand := ResolveTestCommand(cl.args, settings);
    return Ok(Client.Client(
      testCommand, token.value, Endpoint(env.localDevBuild, env.names), "",
      NumberSetting(settings, "Timeout"), ResolveRetries(cl.retryFlag, settings),
      false, 0, ExcludedFields(settings), map[], None, false, false, None));
  }
}
