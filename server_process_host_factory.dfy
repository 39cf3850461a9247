/** `Services.Lifecycle.ServerProcessHostFactory`: turns the start information of a game server
    into an `OsProcesses.ProcessHost` running `java -jar "<server jar>" <server arguments>` in the
    jar's directory, wrapped in a `Lifecycle.ServerProcessHost`. */
module ServerProcessHostFactory {
  import opened Wrappers
  import opened Text
  import opened ProcessTypes
  import OsProcesses
  import Lifecycle

  /** The JDK executable, the server jar and the extra server arguments (possibly null). */
  datatype ServerProcessStartInfo = ServerProcessStartInfo(jdkFullPath: string, serverJarFullPath: string, serverArgs: Option<string>)

  /** String interpolation renders null as nothing. */
  function Interpolated(s: Option<string>): string {
    if s.Some? then s.value else ""
  }

  /** `-jar "<server jar>"`, the part of the arguments that is always there. */
  function JarClause(serverJarFullPath: string): (r: string)
    ensures |r| == |serverJarFullPath| + 7
    ensures r[0] == '-' && r[|r| - 1] == '"'
  {
    "-jar \"" + serverJarFullPath + "\""
  }

  /** The argument string built in `CreateProcessHost`: the interpolated text, trimmed. Since the
      jar clause starts with `-` and ends with a quote, trimming only ever cuts the trailing white
      space of the server arguments. */
  function ServerArguments(info: ServerProcessStartInfo): (r: string)
    ensures r == JarClause(info.serverJarFullPath) + TrimEnd(" " + Interpolated(info.serverArgs))
    ensures |r| >= |JarClause(info.serverJarFullPath)| && r[..|JarClause(info.serverJarFullPath)|] == JarClause(info.serverJarFullPath)
  {
    var clause := JarClause(info.serverJarFullPath);
    var text := "-jar \"" + info.serverJarFullPath + "\" " + Interpolated(info.serverArgs);
    assert text == clause + (" " + Interpolated(info.serverArgs));
    TrimKeepsSolidPrefix(clause, " " + Interpolated(info.serverArgs));
    Trim(text)
  }

  /** Blank (or null) server arguments leave exactly the jar clause. */
  lemma BlankServerArgs(info: ServerProcessStartInfo)
    requires IsNullOrWhiteSpace(info.serverArgs)
    ensures ServerArguments(info) == JarClause(info.serverJarFullPath)
  {
    var q := " " + Interpolated(info.serverArgs);
    assert AllWhiteSpace(q) by {
      forall i | 0 <= i < |q|
        ensures IsWhiteSpace(q[i])
      {
        if i > 0 {
          assert q[i] == Interpolated(info.serverArgs)[i - 1];
        }
      }
    }
    TrimEndOfWhiteSpace(q);
  }

  /** Server arguments that do not end in white space come back after a single space, unchanged. */
  lemma SolidServerArgs(info: ServerProcessStartInfo)
    requires info.serverArgs.Some? && |info.serverArgs.value| > 0
    requires !IsWhiteSpace(info.serverArgs.value[|info.serverArgs.value| - 1])
    ensures ServerArguments(info) == JarClause(info.serverJarFullPath) + " " + info.serverArgs.value
  {
    var q := " " + info.serverArgs.value;
    assert q[|q| - 1] == info.serverArgs.value[|info.serverArgs.value| - 1];
    assert TrimEnd(q) == q;
  }

  /** The configuration `CreateProcessHost` hands to the host. `directoryName` is what
      `Path.GetDirectoryName` returns for the jar path (null for a root or null path). An empty
      path makes `FileInfo` and `DirectoryInfo` throw `ArgumentException`, a null one
      `ArgumentNullException`. */
  function ProcessHostConfig(info: ServerProcessStartInfo, directoryName: Option<string>): (r: Result<HostConfig>)
    ensures r.Ok? <==> info.jdkFullPath != [] && directoryName.Some? && directoryName.value != []
    ensures info.jdkFullPath == [] ==> r == Err(Argument)
    ensures info.jdkFullPath != [] && directoryName.None? ==> r == Err(ArgumentNull)
    ensures r.Ok? ==> (r.value.executable == info.jdkFullPath && r.value.workingDirectory == directoryName.value
      && r.value.arguments == Some(ServerArguments(info)))
  {
    if info.jdkFullPath == [] then Err(Argument)
    else if directoryName.None? then Err(ArgumentNull)
    else if directoryName.value == [] then Err(Argument)
    else Ok(HostConfig(info.jdkFullPath, directoryName.value, Some(ServerArguments(info))))
  }

  /** `CreateProcessHost`. */
  method CreateProcessHost(info: ServerProcessStartInfo, directoryName: Option<string>) returns (r: Result<OsProcesses.ProcessHost>)
    ensures r.Ok? <==> ProcessHostConfig(info, directoryName).Ok?
    ensures r.Err? ==> r.error == ProcessHostConfig(info, directoryName).error
    ensures r.Ok? ==> (fresh(r.value) && r.value.config == ProcessHostConfig(info, directoryName).value
      && r.value.State() == OsProcesses.Initial && r.value.trace == [])
  {
    var config := ProcessHostConfig(info, directoryName);
    if config.Err? {
      return Err(config.error);
    }
    var host := new OsProcesses.ProcessHost(config.value);
    return Ok(host);
  }

  /** `Create`: a fresh host, not started, wrapped in a fresh decorator subscribed to it. */
  method Create(info: ServerProcessStartInfo, directoryName: Option<string>) returns (r: Result<Lifecycle.ServerProcessHost>)
    ensures r.Ok? <==> ProcessHostConfig(info, directoryName).Ok?
    ensures r.Err? ==> r.error == ProcessHostConfig(info, directoryName).error
    ensures r.Ok? ==> (fresh(r.value) && fresh(r.value.host)
      && r.value.host.config == ProcessHostConfig(info, directoryName).value
      && r.value.host.State() == OsProcesses.Initial && r.value.host.trace == []
      && r.value.View() == Lifecycle.Fresh)
  {
    var host := CreateProcessHost(info, directoryName);
    if host.Err? {
      return Err(host.error);
    }
    var server := new Lifecycle.ServerProcessHost(host.value);
    return Ok(server);
  }
}
