/**
 * The REST side of the manager: the configuration record the requests read, the endpoint
 * paths, the two requests (list, delete), the abstract reply of the transport and how
 * `getCommands` and `deleteCommand` classify it.
 */
module Api {

  /** The global `CONFIG` record. */
  datatype Config = Config(appId: string, botToken: string, guildId: string, outputDir: string)

  const DefaultOutputDir: string := "./discord_commands"

  /** `CONFIG` as the program starts. */
  const Defaults: Config := Config("", "", "", DefaultOutputDir)

  /** The `isGuild` flag threaded through every operation. */
  datatype Scope = Global | Guild

  /** A command record as listed by the remote API (its other fields are passed through untouched). */
  datatype Command = Command(id: string, name: string)

  datatype Method = Get | Delete

  /** One HTTPS request: method, host, path and the `Authorization` header. */
  datatype Request = Request(verb: Method, host: string, path: string, authorization: string)

  /** The parsed body of a reply: empty, or a JSON array of commands. */
  datatype Body = NoBody | Commands(commands: seq<Command>)

  /** What `httpsRequest` resolves with, or that it rejected with a request error. */
  datatype Reply = Response(status: int, data: Body) | RequestError

  const Host: string := "discord.com"

  /** The part of every path that names the application. */
  function ApplicationRoot(appId: string): string {
    "/api/v10/applications/" + appId + "/"
  }

  /** The list endpoint of a scope. */
  function CommandsPath(appId: string, guildId: string, scope: Scope): (p: string)
    ensures ApplicationRoot(appId) <= p
  {
    match scope
    case Guild => "/api/v10/applications/" + appId + "/guilds/" + guildId + "/commands"
    case Global => "/api/v10/applications/" + appId + "/commands"
  }

  /** The endpoint of one command of a scope. */
  function CommandPath(appId: string, guildId: string, scope: Scope, commandId: string): (p: string)
    ensures ApplicationRoot(appId) <= p
  {
    match scope
    case Guild => "/api/v10/applications/" + appId + "/guilds/" + guildId + "/commands/" + commandId
    case Global => "/api/v10/applications/" + appId + "/commands/" + commandId
  }

  function Authorization(botToken: string): string {
    "Bot " + botToken
  }

  /** A request sent to discord.com for the configured application with the configured token. */
  predicate Authentic(c: Config, request: Request) {
    request.host == Host && request.authorization == Authorization(c.botToken) &&
    ApplicationRoot(c.appId) <= request.path
  }

  /** The GET that `getCommands` issues. */
  function ListRequest(c: Config, scope: Scope): (request: Request)
    ensures Authentic(c, request) && request.verb == Get
  {
    Request(Get, Host, CommandsPath(c.appId, c.guildId, scope), Authorization(c.botToken))
  }

  /** The DELETE that `deleteCommand` issues. */
  function DeleteRequest(c: Config, scope: Scope, commandId: string): (request: Request)
    ensures Authentic(c, request) && request.verb == Delete
  {
    Request(Delete, Host, CommandPath(c.appId, c.guildId, scope, commandId), Authorization(c.botToken))
  }

  /**
   * `getCommands`' reading of a reply: the body of a 200, with no body read as the empty list;
   * any other status and any request error give the empty list.
   */
  function ListedCommands(reply: Reply): (commands: seq<Command>)
    ensures commands != [] ==> reply.Response? && reply.status == 200 && reply.data == Commands(commands)
    ensures !(reply.Response? && reply.status == 200) ==> commands == []
    ensures reply.Response? && reply.status == 200 && reply.data.Commands? ==> commands == reply.data.commands
  {
    match reply
    case RequestError => []
    case Response(status, data) =>
      if status != 200 then []
      else match data
        case NoBody => []
        case Commands(cs) => cs
  }

  /** `deleteCommand`'s reading of a reply: only a 204 or a 200 is a success. */
  function DeleteSucceeded(reply: Reply): (ok: bool)
    ensures ok <==> reply.Response? && (reply.status == 200 || reply.status == 204)
    ensures ok ==> 200 <= reply.status < 300
  {
    match reply
    case RequestError => false
    case Response(status, _) => status == 204 || status == 200
  }

  /**
   * `commands.find(cmd => cmd.id === commandId)`, as an index: the position of the first command
   * with that id, or `|commands|` when there is none.
   */
  function IndexOfId(commands: seq<Command>, commandId: string): (k: nat)
    ensures k <= |commands|
    ensures k < |commands| ==> commands[k].id == commandId
    ensures forall j :: 0 <= j < k ==> commands[j].id != commandId
  {
    if commands == [] then 0
    else if commands[0].id == commandId then 0
    else 1 + IndexOfId(commands[1..], commandId)
  }

  /** The global list path is the `applications/{appId}` base followed by "/commands". */
  lemma GlobalListPath(appId: string, guildId: string)
    ensures CommandsPath(appId, guildId, Global) == "/api/v10/applications/" + appId + "/commands"
  {
  }

  /** The guild list path is the global one with "/guilds/{guildId}" put in before "/commands". */
  lemma GuildPathInsertsGuild(appId: string, guildId: string)
    ensures var global := CommandsPath(appId, guildId, Global);
            |global| >= 9 &&
            CommandsPath(appId, guildId, Guild) == global[..|global| - 9] + "/guilds/" + guildId + global[|global| - 9..]
  {
    var base := "/api/v10/applications/" + appId;
    var global := CommandsPath(appId, guildId, Global);
    assert global == base + "/commands";
    assert global[..|global| - 9] == base;
    assert global[|global| - 9..] == "/commands";
  }

  /** The delete path of a command is the list path of its scope followed by "/" and its id. */
  lemma CommandPathExtends(appId: string, guildId: string, scope: Scope, commandId: string)
    ensures CommandPath(appId, guildId, scope, commandId) == CommandsPath(appId, guildId, scope) + "/" + commandId
  {
  }

  /** A delete path names exactly one command: equal paths mean equal ids. */
  lemma CommandPathIdentifies(appId: string, guildId: string, scope: Scope, id1: string, id2: string)
    requires CommandPath(appId, guildId, scope, id1) == CommandPath(appId, guildId, scope, id2)
    ensures id1 == id2
  {
    var prefix := CommandsPath(appId, guildId, scope) + "/";
    CommandPathExtends(appId, guildId, scope, id1);
    CommandPathExtends(appId, guildId, scope, id2);
    assert CommandPath(appId, guildId, scope, id1) == prefix + id1;
    assert CommandPath(appId, guildId, scope, id2) == prefix + id2;
    assert (prefix + id1)[|prefix|..] == id1;
    assert (prefix + id2)[|prefix|..] == id2;
  }

  /** For one application, no global path (list or delete) is ever a guild path. */
  lemma ScopesNeverCollide(appId: string, guildId1: string, guildId2: string, id1: string, id2: string)
    ensures CommandsPath(appId, guildId1, Global) != CommandsPath(appId, guildId2, Guild)
    ensures CommandPath(appId, guildId1, Global, id1) != CommandPath(appId, guildId2, Guild, id2)
    ensures CommandsPath(appId, guildId1, Global) != CommandPath(appId, guildId2, Guild, id2)
    ensures CommandPath(appId, guildId1, Global, id1) != CommandsPath(appId, guildId2, Guild)
  {
    var n := |"/api/v10/applications/" + appId|;
    var g := "/api/v10/applications/" + appId + "/guilds/" + guildId2;
    assert CommandsPath(appId, guildId1, Global)[n + 1] == 'c';
    assert CommandsPath(appId, guildId2, Guild) == g + "/commands";
    assert CommandsPath(appId, guildId2, Guild)[n + 1] == 'g';
    assert CommandPath(appId, guildId1, Global, id1)[n + 1] == 'c';
    assert CommandPath(appId, guildId2, Guild, id2) == g + "/commands/" + id2;
    assert CommandPath(appId, guildId2, Guild, id2)[n + 1] == 'g';
  }
}
