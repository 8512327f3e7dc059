/**
 * The controller of the manager as functions over an explicit state: the `CONFIG` record, the
 * console answers not yet read, the requests issued and the lists saved so far. The transport is
 * a `Server` oracle that answers the n-th request of the run.
 *
 * When the script of answers runs out, the prompt being asked is never answered and nothing
 * after it happens: each function then returns the state it had reached.
 */
module Workflow {
  import opened Answers
  import opened Api

  /** `saveToFile(commands, filename)` into the output directory configured at that moment. */
  datatype Save = Save(outputDir: string, filename: string, commands: seq<Command>)

  datatype State = State(config: Config, input: seq<string>, requests: seq<Request>, saves: seq<Save>)

  /** The reply to the request at a given position of the run's request log. */
  type Server = (nat, Request) -> Reply

  /** A state and the command list obtained on the way to it. */
  datatype Fetched = Fetched(st: State, commands: seq<Command>)

  /** A state and whether the main loop goes on, as `showMainMenu` returns it. */
  datatype Step = Step(st: State, again: bool)

  /** A state and whether the configuration collected so far succeeded, as `askForConfiguration` returns it. */
  datatype Setup = Setup(st: State, ok: bool)

  /** The state of a run before its first prompt. */
  function Start(script: seq<string>): State {
    State(Defaults, script, [], [])
  }

  /** `r` is a later state of the same run as `s`: answers only consumed, requests and saves only appended. */
  predicate Later(s: State, r: State) {
    |r.input| <= |s.input| && r.input == s.input[|s.input| - |r.input|..] &&
    s.requests <= r.requests && s.saves <= r.saves
  }

  /** Every request issued between `s` and `r` is for the application and token configured in `s`. */
  predicate AuthenticSince(s: State, r: State) {
    |s.requests| <= |r.requests| &&
    forall i :: |s.requests| <= i < |r.requests| ==> Authentic(s.config, r.requests[i])
  }

  /** Two steps of a run, each later and authentic under one configuration, make one such step. */
  lemma Chain(a: State, b: State, c: State)
    requires Later(a, b) && Later(b, c) && b.config == a.config
    requires AuthenticSince(a, b) && AuthenticSince(b, c)
    ensures Later(a, c) && AuthenticSince(a, c)
  {
    forall i | |a.requests| <= i < |c.requests|
      ensures Authentic(a.config, c.requests[i])
    {
      if i < |b.requests| {
        assert c.requests[i] == b.requests[i];
      }
    }
  }

  /** Reads one answer. */
  function Advance(s: State): State
    requires s.input != []
  {
    s.(input := s.input[1..])
  }

  /** The file `saveToFile` writes a scope's list to: a JSON file, one per scope. */
  function FileName(scope: Scope): (name: string)
    ensures |name| > 5 && name[|name| - 5..] == ".json"
  {
    match scope
    case Global => "commands_globales.json"
    case Guild => "commands_serveur.json"
  }

  /** `getCommands(isGuild)`: one GET, whose reply is classified into a list. */
  function Fetch(s: State, scope: Scope, server: Server): (f: Fetched)
    ensures f.st.requests == s.requests + [ListRequest(s.config, scope)]
    ensures f.st.input == s.input && f.st.config == s.config && f.st.saves == s.saves
    ensures f.commands == ListedCommands(server(|s.requests|, f.st.requests[|s.requests|]))
  {
    var request := ListRequest(s.config, scope);
    Fetched(s.(requests := s.requests + [request]), ListedCommands(server(|s.requests|, request)))
  }

  /**
   * `getAndSaveGlobalCommands` (Global) and `getAndSaveGuildCommands` (Guild): fetch the list,
   * save it only when it is non-empty; with no server id, the guild list is not even requested.
   */
  function GetAndSave(s: State, scope: Scope, server: Server): (f: Fetched)
    ensures scope == Guild && s.config.guildId == "" ==> f == Fetched(s, [])
    ensures !(scope == Guild && s.config.guildId == "") ==>
              f.st.requests == s.requests + [ListRequest(s.config, scope)] &&
              f.commands == ListedCommands(server(|s.requests|, ListRequest(s.config, scope)))
    ensures f.st.saves == s.saves + (if f.commands == [] then [] else [Save(s.config.outputDir, FileName(scope), f.commands)])
    ensures f.st.input == s.input && f.st.config == s.config && AuthenticSince(s, f.st)
  {
    if scope == Guild && s.config.guildId == "" then Fetched(s, [])
    else
      var got := Fetch(s, scope, server);
      if got.commands == [] then got
      else Fetched(got.st.(saves := got.st.saves + [Save(s.config.outputDir, FileName(scope), got.commands)]), got.commands)
  }

  /** The `for (const cmd of commands)` loop: one DELETE per command, in list order. */
  function DeleteAll(c: Config, scope: Scope, commands: seq<Command>): (requests: seq<Request>)
    ensures |requests| == |commands|
    ensures forall i :: 0 <= i < |commands| ==> requests[i] == DeleteRequest(c, scope, commands[i].id)
  {
    if commands == [] then []
    else DeleteAll(c, scope, commands[..|commands| - 1]) + [DeleteRequest(c, scope, commands[|commands| - 1].id)]
  }

  /** The "all" branch of `handleCommandDeletion`: one confirmation, then the bulk delete. */
  function ConfirmAll(s: State, commands: seq<Command>, scope: Scope): (r: State)
    ensures Later(s, r) && r.config == s.config && r.saves == s.saves && AuthenticSince(s, r)
    ensures r.requests != s.requests ==>
              s.input != [] && r.input == s.input[1..] && IsYes(s.input[0]) &&
              r.requests == s.requests + DeleteAll(s.config, scope, commands)
    ensures r.requests == s.requests || r.requests == s.requests + DeleteAll(s.config, scope, commands)
  {
    if s.input == [] then s
    else if !IsYes(s.input[0]) then Advance(s)
    else Advance(s).(requests := s.requests + DeleteAll(s.config, scope, commands))
  }

  /**
   * The "specific" branch of `handleCommandDeletion`: the command id, its lookup, one
   * confirmation, then one delete of the first command with that id.
   */
  function PickOne(s: State, commands: seq<Command>, scope: Scope): (r: State)
    ensures Later(s, r) && r.config == s.config && r.saves == s.saves && AuthenticSince(s, r)
    ensures r.requests != s.requests ==>
              |s.input| >= 2 && r.input == s.input[2..] && IsYes(s.input[1]) &&
              IndexOfId(commands, s.input[0]) < |commands| &&
              r.requests == s.requests + [DeleteRequest(s.config, scope, s.input[0])]
  {
    if s.input == [] then s
    else
      var k := IndexOfId(commands, s.input[0]);
      var s1 := Advance(s);
      if k == |commands| then s1
      else if s1.input == [] then s1
      else if !IsYes(s1.input[0]) then Advance(s1)
      else Advance(s1).(requests := s.requests + [DeleteRequest(s.config, scope, commands[k].id)])
  }

  /**
   * `handleCommandDeletion(commands, isGuild)`: nothing on an empty list; otherwise the
   * all-or-one choice, any other answer cancelling. Which deletes are issued does not depend on
   * the replies to them.
   */
  function Deletion(s: State, commands: seq<Command>, scope: Scope): (r: State)
    ensures Later(s, r) && r.config == s.config && r.saves == s.saves && AuthenticSince(s, r)
    ensures commands == [] ==> r == s
    // a delete is only ever issued right after a yes
    ensures r.requests != s.requests ==>
              |r.input| + 2 <= |s.input| && IsYes(s.input[|s.input| - |r.input| - 1])
  {
    if commands == [] || s.input == [] then s
    else if ChoosesAll(s.input[0]) then ConfirmAll(Advance(s), commands, scope)
    else if ChoosesOne(s.input[0]) then PickOne(Advance(s), commands, scope)
    else Advance(s)
  }

  /** What `displayCommands` returns: whether there was anything to show. */
  function Displayed(commands: seq<Command>): (shown: bool)
    ensures shown <==> commands != []
  {
    |commands| > 0
  }

  /** One case of `deleteCommands`: fetch the scope's list, display it, and run the deletion flow on it if non-empty. */
  function DeleteFromScope(s: State, scope: Scope, server: Server): (r: State)
    ensures Later(s, r) && r.config == s.config && r.saves == s.saves && AuthenticSince(s, r)
    ensures |r.requests| > |s.requests| && r.requests[|s.requests|] == ListRequest(s.config, scope)
    // the fetched list goes to the deletion flow exactly when it is non-empty
    ensures var listed := ListedCommands(server(|s.requests|, ListRequest(s.config, scope)));
            var fetched := s.(requests := s.requests + [ListRequest(s.config, scope)]);
            r == if listed == [] then fetched else Deletion(fetched, listed, scope)
  {
    var f := Fetch(s, scope, server);
    if Displayed(f.commands) then Deletion(f.st, f.commands, scope) else f.st
  }

  /** `deleteCommands`: the scope menu; the server scope needs a server id before any request. */
  function DeleteMenu(s: State, server: Server): (r: State)
    ensures Later(s, r) && r.config == s.config && r.saves == s.saves && AuthenticSince(s, r)
    ensures s.input == [] ==> r == s
    ensures s.input != [] && s.input[0] == "1" ==> r == DeleteFromScope(Advance(s), Global, server)
    ensures s.input != [] && s.input[0] == "2" && s.config.guildId != "" ==> r == DeleteFromScope(Advance(s), Guild, server)
    // "2" without a server id, "3" and any unrecognised choice read the answer and do nothing else
    ensures s.input != [] && s.input[0] == "2" && s.config.guildId == "" ==> r == Advance(s)
    ensures s.input != [] && s.input[0] != "1" && s.input[0] != "2" ==> r == Advance(s)
  {
    if s.input == [] then s
    else
      var choice := s.input[0];
      var s1 := Advance(s);
      var r :=
        if choice == "1" then DeleteFromScope(s1, Global, server)
        else if choice == "2" then
          if s1.config.guildId == "" then s1 else DeleteFromScope(s1, Guild, server)
        else s1;
      Chain(s, s1, r);
      r
  }

  /** The end of `retrieveCommands`: "delete now?", and the deletion menu after a yes. */
  function OfferDeletion(s: State, server: Server): (r: State)
    ensures Later(s, r) && r.config == s.config && r.saves == s.saves && AuthenticSince(s, r)
    ensures s.input != [] ==> |r.input| < |s.input|
    ensures s.input == [] ==> r == s
    ensures s.input != [] && IsYes(s.input[0]) ==> r == DeleteMenu(Advance(s), server)
    ensures s.input != [] && !IsYes(s.input[0]) ==> r == Advance(s)
  {
    if s.input == [] then s
    else if IsYes(s.input[0]) then
      var r := DeleteMenu(Advance(s), server);
      Chain(s, Advance(s), r);
      r
    else Advance(s)
  }

  /**
   * `retrieveCommands`: fetch and save both lists, then, only if one of them is non-empty, offer
   * the deletion menu behind a confirmation.
   */
  function Retrieve(s: State, server: Server): (r: State)
    ensures Later(s, r) && r.config == s.config && AuthenticSince(s, r)
  {
    var g := GetAndSave(s, Global, server);
    var d := GetAndSave(g.st, Guild, server);
    Chain(s, g.st, d.st);
    var r := if g.commands == [] && d.commands == [] then d.st else OfferDeletion(d.st, server);
    Chain(s, d.st, r);
    r
  }

  /** `showMainMenu`: one choice, its action, and whether the main loop goes on. */
  function MainStep(s: State, server: Server): (m: Step)
    ensures Later(s, m.st) && m.st.config == s.config && AuthenticSince(s, m.st)
    ensures m.again <==> s.input != [] && s.input[0] != "3"
    ensures m.again ==> |m.st.input| < |s.input|
    ensures !m.again ==> m.st.input == if s.input == [] then [] else s.input[1..]
  {
    if s.input == [] then Step(s, false)
    else
      var choice := s.input[0];
      var s1 := Advance(s);
      if choice == "1" then Step(Retrieve(s1, server), true)
      else if choice == "2" then Step(DeleteMenu(s1, server), true)
      else if choice == "3" then Step(s1, false)
      else Step(s1, true)
  }

  /** The `while (continueRunning)` loop of `main`. */
  function Loop(s: State, server: Server): (r: State)
    ensures Later(s, r) && r.config == s.config && AuthenticSince(s, r)
    decreases |s.input|
  {
    var m := MainStep(s, server);
    if m.again then Loop(m.st, server) else m.st
  }

  /**
   * The first two questions of `askForConfiguration`: the application id and the token, in that
   * order, each entered value stored and an empty one stopping the collection.
   */
  function AskCredentials(s: State): (c: Setup)
    ensures Later(s, c.st) && c.st.requests == s.requests && c.st.saves == s.saves
    ensures c.st.config.(appId := s.config.appId, botToken := s.config.botToken) == s.config
    ensures c.ok <==> |s.input| >= 2 && s.input[0] != "" && s.input[1] != ""
    ensures c.ok ==> c.st.input == s.input[2..] && c.st.config.appId == s.input[0] && c.st.config.botToken == s.input[1]
    ensures s.input != [] && s.input[0] == "" ==> c.st.input == s.input[1..]
    ensures |s.input| >= 2 && s.input[0] != "" && s.input[1] == "" ==> c.st.input == s.input[2..]
  {
    if s.input == [] then Setup(s, false)
    else
      var s1 := Advance(s).(config := s.config.(appId := s.input[0]));
      if s1.config.appId == "" || s1.input == [] then Setup(s1, false)
      else Setup(Advance(s1).(config := s1.config.(botToken := s1.input[0])), s1.input[0] != "")
  }

  /**
   * The third question of `askForConfiguration`: whether to use a server id, and then the id
   * itself, taken as entered.
   */
  function AskGuildId(s: State): (c: Setup)
    ensures Later(s, c.st) && c.st.requests == s.requests && c.st.saves == s.saves
    ensures c.st.config.(guildId := s.config.guildId) == s.config
    ensures c.ok <==> s.input != [] && (!IsYes(s.input[0]) || |s.input| >= 2)
    ensures c.ok ==> |c.st.input| < |s.input|
    ensures c.st.config.guildId != s.config.guildId ==>
              |s.input| >= 2 && c.st.input == s.input[2..] && IsYes(s.input[0]) && c.st.config.guildId == s.input[1]
    // a refusal reads just that answer; a yes followed by an answer stores it
    ensures s.input != [] && !IsYes(s.input[0]) ==> c.st == Advance(s)
    ensures |s.input| >= 2 && IsYes(s.input[0]) ==> c.st.config.guildId == s.input[1] && c.st.input == s.input[2..]
  {
    if s.input == [] then Setup(s, false)
    else if !IsYes(s.input[0]) then Setup(Advance(s), true)
    else if |s.input| == 1 then Setup(Advance(s), false)
    else Setup(s.(input := s.input[2..], config := s.config.(guildId := s.input[1])), true)
  }

  /**
   * The last question of `askForConfiguration`: whether to change the output directory, and
   * then the new one, a blank answer meaning the default.
   */
  function AskOutputDir(s: State): (c: Setup)
    ensures Later(s, c.st) && c.st.requests == s.requests && c.st.saves == s.saves
    ensures c.st.config.(outputDir := s.config.outputDir) == s.config
    ensures c.ok ==> |c.st.input| < |s.input|
    ensures c.st.config.outputDir != s.config.outputDir ==>
              |s.input| >= 2 && c.st.input == s.input[2..] && IsYes(s.input[0]) &&
              c.st.config.outputDir == (if s.input[1] == "" then DefaultOutputDir else s.input[1])
    ensures s.config.outputDir != "" ==> c.st.config.outputDir != ""
    ensures c.ok <==> s.input != [] && (!IsYes(s.input[0]) || |s.input| >= 2)
    // a refusal reads just that answer; a yes followed by an answer stores it, blank meaning the default
    ensures s.input != [] && !IsYes(s.input[0]) ==> c.st == Advance(s)
    ensures |s.input| >= 2 && IsYes(s.input[0]) ==>
              c.st.input == s.input[2..] && c.st.config.outputDir == (if s.input[1] == "" then DefaultOutputDir else s.input[1])
  {
    if s.input == [] then Setup(s, false)
    else if !IsYes(s.input[0]) then Setup(Advance(s), true)
    else if |s.input| == 1 then Setup(Advance(s), false)
    else
      var entered := s.input[1];
      Setup(s.(input := s.input[2..], config := s.config.(outputDir := if entered == "" then DefaultOutputDir else entered)), true)
  }

  /**
   * `askForConfiguration`: application id and token (each required), the optional server id
   * behind a confirmation, and the optional output directory behind a confirmation, blank
   * meaning the default.
   */
  function Configure(s: State): (c: Setup)
    ensures Later(s, c.st) && c.st.requests == s.requests && c.st.saves == s.saves
    ensures c.ok ==> |c.st.input| + 4 <= |s.input| &&
                        c.st.config.appId == s.input[0] != "" && c.st.config.botToken == s.input[1] != ""
    // an empty application id stops the collection before the token is asked
    ensures s.input != [] && s.input[0] == "" ==> !c.ok && c.st.input == s.input[1..]
    ensures |s.input| >= 2 && s.input[0] != "" && s.input[1] == "" ==> !c.ok && c.st.input == s.input[2..]
    // the server id changes only after a yes to the third question
    ensures c.st.config.guildId != s.config.guildId ==>
              |s.input| >= 4 && IsYes(s.input[2]) && c.st.config.guildId == s.input[3]
    // the output directory changes only after a yes, to the next answer or to the default
    ensures c.st.config.outputDir != s.config.outputDir ==>
              |c.st.input| + 5 <= |s.input| && IsYes(s.input[|s.input| - |c.st.input| - 2]) &&
              c.st.config.outputDir == (if s.input[|s.input| - |c.st.input| - 1] == "" then DefaultOutputDir
                                        else s.input[|s.input| - |c.st.input| - 1])
    ensures s.config.outputDir != "" ==> c.st.config.outputDir != ""
  {
    var k := AskCredentials(s);
    if !k.ok then k
    else
      var g := AskGuildId(k.st);
      if !g.ok then g
      else
        assert g.st.input == s.input[|s.input| - |g.st.input|..];
        AskOutputDir(g.st)
  }

  /** `main`: the configuration, then the menu loop only if it succeeded. */
  function Session(s: State, server: Server): (r: State)
    ensures Later(s, r)
  {
    var c := Configure(s);
    if c.ok then Loop(c.st, server) else c.st
  }
}
