/**
 * The manager as the program runs it: the `CONFIG` record updated field by field, the console
 * read one answer at a time, and every request and save appended to a log. Each method is proved
 * to take the object from one state to the state the Workflow function of the same operation
 * computes.
 */
module Manager {
  import opened Answers
  import opened Api
  import opened Workflow

  class CommandManager {
    // the fields of `CONFIG`
    var appId: string
    var botToken: string
    var guildId: string
    var outputDir: string

    /** Console answers not yet read. */
    var input: seq<string>
    /** Every request sent, in order. */
    var requests: seq<Request>
    /** Every `saveToFile`, in order. */
    var saves: seq<Save>
    /** The transport: the reply to the n-th request. */
    const server: Server

    function CurrentConfig(): Config
      reads this
    {
      Config(appId, botToken, guildId, outputDir)
    }

    /** The whole state of the object as a Workflow state. */
    function Snapshot(): State
      reads this
    {
      State(CurrentConfig(), input, requests, saves)
    }

    /** A manager about to start, with `CONFIG` at its defaults and a script of console answers. */
    constructor (script: seq<string>, server: Server)
      ensures Snapshot() == Start(script) && this.server == server
    {
      appId, botToken, guildId, outputDir := "", "", "", DefaultOutputDir;
      input, requests, saves := script, [], [];
      this.server := server;
    }

    /** `askQuestion`: the next answer, if the script still has one. */
    method AskQuestion() returns (answered: bool, answer: string)
      modifies this`input
      ensures answered <==> old(input) != []
      ensures answered ==> answer == old(input)[0] && input == old(input)[1..]
      ensures !answered ==> input == old(input)
    {
      if input == [] {
        answered, answer := false, "";
      } else {
        answered, answer := true, input[0];
        input := input[1..];
      }
    }

    /** `askConfirmation`: the next answer read as yes or no; no answer is never a yes. */
    method AskConfirmation() returns (answered: bool, yes: bool)
      modifies this`input
      ensures answered <==> old(input) != []
      ensures answered ==> yes == IsYes(old(input)[0]) && input == old(input)[1..]
      ensures !answered ==> !yes && input == old(input)
    {
      var answer;
      answered, answer := AskQuestion();
      yes := answered && IsYes(answer);
    }

    /** `getCommands(isGuild)`: one GET; the list when the reply is a 200, else the empty list. */
    method GetCommands(scope: Scope) returns (commands: seq<Command>)
      modifies this`requests
      ensures Snapshot() == Fetch(old(Snapshot()), scope, server).st
      ensures commands == Fetch(old(Snapshot()), scope, server).commands
    {
      var request := ListRequest(CurrentConfig(), scope);
      var reply := server(|requests|, request);
      requests := requests + [request];
      commands := ListedCommands(reply);
    }

    /** `deleteCommand(commandId, commandName, isGuild)`: one DELETE; true on a 200 or a 204. */
    method DeleteCommand(commandId: string, scope: Scope) returns (ok: bool)
      modifies this`requests
      ensures requests == old(requests) + [DeleteRequest(CurrentConfig(), scope, commandId)]
      ensures ok == DeleteSucceeded(server(|old(requests)|, DeleteRequest(CurrentConfig(), scope, commandId)))
    {
      var request := DeleteRequest(CurrentConfig(), scope, commandId);
      var reply := server(|requests|, request);
      requests := requests + [request];
      ok := DeleteSucceeded(reply);
    }

    /** `saveToFile(data, filename)`, as an entry of the save log. */
    method SaveToFile(commands: seq<Command>, filename: string)
      modifies this`saves
      ensures saves == old(saves) + [Save(outputDir, filename, commands)]
    {
      saves := saves + [Save(outputDir, filename, commands)];
    }

    /** `getAndSaveGlobalCommands`. */
    method GetAndSaveGlobalCommands() returns (commands: seq<Command>)
      modifies this`requests, this`saves
      ensures Snapshot() == GetAndSave(old(Snapshot()), Global, server).st
      ensures commands == GetAndSave(old(Snapshot()), Global, server).commands
    {
      commands := GetCommands(Global);
      if |commands| > 0 {
        SaveToFile(commands, FileName(Global));
      }
    }

    /** `getAndSaveGuildCommands`: nothing at all without a server id. */
    method GetAndSaveGuildCommands() returns (commands: seq<Command>)
      modifies this`requests, this`saves
      ensures Snapshot() == GetAndSave(old(Snapshot()), Guild, server).st
      ensures commands == GetAndSave(old(Snapshot()), Guild, server).commands
    {
      if guildId == "" {
        return [];
      }
      commands := GetCommands(Guild);
      if |commands| > 0 {
        SaveToFile(commands, FileName(Guild));
      }
    }

    /** The bulk loop of `handleCommandDeletion`: one delete per command, in order, whatever each reply. */
    method DeleteEachCommand(commands: seq<Command>, scope: Scope)
      modifies this`requests
      ensures requests == old(requests) + DeleteAll(CurrentConfig(), scope, commands)
    {
      ghost var before := requests;
      for i := 0 to |commands|
        invariant requests == before + DeleteAll(CurrentConfig(), scope, commands[..i])
      {
        var _ := DeleteCommand(commands[i].id, scope);
        assert commands[..i + 1][..i] == commands[..i];
      }
      assert commands[..|commands|] == commands;
    }

    /** The "all" branch of `handleCommandDeletion`: a confirmation, then the bulk loop. */
    method ConfirmAndDeleteAll(commands: seq<Command>, scope: Scope)
      modifies this`input, this`requests
      ensures Snapshot() == ConfirmAll(old(Snapshot()), commands, scope)
    {
      var _, confirmed := AskConfirmation();
      if confirmed {
        DeleteEachCommand(commands, scope);
      }
    }

    /** The "specific" branch of `handleCommandDeletion`: an id, its lookup, a confirmation, one delete. */
    method PickAndDeleteOne(commands: seq<Command>, scope: Scope)
      modifies this`input, this`requests
      ensures Snapshot() == PickOne(old(Snapshot()), commands, scope)
    {
      var idAnswered, commandId := AskQuestion();
      if !idAnswered {
        return;
      }
      var k := IndexOfId(commands, commandId);
      if k == |commands| {
        return;
      }
      var _, confirmed := AskConfirmation();
      if confirmed {
        var _ := DeleteCommand(commands[k].id, scope);
      }
    }

    /** `handleCommandDeletion(commands, isGuild)`; a failed delete does not stop the bulk loop. */
    method HandleCommandDeletion(commands: seq<Command>, scope: Scope)
      modifies this`input, this`requests
      ensures Snapshot() == Deletion(old(Snapshot()), commands, scope)
    {
      if |commands| == 0 {
        return;
      }
      var answered, choice := AskQuestion();
      if !answered {
        return;
      }
      if ChoosesAll(choice) {
        ConfirmAndDeleteAll(commands, scope);
      } else if ChoosesOne(choice) {
        PickAndDeleteOne(commands, scope);
      }
    }

    /** `deleteCommands`: the scope menu; the server choice needs a server id before any request. */
    method DeleteCommands()
      modifies this`input, this`requests
      ensures Snapshot() == DeleteMenu(old(Snapshot()), server)
    {
      var answered, choice := AskQuestion();
      if !answered {
        return;
      }
      if choice == "1" {
        var globalCommands := GetCommands(Global);
        if Displayed(globalCommands) {
          HandleCommandDeletion(globalCommands, Global);
        }
      } else if choice == "2" {
        if guildId == "" {
          return;
        }
        var guildCommands := GetCommands(Guild);
        if Displayed(guildCommands) {
          HandleCommandDeletion(guildCommands, Guild);
        }
      }
    }

    /** `retrieveCommands`: both lists, then the deletion menu behind a confirmation if one is non-empty. */
    method RetrieveCommands()
      modifies this`input, this`requests, this`saves
      ensures Snapshot() == Retrieve(old(Snapshot()), server)
    {
      var globalCommands := GetAndSaveGlobalCommands();
      var guildCommands := GetAndSaveGuildCommands();
      if |globalCommands| > 0 || |guildCommands| > 0 {
        var _, confirmed := AskConfirmation();
        if confirmed {
          DeleteCommands();
        }
      }
    }

    /** `showMainMenu`: false (stop) only on "3", or when no answer comes. */
    method ShowMainMenu() returns (again: bool)
      modifies this`input, this`requests, this`saves
      ensures Step(Snapshot(), again) == MainStep(old(Snapshot()), server)
    {
      var answered, choice := AskQuestion();
      if !answered {
        return false;
      }
      if choice == "1" {
        RetrieveCommands();
      } else if choice == "2" {
        DeleteCommands();
      } else if choice == "3" {
        return false;
      }
      return true;
    }

    /** The server-id question of `askForConfiguration`; false when the script runs out. */
    method AskServerId() returns (ok: bool)
      modifies this`guildId, this`input
      ensures Setup(Snapshot(), ok) == AskGuildId(old(Snapshot()))
    {
      var answered, useGuild := AskConfirmation();
      if !answered {
        return false;
      }
      if useGuild {
        var answer;
        answered, answer := AskQuestion();
        if !answered {
          return false;
        }
        guildId := answer;
      }
      return true;
    }

    /** The output-directory question of `askForConfiguration`; false when the script runs out. */
    method AskOutputDirectory() returns (ok: bool)
      modifies this`outputDir, this`input
      ensures Setup(Snapshot(), ok) == AskOutputDir(old(Snapshot()))
    {
      var answered, changeOutputDir := AskConfirmation();
      if !answered {
        return false;
      }
      if changeOutputDir {
        var answer;
        answered, answer := AskQuestion();
        if !answered {
          return false;
        }
        outputDir := answer;
        if outputDir == "" {
          outputDir := DefaultOutputDir;
        }
      }
      return true;
    }

    /** `askForConfiguration`: fills `CONFIG` field by field; false as soon as the id or the token is empty. */
    method AskForConfiguration() returns (ok: bool)
      modifies this`appId, this`botToken, this`guildId, this`outputDir, this`input
      ensures Setup(Snapshot(), ok) == Configure(old(Snapshot()))
    {
      var answered, answer := AskQuestion();
      if !answered {
        return false;
      }
      appId := answer;
      if appId == "" {
        return false;
      }
      answered, answer := AskQuestion();
      if !answered {
        return false;
      }
      botToken := answer;
      if botToken == "" {
        return false;
      }
      ok := AskServerId();
      if ok {
        ok := AskOutputDirectory();
      }
    }

    /** `main`: the configuration, then the menu loop until it says stop. */
    method RunMain()
      modifies this`appId, this`botToken, this`guildId, this`outputDir, this`input, this`requests, this`saves
      ensures Snapshot() == Session(old(Snapshot()), server)
    {
      var configSuccess := AskForConfiguration();
      if !configSuccess {
        return;
      }
      ghost var configured := Snapshot();
      var continueRunning := true;
      while continueRunning
        invariant continueRunning ==> Loop(Snapshot(), server) == Loop(configured, server)
        invariant !continueRunning ==> Snapshot() == Loop(configured, server)
        decreases if continueRunning then |input| + 1 else 0
      {
        continueRunning := ShowMainMenu();
      }
    }
  }
}
