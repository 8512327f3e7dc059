/** What the controller guarantees, stated over the functions of Workflow. */
module Properties {
  import opened Answers
  import opened Api
  import opened Workflow

  // ---- handleCommandDeletion ----

  /** "t" or "T" and a yes: exactly one delete per command, in list order, and nothing else. */
  lemma BulkDeleteConfirmed(s: State, commands: seq<Command>, scope: Scope)
    requires commands != [] && |s.input| >= 2
    requires s.input[0] == "t" || s.input[0] == "T"
    requires IsYes(s.input[1])
    ensures var r := Deletion(s, commands, scope);
            r.input == s.input[2..] && r.config == s.config && r.saves == s.saves &&
            |r.requests| == |s.requests| + |commands| && r.requests[..|s.requests|] == s.requests &&
            forall i :: 0 <= i < |commands| ==> r.requests[|s.requests| + i] == DeleteRequest(s.config, scope, commands[i].id)
  {
    var deletes := DeleteAll(s.config, scope, commands);
    assert Deletion(s, commands, scope).requests == s.requests + deletes;
  }

  /** "t" or "T" and anything but a yes: no delete at all. */
  lemma BulkDeleteRefused(s: State, commands: seq<Command>, scope: Scope)
    requires commands != [] && |s.input| >= 2
    requires s.input[0] == "t" || s.input[0] == "T"
    requires !IsYes(s.input[1])
    ensures Deletion(s, commands, scope) == s.(input := s.input[2..])
  {
  }

  /** "s" or "S", a listed id and a yes: one delete, of that id. */
  lemma SingleDeleteConfirmed(s: State, commands: seq<Command>, scope: Scope)
    requires commands != [] && |s.input| >= 3
    requires s.input[0] == "s" || s.input[0] == "S"
    requires exists j :: 0 <= j < |commands| && commands[j].id == s.input[1]
    requires IsYes(s.input[2])
    ensures Deletion(s, commands, scope) ==
            s.(input := s.input[3..], requests := s.requests + [DeleteRequest(s.config, scope, s.input[1])])
  {
    var j :| 0 <= j < |commands| && commands[j].id == s.input[1];
    assert IndexOfId(commands, s.input[1]) <= j;
  }

  /** "s" or "S" and an id no command has: no delete, and no confirmation is asked. */
  lemma SingleDeleteUnknownId(s: State, commands: seq<Command>, scope: Scope)
    requires commands != [] && |s.input| >= 2
    requires s.input[0] == "s" || s.input[0] == "S"
    requires forall j :: 0 <= j < |commands| ==> commands[j].id != s.input[1]
    ensures Deletion(s, commands, scope) == s.(input := s.input[2..])
  {
    assert IndexOfId(commands, s.input[1]) == |commands|;
  }

  /** "s" or "S", a listed id and anything but a yes: no delete. */
  lemma SingleDeleteRefused(s: State, commands: seq<Command>, scope: Scope)
    requires commands != [] && |s.input| >= 3
    requires s.input[0] == "s" || s.input[0] == "S"
    requires !IsYes(s.input[2])
    ensures Deletion(s, commands, scope).requests == s.requests
  {
  }

  /** "s" or "S": whatever follows, at most one delete. */
  lemma SingleDeleteAtMostOne(s: State, commands: seq<Command>, scope: Scope)
    requires s.input != [] && (s.input[0] == "s" || s.input[0] == "S")
    ensures |Deletion(s, commands, scope).requests| <= |s.requests| + 1
  {
  }

  /** Any choice other than t, T, s or S cancels: one answer read, no delete. */
  lemma UnrecognisedChoiceCancels(s: State, commands: seq<Command>, scope: Scope)
    requires commands != [] && s.input != []
    requires s.input[0] !in {"t", "T", "s", "S"}
    ensures Deletion(s, commands, scope) == s.(input := s.input[1..])
  {
  }

  /** Every request the deletion flow issues deletes a command of the list it was given. */
  lemma DeletesOnlyListed(s: State, commands: seq<Command>, scope: Scope)
    ensures var r := Deletion(s, commands, scope);
            forall i :: |s.requests| <= i < |r.requests| ==>
              exists j :: 0 <= j < |commands| && r.requests[i] == DeleteRequest(s.config, scope, commands[j].id)
  {
    var r := Deletion(s, commands, scope);
    if r.requests != s.requests {
      var s1 := Advance(s);
      if ChoosesAll(s.input[0]) {
        assert r == ConfirmAll(s1, commands, scope);
        var deletes := DeleteAll(s.config, scope, commands);
        assert r.requests == s.requests + deletes;
        forall i | |s.requests| <= i < |r.requests|
          ensures exists j :: 0 <= j < |commands| && r.requests[i] == DeleteRequest(s.config, scope, commands[j].id)
        {
          assert r.requests[i] == deletes[i - |s.requests|];
        }
      } else {
        assert r == PickOne(s1, commands, scope);
        var k := IndexOfId(commands, s1.input[0]);
        assert r.requests == s.requests + [DeleteRequest(s.config, scope, commands[k].id)];
      }
    }
  }

  /**
   * A delete-one scenario: commands "1" (ping) and "2" (pong), delete-one with id "2" and a yes:
   * the only request is the delete of "2", and "1" is never targeted.
   */
  lemma DeleteOneScenario(s: State, scope: Scope)
    requires s.input == ["s", "2", "o"]
    ensures var r := Deletion(s, [Command("1", "ping"), Command("2", "pong")], scope);
            r.requests == s.requests + [DeleteRequest(s.config, scope, "2")] &&
            DeleteRequest(s.config, scope, "1") !in r.requests[|s.requests|..]
  {
    var commands := [Command("1", "ping"), Command("2", "pong")];
    assert commands[1].id == s.input[1];
    SingleDeleteConfirmed(s, commands, scope);
    var r := Deletion(s, commands, scope);
    assert r.requests[|s.requests|..] == [DeleteRequest(s.config, scope, "2")];
    if DeleteRequest(s.config, scope, "1") == DeleteRequest(s.config, scope, "2") {
      CommandPathIdentifies(s.config.appId, s.config.guildId, scope, "1", "2");
    }
  }

  // ---- deleteCommands, retrieveCommands, showMainMenu, main ----

  /** Delete option "2" without a server id: nothing is fetched, the menu just returns. */
  lemma GuildDeleteNeedsGuildId(s: State, server: Server)
    requires s.input != [] && s.input[0] == "2" && s.config.guildId == ""
    ensures DeleteMenu(s, server) == s.(input := s.input[1..])
  {
  }

  /** Delete option "1": the global list is fetched and offered for deletion only when non-empty. */
  lemma GlobalDeleteFetchesFirst(s: State, server: Server)
    requires s.input != [] && s.input[0] == "1"
    ensures var r := DeleteMenu(s, server);
            var request := ListRequest(s.config, Global);
            var listed := ListedCommands(server(|s.requests|, request));
            |r.requests| > |s.requests| && r.requests[|s.requests|] == request &&
            (listed == [] ==> r == s.(input := s.input[1..], requests := s.requests + [request]))
  {
    var r := DeleteMenu(s, server);
    var request := ListRequest(s.config, Global);
    var f := Fetch(Advance(s), Global, server);
    assert f.st.requests == s.requests + [request];
    assert f.st.requests <= r.requests;
    assert r.requests[|s.requests|] == f.st.requests[|s.requests|];
  }

  /**
   * `retrieveCommands` reads an answer (the offer to delete) exactly when it saved a list and the
   * script still has an answer: deletion is offered only when a list was found.
   */
  lemma RetrieveOffersDeletionOnlyIfFound(s: State, server: Server)
    ensures var r := Retrieve(s, server);
            r.input != s.input <==> r.saves != s.saves && s.input != []
  {
    var g := GetAndSave(s, Global, server);
    var d := GetAndSave(g.st, Guild, server);
    var r := Retrieve(s, server);
    if g.commands == [] && d.commands == [] {
      assert r == d.st;
    } else {
      assert |d.st.saves| > |s.saves|;
      assert r == OfferDeletion(d.st, server);
    }
  }

  /** The two scopes save to different files, so saving one list never overwrites the other. */
  lemma SaveFilesDiffer()
    ensures FileName(Global) != FileName(Guild)
  {
  }

  /**
   * With a server id, retrieving requests the global list and then the server list, saves each
   * non-empty one under its own file name, and offers deletion only when one was non-empty.
   */
  lemma RetrieveFetchesBothLists(s: State, server: Server)
    requires s.config.guildId != ""
    ensures var globalRequest := ListRequest(s.config, Global);
            var guildRequest := ListRequest(s.config, Guild);
            var global := ListedCommands(server(|s.requests|, globalRequest));
            var guild := ListedCommands(server(|s.requests| + 1, guildRequest));
            var saved := s.(requests := s.requests + [globalRequest, guildRequest],
                            saves := s.saves + (if global == [] then [] else [Save(s.config.outputDir, FileName(Global), global)])
                                             + (if guild == [] then [] else [Save(s.config.outputDir, FileName(Guild), guild)]));
            Retrieve(s, server) == if global == [] && guild == [] then saved else OfferDeletion(saved, server)
  {
    var g := GetAndSave(s, Global, server);
    var d := GetAndSave(g.st, Guild, server);
    assert d.st.requests == s.requests + [ListRequest(s.config, Global), ListRequest(s.config, Guild)];
  }

  /**
   * Without a server id, retrieving requests the global list only, saves it when non-empty, and
   * offers deletion only then.
   */
  lemma RetrieveWithoutGuildId(s: State, server: Server)
    requires s.config.guildId == ""
    ensures var request := ListRequest(s.config, Global);
            var global := ListedCommands(server(|s.requests|, request));
            var fetched := s.(requests := s.requests + [request]);
            Retrieve(s, server) ==
              if global == [] then fetched
              else OfferDeletion(fetched.(saves := s.saves + [Save(s.config.outputDir, FileName(Global), global)]), server)
  {
    var g := GetAndSave(s, Global, server);
    var d := GetAndSave(g.st, Guild, server);
    assert d == Fetched(g.st, []);
    assert Retrieve(s, server) == if g.commands == [] then g.st else OfferDeletion(g.st, server);
  }

  /** The main menu: "1" retrieves, "2" opens the delete menu, "3" and anything else only read the answer. */
  lemma MenuChoiceRunsItsAction(s: State, server: Server)
    requires s.input != []
    ensures s.input[0] == "1" ==> MainStep(s, server) == Step(Retrieve(Advance(s), server), true)
    ensures s.input[0] == "2" ==> MainStep(s, server) == Step(DeleteMenu(Advance(s), server), true)
    ensures s.input[0] == "3" ==> MainStep(s, server) == Step(Advance(s), false)
    ensures s.input[0] !in {"1", "2", "3"} ==> MainStep(s, server) == Step(Advance(s), true)
  {
  }

  /** The unread `rest` of `script` is empty, or the answer read just before it is "3". */
  predicate EndsAtQuit(script: seq<string>, rest: seq<string>) {
    rest == [] || (|rest| < |script| && script[|script| - |rest| - 1] == "3")
  }

  /**
   * One menu step `m` from `s`, then the rest of the loop ending in `r`: if the rest stops only at
   * the end of the script or after a "3", so does the whole.
   */
  lemma QuitCarriesBack(s: State, m: Step, r: State)
    requires Later(s, m.st)
    requires m.again ==> |m.st.input| < |s.input| && EndsAtQuit(m.st.input, r.input)
    requires !m.again ==> r == m.st && (s.input == [] || (s.input[0] == "3" && r.input == s.input[1..]))
    ensures EndsAtQuit(s.input, r.input)
  {
  }

  /** The loop after a menu step that says go on is the loop from the state that step reached. */
  lemma LoopGoesOn(s: State, server: Server)
    requires MainStep(s, server).again
    ensures Loop(s, server) == Loop(MainStep(s, server).st, server)
  {
  }

  /** The main loop stops only when the script is used up or right after a "3". */
  lemma {:induction false} LoopStopsOnlyAtQuit(s: State, server: Server)
    ensures EndsAtQuit(s.input, Loop(s, server).input)
    decreases |s.input|
  {
    var m := MainStep(s, server);
    if m.again {
      LoopGoesOn(s, server);
      LoopStopsOnlyAtQuit(m.st, server);
    }
    QuitCarriesBack(s, m, Loop(s, server));
  }

  /**
   * With both credentials given, a yes to the server question followed by an id stores that id
   * as entered; the output-directory question comes next.
   */
  lemma ConfirmedServerIdIsStored(s: State)
    requires |s.input| >= 4 && s.input[0] != "" && s.input[1] != "" && IsYes(s.input[2])
    ensures Configure(s).st.config.guildId == s.input[3]
    ensures AskCredentials(s).ok && AskGuildId(AskCredentials(s).st).st.input == s.input[4..]
  {
    var k := AskCredentials(s);
    var g := AskGuildId(k.st);
    assert k.st.input == s.input[2..];
    assert g.st.config.guildId == s.input[3];
  }

  /** With both credentials given, a refused server question leaves the server id as it was. */
  lemma RefusedServerIdIsKept(s: State)
    requires |s.input| >= 3 && s.input[0] != "" && s.input[1] != "" && !IsYes(s.input[2])
    ensures Configure(s).st.config.guildId == s.config.guildId
    ensures AskCredentials(s).ok && AskGuildId(AskCredentials(s).st).st.input == s.input[3..]
  {
    var k := AskCredentials(s);
    assert k.st.input == s.input[2..];
  }

  /**
   * The answers after the server question: a yes and a directory store that directory, blank
   * meaning "./discord_commands", and the configuration succeeds; a refusal keeps the
   * directory and succeeds too. `n` is the number of answers the first three questions read.
   */
  lemma OutputDirAnswerIsStored(s: State)
    requires |s.input| >= 3 && s.input[0] != "" && s.input[1] != ""
    requires |s.input| > if IsYes(s.input[2]) then 4 else 3
    ensures var n := if IsYes(s.input[2]) then 4 else 3;
            var c := Configure(s);
            (IsYes(s.input[n]) && |s.input| > n + 1 ==>
               c.ok && c.st.input == s.input[n + 2..] &&
               c.st.config.outputDir == (if s.input[n + 1] == "" then DefaultOutputDir else s.input[n + 1])) &&
            (!IsYes(s.input[n]) ==> c.ok && c.st.input == s.input[n + 1..] && c.st.config.outputDir == s.config.outputDir)
  {
    var n := if IsYes(s.input[2]) then 4 else 3;
    var k := AskCredentials(s);
    assert k.st.input == s.input[2..];
    var g := AskGuildId(k.st);
    assert g.ok && g.st.input == s.input[n..];
    assert g.st.config.outputDir == s.config.outputDir;
    var c := AskOutputDir(g.st);
    assert Configure(s) == c;
    if IsYes(s.input[n]) && |s.input| > n + 1 {
      assert g.st.input[1] == s.input[n + 1];
      assert g.st.input[2..] == s.input[n + 2..];
    }
    if !IsYes(s.input[n]) {
      assert g.st.input[1..] == s.input[n + 1..];
    }
  }

  /** A run enters the menu loop exactly when the configuration succeeded, from the state it left. */
  lemma SessionEntersLoopAfterConfiguration(s: State, server: Server)
    ensures Configure(s).ok ==> Session(s, server) == Loop(Configure(s).st, server)
    ensures !Configure(s).ok ==> Session(s, server) == Configure(s).st
  {
  }

  /**
   * A whole run from the start: a request is made only after a non-empty application id and
   * token were entered, and every request uses exactly those.
   */
  lemma SessionUsesConfiguredCredentials(script: seq<string>, server: Server)
    ensures var r := Session(Start(script), server);
            r.requests != [] ==>
              |script| >= 4 && script[0] != "" && script[1] != "" &&
              forall i :: 0 <= i < |r.requests| ==>
                r.requests[i].authorization == "Bot " + script[1] &&
                ApplicationRoot(script[0]) <= r.requests[i].path
  {
    var s := Start(script);
    var c := Configure(s);
    var r := Session(s, server);
    if c.ok {
      assert r == Loop(c.st, server);
      assert AuthenticSince(c.st, r);
      assert c.st.requests == [];
    }
  }

  /** A failed configuration ends the run with no request and no save. */
  lemma FailedConfigurationIsSilent(s: State, server: Server)
    requires !Configure(s).ok
    ensures Session(s, server).requests == s.requests && Session(s, server).saves == s.saves
  {
  }
}
