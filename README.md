# Discord slash-command manager, modelled in Dafny

`discord_commands_manager.js` is an interactive console tool. It asks for a bot's application
id, token and optional server (guild) id. It then lists the bot's slash commands through the
Discord REST API, at global or server scope, saves non-empty lists to JSON files, and deletes
commands (all of them, or one by id) behind a yes/no confirmation whose only yes is `o`.

This project models the decision layer of that script with its I/O made abstract:

- The console is a scripted sequence of answers. When the script runs out, the pending prompt
  is never answered and nothing after it runs, just as the Node process would end.
- The transport is an oracle `Server = (nat, Request) -> Reply` that gives the reply to the
  n-th request of the run. A reply is `Response(status, data)` or `RequestError`.
- Requests and saves are appended to logs (`requests`, `saves`), so a property such as "which
  commands get deleted, in what order" is a property of the request log.

Files:

- `answers.dfy` (module `Answers`): ASCII `toLowerCase`, the `(o/N)` confirmation test, and the
  `T`/`S` choice tests.
- `api.dfy` (module `Api`): the `CONFIG` record, the endpoint paths, the list and delete
  requests, how `getCommands` and `deleteCommand` classify a reply, `commands.find`, and
  lemmas about the paths.
- `workflow.dfy` (module `Workflow`): one function for each controller function of the script,
  over an explicit `State` (config, unread answers, request log, save log).
- `properties.dfy` (module `Properties`): what the controller guarantees, as lemmas over those
  functions.
- `manager.dfy` (module `Manager`): class `CommandManager`, whose fields are the `CONFIG`
  fields, the unread answers and the two logs. Its methods follow the script's functions
  statement by statement. Each one is proved to reach the state that the `Workflow` function
  of the same name computes. `DeleteEachCommand` keeps the script's `for` loop over the
  commands, and `RunMain` keeps the `while (continueRunning)` loop. A few branches of the
  script's longer functions are methods (and functions) of their own.

One behaviour of the code is worth knowing. `retrieveCommands` does not reuse the lists it
has just fetched. A yes to its "delete now?" offer calls `deleteCommands`, which asks for the
scope again and fetches again. The model does what the code does (`Workflow.Retrieve` calls
`Workflow.DeleteMenu`).

The bulk delete issues one delete per command, whatever the earlier deletes returned. In the
model, `Workflow.Deletion` takes no `Server` argument. So the deletes it issues cannot depend on
any reply, and `CommandManager.HandleCommandDeletion` is proved equal to it.

## Model

| member | source | states |
|---|---|---|
| `Answers.Lower` | discord_commands_manager.js:164 | lowercasing keeps the length and lowercases each ASCII capital letter in place; other characters stay as they are |
| `Answers.LowerIsLetter` | discord_commands_manager.js:258-273 | an answer lowercases to a one-letter string `c` exactly when it is `c` or its capital |
| `Answers.AnswersLetter` | discord_commands_manager.js:164 | the test `answer.toLowerCase() === c` holds exactly for `c` and its capital |
| `Answers.IsYes` | discord_commands_manager.js:161-167 | a confirmation is a yes exactly when the answer is "o" or "O"; "", "oui", "y" and " o" are all refusals |
| `Answers.ChoosesAll` | discord_commands_manager.js:258 | the all-commands choice is exactly "t" or "T" |
| `Answers.ChoosesOne` | discord_commands_manager.js:273 | the one-command choice is exactly "s" or "S" |
| `Api.CommandsPath` | discord_commands_manager.js:94-96 | every list path starts with "/api/v10/applications/{appId}/" |
| `Api.CommandPath` | discord_commands_manager.js:128-130 | every delete path starts with "/api/v10/applications/{appId}/" |
| `Api.ListRequest` | discord_commands_manager.js:98-106 | the list call is a GET to discord.com with header "Bot {token}" under the configured application |
| `Api.DeleteRequest` | discord_commands_manager.js:132-140 | the delete call is a DELETE to discord.com with header "Bot {token}" under the configured application |
| `Api.ListedCommands` | discord_commands_manager.js:108-120 | a non-empty list comes only from a 200 carrying that list; any other status or a request error gives the empty list; a 200 with a list gives that list |
| `Api.DeleteSucceeded` | discord_commands_manager.js:142-155 | a delete succeeds exactly on status 200 or 204 and fails on every other status and on a request error |
| `Api.IndexOfId` | discord_commands_manager.js:278 | `find` returns the first command whose id equals the entered id: no earlier command has that id, and the position is past the end only when none has it |
| `Api.GlobalListPath` | discord_commands_manager.js:94-96 | the global list path is exactly "/api/v10/applications/" + appId + "/commands" |
| `Api.GuildPathInsertsGuild` | discord_commands_manager.js:94-96 | the guild list path is the global one with "/guilds/" + guildId put in before "/commands" |
| `Api.CommandPathExtends` | discord_commands_manager.js:94-130 | a delete path is the list path of the same scope followed by "/" + commandId |
| `Api.CommandPathIdentifies` | discord_commands_manager.js:128-130 | two delete paths of one scope are equal only if their command ids are equal |
| `Api.ScopesNeverCollide` | discord_commands_manager.js:94-130 | for one application no global path equals a guild path, in all four pairings of list and delete paths |
| `Workflow.GetAndSave` | discord_commands_manager.js:199-243 | a guild fetch without a server id makes no request and returns []; otherwise there is exactly one list request, and a list is saved under its scope's file name and the current output directory only when it is non-empty |
| `Workflow.Fetch` | discord_commands_manager.js:92-121 | `getCommands` appends exactly one request, the list request of its scope, changes nothing else, and returns the classification of that request's reply |
| `Workflow.FileName` | discord_commands_manager.js:205 | each scope saves to a `.json` file |
| `Workflow.DeleteAll` | discord_commands_manager.js:268-270 | the bulk loop issues exactly one delete per command, the i-th for the i-th command |
| `Workflow.Displayed` | discord_commands_manager.js:183-194 | `displayCommands` reports true exactly when the list is non-empty |
| `Workflow.ConfirmAll` | discord_commands_manager.js:258-271 | after "all", deletes happen only when the next answer is a yes, and then they are all of DeleteAll's deletes; otherwise none |
| `Workflow.PickOne` | discord_commands_manager.js:273-294 | after "specific", a delete happens only for an id some command has and after a yes, and it is the single delete of that id |
| `Workflow.Deletion` | discord_commands_manager.js:248-298 | an empty list asks nothing and deletes nothing; any delete comes right after a yes; config and saves are untouched; every request uses the configured id and token |
| `Workflow.DeleteFromScope` | discord_commands_manager.js:361-376 | a scope case of the delete menu first requests that scope's list; an empty reply list ends the case there, and a non-empty one goes to the deletion flow on exactly that list; no save, no config change |
| `Workflow.DeleteMenu` | discord_commands_manager.js:351-382 | "1" runs the global case, "2" the server case when a server id is set; "2" without one, "3" and any other answer read the answer and do nothing else; no answer changes nothing; it never saves or changes the config |
| `Workflow.OfferDeletion` | discord_commands_manager.js:340-345 | a yes to "delete now?" opens the delete menu; any other answer reads it and does nothing more; no answer changes nothing |
| `Workflow.Retrieve` | discord_commands_manager.js:332-346 | retrieval only reads answers and appends requests and saves, all with the configured credentials |
| `Workflow.MainStep` | discord_commands_manager.js:303-327 | the loop goes on exactly when an answer came and it is not "3"; going on always uses up at least one answer; "3" uses up just that one |
| `Properties.LoopStopsOnlyAtQuit` | discord_commands_manager.js:318-326 | the main loop ends only when the answers run out or right after a "3" |
| `Properties.MenuChoiceRunsItsAction` | discord_commands_manager.js:311-324 | "1" runs retrieval and "2" the delete menu, and the loop goes on; "3" reads the answer and stops; any other answer reads it, does nothing and goes on |
| `Workflow.Loop` | discord_commands_manager.js:445-448 | the menu loop keeps the config, only reads answers and appends requests and saves authenticated with that config |
| `Workflow.AskCredentials` | discord_commands_manager.js:391-405 | the id and token are the first two answers; collection goes on exactly when both are non-empty; an empty id stops before the token is asked |
| `Workflow.AskGuildId` | discord_commands_manager.js:407-411 | a refusal reads one answer and changes nothing else; a yes followed by an answer stores that answer as the server id, as entered; the server id changes in no other case, and nothing else in the config changes |
| `Workflow.AskOutputDir` | discord_commands_manager.js:413-423 | a refusal reads one answer and changes nothing else; a yes followed by an answer stores it as the output directory, or "./discord_commands" when it is blank; the directory changes in no other case and is never left empty; the step succeeds exactly when the needed answers are there |
| `Workflow.Configure` | discord_commands_manager.js:387-427 | success needs a non-empty id and token taken from the first two answers; an empty id stops before the token is asked; an empty token stops too; the server id changes only after a yes, to the next answer; the output directory changes only after a yes, to the next answer or to "./discord_commands" when that is blank; no request or save happens |
| `Properties.ConfirmedServerIdIsStored` | discord_commands_manager.js:407-411 | with both credentials given, a yes to the server question followed by an id stores that id as entered |
| `Properties.RefusedServerIdIsKept` | discord_commands_manager.js:407-411 | with both credentials given, a refused server question leaves the server id as it was |
| `Properties.OutputDirAnswerIsStored` | discord_commands_manager.js:413-426 | after the first three questions, a yes and a directory store that directory (the default when blank), and the configuration succeeds; a refusal keeps the directory and succeeds too |
| `Workflow.Session` | discord_commands_manager.js:432-449 | a run only reads answers and appends requests and saves |
| `Properties.SessionEntersLoopAfterConfiguration` | discord_commands_manager.js:437-448 | a successful configuration is followed by the menu loop from the configured state; a failed one ends the run there |
| `Properties.BulkDeleteConfirmed` | discord_commands_manager.js:258-271 | "t"/"T" then a yes on a non-empty list: exactly one delete per command, in list order, and two answers read |
| `Properties.BulkDeleteRefused` | discord_commands_manager.js:260-265 | "t"/"T" then anything but a yes: no request at all |
| `Properties.SingleDeleteConfirmed` | discord_commands_manager.js:273-293 | "s"/"S", a listed id, then a yes: exactly one delete, of that id |
| `Properties.SingleDeleteUnknownId` | discord_commands_manager.js:275-283 | "s"/"S" and an id no command has: no delete, and no confirmation is asked |
| `Properties.SingleDeleteRefused` | discord_commands_manager.js:285-290 | "s"/"S", then a refused confirmation: no delete |
| `Properties.SingleDeleteAtMostOne` | discord_commands_manager.js:273-294 | after "s"/"S", at most one delete, whatever follows |
| `Properties.UnrecognisedChoiceCancels` | discord_commands_manager.js:295-297 | any choice other than t, T, s or S reads one answer and issues nothing |
| `Properties.DeletesOnlyListed` | discord_commands_manager.js:248-298 | each delete the flow issues targets a command of the list it was given |
| `Properties.DeleteOneScenario` | discord_commands_manager.js:273-293 | for the list [1 ping, 2 pong] and answers s, 2, o, only "2" is deleted and "1" is never requested |
| `Properties.GuildDeleteNeedsGuildId` | discord_commands_manager.js:367-371 | delete option "2" with no server id makes no request and changes nothing but the answer read |
| `Properties.GlobalDeleteFetchesFirst` | discord_commands_manager.js:361-366 | delete option "1" first requests the global list; an empty list is not offered for deletion |
| `Properties.RetrieveOffersDeletionOnlyIfFound` | discord_commands_manager.js:335-345 | retrieval asks its "delete now?" question exactly when it saved a list (that is, a list was non-empty) and an answer is available |
| `Properties.RetrieveFetchesBothLists` | discord_commands_manager.js:332-346 | with a server id, retrieval requests the global list and then the server list, saves each non-empty one under its own file name and directory, and then offers deletion exactly when one was non-empty |
| `Properties.SaveFilesDiffer` | discord_commands_manager.js:205-232 | the global and server lists are saved to different files |
| `Properties.RetrieveWithoutGuildId` | discord_commands_manager.js:221-225 | without a server id, retrieval requests the global list only; an empty list ends it there, and a non-empty one is saved under "commands_globales.json" and then offered for deletion |
| `Properties.SessionUsesConfiguredCredentials` | discord_commands_manager.js:391-448 | from the start, a request is made only after a non-empty id and token were entered, and every request carries "Bot {token}" and the path of that application |
| `Properties.FailedConfigurationIsSilent` | discord_commands_manager.js:437-443 | when configuration fails the run makes no request and saves nothing |
| `Manager.CommandManager.constructor` | discord_commands_manager.js:9-14 | `CONFIG` starts with an empty id, token and server id, and output directory "./discord_commands" |
| `Manager.CommandManager.AskQuestion` | discord_commands_manager.js:172-178 | reads the next answer when there is one; otherwise nothing changes |
| `Manager.CommandManager.AskConfirmation` | discord_commands_manager.js:161-167 | reads the next answer as IsYes; a missing answer is never a yes |
| `Manager.CommandManager.GetCommands` | discord_commands_manager.js:92-121 | appends one list request and returns the classified reply |
| `Manager.CommandManager.DeleteCommand` | discord_commands_manager.js:126-156 | appends one delete request and returns DeleteSucceeded of its reply |
| `Manager.CommandManager.SaveToFile` | discord_commands_manager.js:77-87 | appends one save of the list under the current output directory |
| `Manager.CommandManager.GetAndSaveGlobalCommands` | discord_commands_manager.js:199-216 | reaches exactly the state and list of GetAndSave at global scope |
| `Manager.CommandManager.GetAndSaveGuildCommands` | discord_commands_manager.js:221-243 | reaches exactly the state and list of GetAndSave at guild scope, with its no-server-id guard |
| `Manager.CommandManager.DeleteEachCommand` | discord_commands_manager.js:268-270 | the `for` loop appends exactly DeleteAll's deletes, whatever each reply |
| `Manager.CommandManager.ConfirmAndDeleteAll` | discord_commands_manager.js:258-271 | reaches exactly ConfirmAll's state |
| `Manager.CommandManager.PickAndDeleteOne` | discord_commands_manager.js:273-294 | reaches exactly PickOne's state |
| `Manager.CommandManager.HandleCommandDeletion` | discord_commands_manager.js:248-298 | its branches reach exactly Deletion's state |
| `Manager.CommandManager.DeleteCommands` | discord_commands_manager.js:351-382 | reaches exactly DeleteMenu's state |
| `Manager.CommandManager.RetrieveCommands` | discord_commands_manager.js:332-346 | reaches exactly Retrieve's state |
| `Manager.CommandManager.ShowMainMenu` | discord_commands_manager.js:303-327 | reaches exactly MainStep's state and returns its go-on flag |
| `Manager.CommandManager.AskServerId` | discord_commands_manager.js:407-411 | updates `guildId` and reaches exactly AskGuildId's state and result |
| `Manager.CommandManager.AskOutputDirectory` | discord_commands_manager.js:413-423 | updates `outputDir` and reaches exactly AskOutputDir's state and result |
| `Manager.CommandManager.AskForConfiguration` | discord_commands_manager.js:387-427 | updates the `CONFIG` fields one by one and reaches exactly Configure's state and result |
| `Manager.CommandManager.RunMain` | discord_commands_manager.js:432-449 | the configuration, then the `while` loop, reach exactly Session's state; the loop terminates because each pass reads an answer |

## Left out

- `httpsRequest` (lines 36-72), that is, the HTTPS transport, chunk buffering and `JSON.parse`, is out. The model sees only the abstract reply that the `Server` oracle returns.
- `Api.ListedCommands` models a 200 body as either nothing or an array of command records. Any other 200 body is not modelled: raw text, a non-array JSON value, an object that carries a numeric `length`, or an array holding `null` or other non-record elements. Depending on its shape, such a body may or may not pass the `length > 0` test at lines 204 and 231, so it may be saved. `displayCommands` may then throw at lines 190-191, and that error is caught at lines 212-215 / 239-242 during retrieval, or only by the top-level `.catch` (lines 452-455) in the delete menu.
- `Api.Request` omits the constant `Content-Type: application/json` header.
- `Api.Command` keeps only `id` and `name`. The description and the other fields are passed through untouched and play no part in any decision.
- `Answers.Lower` lowercases ASCII only. No non-ASCII character lowercases to "o", "t" or "s", so every decision the script makes comes out the same.
- `saveToFile` (lines 77-87) becomes an entry (output directory, file name, list) in the save log. Directory creation, `path.join` and JSON formatting are filesystem and library work that is not modelled.
- The `try`/`catch` blocks of `getAndSaveGlobalCommands` and `getAndSaveGuildCommands` (lines 212-215, 239-242) are not modelled. They fire on filesystem errors in `saveToFile` and on the unmodelled bodies described above, and both are outside the model.
- `readline` and the Promise plumbing (lines 28-31, 161-178) become the scripted answer sequence. `rl.close()` (lines 320, 441) has no observable effect in the model.
- All console output is left out: colours, messages, emoji, the printing part of `displayCommands` and its "Aucune" placeholder. Only the boolean that `displayCommands` returns is kept (`Workflow.Displayed`).
- The top-level `.catch` handler (lines 452-455) is process-level error plumbing and is left out.
