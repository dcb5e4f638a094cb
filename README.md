# Trainee onboarding engine, modelled in Dafny

This project models the core of the community-tools onboarding bot. Each trainee has a persisted state machine. The model covers:

- the conversation dispatcher, which turns a chat message into an event with a payload, or into a single reply;
- the engine, which stashes the payload, fires the event and persists the machine under the payload's id;
- the action bound to the edge `CHECK_LOGIN → GOT_THE_TASK` on `ADD_GIT_NAME_AND_FIRST_TASK`. It binds the trainee's git nick, adds the GitHub user to the "trainees" team, announces the trainee and sends the first task;
- the trainee record `StateEntity`.

Outside collaborators are modelled as data:

- The repository is a map from user id to `Row`.
- The machine persister is a map from id to `Snapshot` (state and extended variables).
- Every repository save, GitHub call (user lookup, team listing, team add, whether it succeeds or throws), chat message and error-action run is an `Effect` appended to a log. Display-name lookups are not logged.
- What GitHub answers is an input, `GitHubReplies`.
- Message texts that come from properties and constants are parameters (`ActionConfig`, `Texts`).
- The chat display-name lookup is a function parameter.

Files:

- `types.dfy`: states, events, payloads, snapshots, Java `int`, and exceptions as `Failure`.
- `java_text.dfy`: `equalsIgnoreCase`, concatenating a null reference, and `toString` of a variable.
- `state_entity.dfy`: the record as a class with field-local setters.
- `runtime.dfy`: the running `Machine` and the `Backend` (repository, persister, call log).
- `add_git_name.dfy` and `add_git_name_facts.dfy`: the action, the function it is proved against, and lemmas about it.
- `dispatcher.dfy`: the `switch` of the message-taking `doAction`, as the function `Decide`, with one lemma per state.
- `service.dfy` and `service_facts.dfy`: `StateMachineService`, its specification functions, and lemmas about the engine.

Every state-changing method of the classes is proved equal to a function of the old state (`FireWithPayload`, `HandleMessage`, `FireIfInState`, `Reset`, `ExecuteSpec`, ...), and the lemmas are proved about those functions. The lookups (`RestoreMachine`, `GetIdByNick`, `RestoreMachineByNick`, `FindByUserID`) change nothing. Their contracts give the result in terms of the stored maps, and the nick lookups are also tied to the reference functions `IdByNick` and `MachineByNick`.

Java semantics are written out where the code depends on them:

- `null` is `None`.
- `"" + null` is `"null"`.
- `Integer` addition wraps at 32 bits.
- A thrown exception has one encoding per layer. It is `Threw(failure)` in an `Outcome` and `Aborted(failure)` inside the action. In the dispatcher it is `Decision.Throw(failure)`. `RestoreMachine` returns `null` in its place, and `RestoreMachineByNick` returns `(null, Some(failure))`.

Assumptions about Spring Statemachine, whose code is not part of this model:

- An event that no transition accepts leaves the machine unchanged.
- When the bound action throws, the error action runs and the transition still completes.
- The extended-variable map rejects a `null` value, as a concurrent hash map does.
- Restoring a machine for an id with nothing persisted throws.

Where the intended design and the code differ, the model follows the code:

- The states and events carry the code's names (`NEW_USER`, `CHECK_LOGIN`, `ADD_GIT_NAME_AND_FIRST_TASK`, ...).
- In a question state any text advances, the empty text included (`QuestionDispatch`).
- An event that no transition accepts is still persisted, with the payload stashed (`UnmatchedEventStillPersists`). The design calls for no change.
- The machine is persisted after the event whether or not the action succeeded, so an aborted action still leaves `GOT_THE_TASK` persisted (`ActionRunsOnlyOnBoundEdge`). A missing "trainees" team aborts after the save, so the git name stays saved too. A missing or mistyped payload or a missing record aborts before any save and changes no record (`UncaughtFailuresAbort`).
- A failed team add still sends the channel announcement and the first task, after the apology (`IOFailureReportedOnceAndContinues`). The design has the apology instead of the announcement.
- Git-name uniqueness is not enforced (`BindingDoesNotCheckUniqueness`). A later lookup by that nick then throws (`StateMachineService.GetIdByNick`).
- In `CHECK_LOGIN` the machine is persisted under the id of the payload stored in the previous step, not the sender's (`FirePersistsUnderPayloadId`).

## Model

| member | source | states |
|---|---|---|
| Types.Wrap32 | src/main/java/com/community/tools/util/statemachie/jpa/StateEntity.java:30-32 | Java `int` addition: the result is congruent to the sum modulo 2^32, and equals it when the sum is in range |
| JavaText.EqualsIgnoreCaseIsLowerEquality | src/main/java/com/community/tools/service/StateMachineService.java:173-175 | `equalsIgnoreCase` holds exactly when both strings agree after lower-casing (both directions) |
| JavaText.EqualsIgnoreCaseLiteral | src/main/java/com/community/tools/service/StateMachineService.java:148 | comparing with a lower-case literal ignoring case is the same as the input lower-casing to that literal |
| Entity.StateEntity.constructor | src/main/java/com/community/tools/util/statemachie/jpa/StateEntity.java:14-18 | a new entity has every reference null, both counters 0, and total 0 |
| Entity.StateEntity.WithStateMachine | src/main/java/com/community/tools/util/statemachie/jpa/StateEntity.java:20-23 | sets exactly the key and the snapshot; the git name stays null, the counters stay 0, and the total is 0 |
| Entity.StateEntity.WithGitName | src/main/java/com/community/tools/util/statemachie/jpa/StateEntity.java:25-28 | sets exactly the key and the git name; the snapshot stays null, the counters stay 0, and the total is 0 |
| Entity.StateEntity.GetTotalPoints | src/main/java/com/community/tools/util/statemachie/jpa/StateEntity.java:30-32 | returns if and only if both counters are non-null, and otherwise throws `NullPointerException` from the unboxing; the result is their sum modulo 2^32 |
| Entity.StateEntity.SetUserID | src/main/java/com/community/tools/util/statemachie/jpa/StateEntity.java:34-36 | the getter returns the value set; no other field changes |
| Entity.StateEntity.SetGitName | src/main/java/com/community/tools/util/statemachie/jpa/StateEntity.java:38-40 | the getter returns the value set; no other field changes |
| Entity.StateEntity.SetStateMachine | src/main/java/com/community/tools/util/statemachie/jpa/StateEntity.java:42-44 | the getter returns the value set; no other field changes |
| Entity.StateEntity.SetPointByTask | src/main/java/com/community/tools/util/statemachie/jpa/StateEntity.java:58-60 | the getter returns the value set; no other field changes |
| Entity.StateEntity.SetKarma | src/main/java/com/community/tools/util/statemachie/jpa/StateEntity.java:62-64 | the getter returns the value set; no other field changes |
| Entity.TotalPointsExactUnlessOverflow | src/main/java/com/community/tools/util/statemachie/jpa/StateEntity.java:30-32 | the total is the exact sum when it fits in `int`; it wraps by 2^32 above `MAX_VALUE` and below `MIN_VALUE` |
| Entity.StateEntity.Load | src/main/java/com/community/tools/util/statemachine/actions/transitions/verifications/AddGitNameActionTransition.java:70 | the entity read from the repository holds the stored row |
| Runtime.Backend.FindByUserID | src/main/java/com/community/tools/util/statemachine/actions/transitions/verifications/AddGitNameActionTransition.java:70 | returns nothing exactly when no record has the id, otherwise a fresh entity holding that record |
| Runtime.Backend.Save | src/main/java/com/community/tools/util/statemachine/actions/transitions/verifications/AddGitNameActionTransition.java:72 | the entity's row is stored under its key, the save is logged, and records stay keyed by their own id |
| Runtime.Backend.Persist | src/main/java/com/community/tools/service/StateMachineService.java:78 | the persister stores the machine's state and variables under the id, leaving other ids alone |
| Runtime.Machine.Restore | src/main/java/com/community/tools/service/StateMachineService.java:42-44 | a restored machine holds exactly the stored state and variables |
| Runtime.Machine.Start | src/main/java/com/community/tools/service/StateMachineService.java:91 | a machine from the factory is in the initial state with no variables |
| AddGitName.FirstIndex | src/main/java/com/community/tools/util/statemachine/actions/transitions/verifications/AddGitNameActionTransition.java:79-81 | `findFirst` over the filtered teams: the index of a team with that exact name and none before it, or none at all |
| AddGitName.AddGitNameActionTransition.Execute | src/main/java/com/community/tools/util/statemachine/actions/transitions/verifications/AddGitNameActionTransition.java:64-93 | the records, the calls made, the variables and the result are those of `ExecuteSpec`, and records stay keyed by their id |
| AddGitName.AddGitNameActionTransition.TryAddToTraineesTeam | src/main/java/com/community/tools/util/statemachine/actions/transitions/verifications/AddGitNameActionTransition.java:76-86 | the try block: the lookup, then the team listing if the lookup answered, then the add on the first "trainees" team if one exists; the calls, the login and the exit (normal, caught or uncaught) are those of `TryAddToTrainees` |
| AddGitName.AddGitNameActionTransition.Announce | src/main/java/com/community/tools/util/statemachine/actions/transitions/verifications/AddGitNameActionTransition.java:82-91 | after the try block: the apology only when an IOException was caught, then the channel post, then the first task |
| AddGitNameFacts.SavesGitNameBeforeGitHub | src/main/java/com/community/tools/util/statemachine/actions/transitions/verifications/AddGitNameActionTransition.java:65-78 | the record with the nick is saved as the first call, before the GitHub lookup; it is the only save, and no other record changes |
| AddGitNameFacts.AddsUserToFirstTraineesTeam | src/main/java/com/community/tools/util/statemachine/actions/transitions/verifications/AddGitNameActionTransition.java:77-81 | a team add happens if and only if the lookup and listing answer, a "trainees" team exists and the add succeeds; it adds the looked-up login to the first team named exactly "trainees" |
| AddGitNameFacts.TryBlockAdds | src/main/java/com/community/tools/util/statemachine/actions/transitions/verifications/AddGitNameActionTransition.java:77-81 | inside the try block, the add happens if and only if the lookup and listing answer, a "trainees" team exists and the add succeeds, and it names the first such team and the looked-up login |
| AddGitNameFacts.IOFailureReportedOnceAndContinues | src/main/java/com/community/tools/util/statemachine/actions/transitions/verifications/AddGitNameActionTransition.java:82-91 | an IOException from the lookup, listing or add is caught: exactly one apology, placed right before the post and the task, and the action completes; without one there is no apology |
| AddGitNameFacts.IOFailureReportedOnce | src/main/java/com/community/tools/util/statemachine/actions/transitions/verifications/AddGitNameActionTransition.java:82-91 | when an IOException is caught, the action completes and the apology is sent exactly once, three effects from the end |
| AddGitNameFacts.NoApologyWithoutIOFailure | src/main/java/com/community/tools/util/statemachine/actions/transitions/verifications/AddGitNameActionTransition.java:82-91 | when no IOException is caught, the apology is never sent |
| AddGitNameFacts.TryBlockCalls | src/main/java/com/community/tools/util/statemachine/actions/transitions/verifications/AddGitNameActionTransition.java:77-81 | the try block looks the nick up once, and lists the teams once if and only if the lookup answered |
| AddGitNameFacts.LooksUpOnceListsTeamsOnce | src/test/java/com/community/tools/util/statemachie/actions/verifications/AddGitNameActionTest.java:180-181 | each execution with a payload and a record makes exactly one user lookup, and exactly one team listing when the lookup answered (none otherwise) |
| AddGitNameFacts.TryBlockSendsNothing | src/main/java/com/community/tools/util/statemachine/actions/transitions/verifications/AddGitNameActionTransition.java:77-86 | the try block sends no chat message and posts nothing to the channel |
| AddGitNameFacts.AnnouncementsPostOnce | src/main/java/com/community/tools/util/statemachine/actions/transitions/verifications/AddGitNameActionTransition.java:82-91 | the calls after the try block hold exactly one channel post, and end with the post and then the first task |
| AddGitNameFacts.CompletesUnlessTraineesTeamMissing | src/main/java/com/community/tools/util/statemachine/actions/transitions/verifications/AddGitNameActionTransition.java:77-86 | with a payload and a record, the action completes if and only if there is no missing "trainees" team (the one failure the handler does not catch) |
| AddGitNameFacts.AnnouncesOnceThenSendsTask | src/main/java/com/community/tools/util/statemachine/actions/transitions/verifications/AddGitNameActionTransition.java:87-91 | whatever the team add does, a completed run makes exactly one channel post and then sends the first task once, as its last two calls |
| AddGitNameFacts.ChannelPostText | src/main/java/com/community/tools/util/statemachine/actions/transitions/verifications/AddGitNameActionTransition.java:95-105 | the two string builders joined by a newline give the documented layout |
| AddGitNameFacts.ChannelPostLayout | src/main/java/com/community/tools/util/statemachine/actions/transitions/verifications/AddGitNameActionTransition.java:87-89 | the channel post is name, " - ", the login ("null" when the lookup threw), then the three answers as a numbered list |
| AddGitNameFacts.RecordsGitNick | src/main/java/com/community/tools/util/statemachine/actions/transitions/verifications/AddGitNameActionTransition.java:92 | a completed run sets `gitNick` to the payload's nick and touches no other variable; an aborted one changes no variable |
| AddGitNameFacts.UncaughtFailuresAbort | src/main/java/com/community/tools/util/statemachine/actions/transitions/verifications/AddGitNameActionTransition.java:65-81 | a missing or mistyped payload or a missing record aborts before any call; a missing "trainees" team aborts after the save, the lookup and the team listing, before any message |
| AddGitNameFacts.BindingDoesNotCheckUniqueness | src/main/java/com/community/tools/util/statemachine/actions/transitions/verifications/AddGitNameActionTransition.java:70-72 | binding a nick another record already holds leaves both records holding it |
| Dispatcher.NewUserDispatch | src/main/java/com/community/tools/service/StateMachineService.java:147-154 | in `NEW_USER`, the event `QUESTION_FIRST` with the sender's `SinglePayload` fires if and only if the text is "ready" in any letter case; otherwise the reply is `NOT_THAT_MESSAGE` |
| Dispatcher.QuestionDispatch | src/main/java/com/community/tools/service/StateMachineService.java:155-166 | each question state fires its next event for any text, with the raw text and the stored `id` variable |
| Dispatcher.AgreedLicenseDispatch | src/main/java/com/community/tools/service/StateMachineService.java:167-171 | in `AGREED_LICENSE` the raw text becomes the git nick of a `VerificationPayload` with `LOGIN_CONFIRMATION` |
| Dispatcher.CheckLoginDispatch | src/main/java/com/community/tools/service/StateMachineService.java:172-182 | in `CHECK_LOGIN`, "yes" gives `ADD_GIT_NAME_AND_FIRST_TASK` and "no" gives `DID_NOT_PASS_VERIFICATION_GIT_LOGIN`, each if and only if, both with the stored payload; any other text gets `NOT_THAT_MESSAGE` |
| Dispatcher.CheckLoginWithoutVerificationPayload | src/main/java/com/community/tools/service/StateMachineService.java:180-190 | in `CHECK_LOGIN`, a stored value of another class fails the cast whatever the text; with nothing stored, "yes" and "no" throw and other text is answered |
| Dispatcher.OtherStatesDispatch | src/main/java/com/community/tools/service/StateMachineService.java:183-188 | every other state answers `DEFAULT_MESSAGE` and fires nothing |
| Dispatcher.MissingIdThrows | src/main/java/com/community/tools/service/StateMachineService.java:139-140 | without an `id` variable every message throws before any other effect |
| Dispatcher.FiredPayloadOwner | src/main/java/com/community/tools/service/StateMachineService.java:146-186 | a fired payload carries the sender's id, except in `CHECK_LOGIN` where it is exactly the stored `dataPayload` |
| Service.StateMachineService.RestoreMachine | src/main/java/com/community/tools/service/StateMachineService.java:41-46 | fails if and only if nothing is persisted under the id, otherwise gives a fresh machine holding the stored snapshot |
| Service.StateMachineService.PersistMachine | src/main/java/com/community/tools/service/StateMachineService.java:76-82 | the machine is stored under the id and nothing else changes |
| Service.StateMachineService.SendEvent | src/main/java/com/community/tools/util/statemachine/actions/transitions/verifications/AddGitNameActionTransition.java:52-59 | firing an event gives `SendEventSpec`: the action and the error action run only on the bound edge, and records stay keyed by their id |
| Service.StateMachineService.DoActionWithPayload | src/main/java/com/community/tools/service/StateMachineService.java:105-109 | the payload is stashed as `dataPayload`, the event fired, and the machine persisted under the payload's id (`FireWithPayload`); the caller's machine is left holding exactly the stored snapshot |
| Service.StateMachineService.DoActionIfInState | src/main/java/com/community/tools/service/StateMachineService.java:119-128 | result and new state are `FireIfInState`: fire and persist under the user id only when the restored state matches |
| Service.StateMachineService.DoAction | src/main/java/com/community/tools/service/StateMachineService.java:137-194 | result and new state are `HandleMessage`: one private reply, or fire and persist, or an exception with no change |
| Service.StateMachineService.PersistMachineForNewUser | src/main/java/com/community/tools/service/StateMachineService.java:90-97 | persists the initial state with variables `id`, `taskNumber = 1` and `mentor = "NO_MENTOR"` under the id |
| Service.StateMachineService.ResetUser | src/main/java/com/community/tools/service/StateMachineService.java:202-216 | new state is `Reset`: a record holding only the id is saved, a new machine persisted, then the welcome and the rules are sent |
| Service.StateMachineService.GetIdByNick | src/main/java/com/community/tools/service/StateMachineService.java:66-68 | returns the one id whose record has the nick; no such record or several are the two exceptions, each if and only if; the outcome is `IdByNick` |
| Service.IdByNick | src/main/java/com/community/tools/service/StateMachineService.java:66-68 | reference definition of the lookup by nick: a returned id is the only one whose record holds the nick |
| Service.StateMachineService.RestoreMachineByNick | src/main/java/com/community/tools/service/StateMachineService.java:54-64 | the outcome is `MachineByNick`: the machine persisted under the one id holding the nick, which is returned whenever that id has a persisted machine; no record, several records, and a missing machine are each the matching failure, if and only if |
| ServiceFacts.ActionRunsOnlyOnBoundEdge | src/main/java/com/community/tools/util/statemachine/actions/transitions/verifications/AddGitNameActionTransition.java:52-59 | the git-name action and its error action run only on the bound edge, which always enters `GOT_THE_TASK`; the other edges are modelled with no action, so in the model they change no record, call or variable |
| ServiceFacts.UnmatchedEventStillPersists | src/main/java/com/community/tools/service/StateMachineService.java:105-109 | an event no transition accepts changes no record and sends nothing, yet the stashed payload is persisted under the payload's id |
| ServiceFacts.ExecuteKeepsVars | src/main/java/com/community/tools/util/statemachine/actions/transitions/verifications/AddGitNameActionTransition.java:92 | the action keeps every variable it was given, changing at most `gitNick` |
| ServiceFacts.ReplyChangesOnlyLog | src/main/java/com/community/tools/service/StateMachineService.java:187-188 | an answered message sends exactly that reply to its sender; records and persisted machines do not change |
| ServiceFacts.FailureChangesNothing | src/main/java/com/community/tools/service/StateMachineService.java:139-192 | a message that throws leaves records, persisted machines and the call log unchanged |
| ServiceFacts.FirePersistsUnderPayloadId | src/main/java/com/community/tools/service/StateMachineService.java:189-193 | a fired message persists the machine under the payload's id with that payload as `dataPayload`; every other persisted machine stays |
| ServiceFacts.GuardedFiresIffStateMatches | src/main/java/com/community/tools/service/StateMachineService.java:119-128 | returns true if and only if the stored state matches, persisting the fired machine; on false nothing changes |
| ServiceFacts.HandleKeepsRecordsKeyed | src/main/java/com/community/tools/util/statemachine/actions/transitions/verifications/AddGitNameActionTransition.java:70-72 | every message keeps each record stored under its own id |
| ServiceFacts.ExecuteKeepsKeys | src/main/java/com/community/tools/util/statemachine/actions/transitions/verifications/AddGitNameActionTransition.java:70-72 | the action creates and removes no record, and keeps records keyed by their id |
| ServiceFacts.ResetUnbindsGitName | src/main/java/com/community/tools/service/StateMachineService.java:204-206 | after a reset the nick is held by exactly the records that held it before, minus the reset trainee's |
| ServiceFacts.ResetStartsOver | src/main/java/com/community/tools/service/StateMachineService.java:202-216 | a reset leaves the initial state with the initial variables and no payload, keeps the earlier calls, and ends with the welcome and then the rules |
| ServiceFacts.ResetThenReady | src/main/java/com/community/tools/service/StateMachineService.java:202-207 | after a reset into `NEW_USER`, "ready" in any letter case fires `QUESTION_FIRST` if and only if, and any other text gets `NOT_THAT_MESSAGE` |
| ServiceFacts.RedeliveredConfirmationIsIgnored | src/main/java/com/community/tools/service/StateMachineService.java:183-188 | once in `GOT_THE_TASK`, a repeated "yes" (or any text) only gets `DEFAULT_MESSAGE`; the action does not run again |
| ServiceFacts.NickThenYesBindsNick | src/main/java/com/community/tools/service/StateMachineService.java:167-193 | a nick sent in `AGREED_LICENSE` and then "yes" bind that nick to the sender's record, leaving the machine in `GOT_THE_TASK`; a nick nobody else held then resolves to the sender, and restoring by that nick yields the sender's machine |

## Left out

- Spring Statemachine: the factory, `start()` and byte serialisation. A snapshot is a state plus a variable map.
- Spring Statemachine's behaviour for unmatched events, for an action that throws, and for restoring an unknown id: assumed as stated above.
- The transitions other than `CHECK_LOGIN → GOT_THE_TASK`: their configuration is not part of this model. They are the parameter `Edges`, with no action bound to them.
- VerificationLoginAction, which is bound to one of those edges, is not part of this model. `NickThenYesBindsNick` assumes its edge runs no action.
- TaskStatusController is not part of this model. It is a reporting view with hard-coded rows.
- The GitHub, Slack and Discord clients are calls in the log, and their answers are inputs. The message texts and the Discord constants are opaque parameters.
- `createBlockMessage` is a pair of texts. How a block renders is not modelled.
- `getUserById` is a total function parameter. Its failures are not modelled, and its calls are not logged.
- The record's `stateMachine` column (`Row.stateMachine`) and the persister's stored machines (`Sys.snapshots`) are independent in the model. The persister's link to that column is not part of this model.
- `toString()` of a payload stored as `id` renders as the empty string. Only strings and integers are stored there.
- JavaText.EqualsIgnoreCaseIsLowerEquality: case mapping covers ASCII only. Java also matches a few non-ASCII letters, such as U+017F with 's'.
- Service.StateMachineService.RestoreMachineByNick: the exception a failed restore is wrapped in (`RuntimeException`) is not distinguished from the plain failure.
- Concurrency: the code has no locking, and requests are modelled one at a time.
- The persister's storage failures and the repository's write failures are not modelled. Both stores always accept a write.
