/** The action bound to the confirmation of a trainee's git login: it binds
    the login to the trainee record, adds the GitHub user to the "trainees"
    team, announces the trainee in the general channel and sends the first
    task. What the GitHub clients answer is an input (`GitHubReplies`);
    every outgoing call is an `Effect` appended to the log. */
module AddGitName {
  import opened Types
  import opened JavaText
  import opened Entity
  import opened Runtime

  /** A configured transition: source, triggering event, target. */
  datatype Edge = Edge(source: State, event: Event, target: State)

  /** The one edge `configure` binds this action to. */
  const BoundEdge: Edge := Edge(CheckLogin, AddGitNameAndFirstTask, GotTheTask)

  /** The action's injected texts: the channel name and the two Slack block
      messages from the properties, and their Discord counterparts. */
  datatype ActionConfig = ActionConfig(
    channel: string,
    getFirstTask: string,
    errorWithAddingGitName: string,
    discordGetFirstTask: string,
    discordErrorWithAddingGitName: string)

  /** What the GitHub clients answer during one execution. */
  datatype GitHubReplies = GitHubReplies(
    lookup: Option<string>,       // login of the resolved user; None: the lookup throws IOException
    teams: Option<seq<string>>,   // the repository's team names in iteration order; None: fetching throws IOException
    addFails: bool)               // adding to the team throws IOException

  datatype ActionResult = Completed | Aborted(failure: Failure)

  /** Where the try block ends: normally, in its IOException handler, or by
      an exception the handler does not catch. */
  datatype TryExit = Normal | CaughtIOException | Uncaught

  datatype Attempt = Attempt(login: Option<string>, effects: seq<Effect>, exit: TryExit)

  /** The record, the calls made, the extended variables and the result of
      one execution. */
  datatype Execution = Execution(
    records: map<string, Row>,
    effects: seq<Effect>,
    vars: map<string, Value>,
    result: ActionResult)

  /** Index of the first team called exactly `name`, as a filtered stream's
      `findFirst` finds it. */
  function FirstIndex(names: seq<string>, name: string): (r: Option<nat>)
    ensures r.Some? ==> r.value < |names| && names[r.value] == name
    ensures r.Some? ==> forall j :: 0 <= j < r.value ==> names[j] != name
    ensures r.None? ==> forall j :: 0 <= j < |names| ==> names[j] != name
  {
    if names == [] then None
    else if names[0] == name then Some(0)
    else match FirstIndex(names[1..], name)
      case None => None
      case Some(i) => Some(i + 1)
  }

  /** `generalInformationAboutUserToChannel`: display name and GitHub login. */
  function GeneralInformation(displayName: string, login: Option<string>): string
  {
    displayName + " - " + StringOf(login)
  }

  /** `sendUserAnswersToChannel`: the three stored answers as a numbered list. */
  function AnswersText(first: Option<string>, second: Option<string>, third: Option<string>): string
  {
    "Answer on questions : \n"
    + "1. " + StringOf(first) + ";\n"
    + "2. " + StringOf(second) + ";\n"
    + "3. " + StringOf(third) + "."
  }

  /** The announcement posted in the general channel. */
  function ChannelPost(displayName: string, login: Option<string>, row: Row): string
  {
    GeneralInformation(displayName, login) + "\n" + AnswersText(row.firstAnswer, row.secondAnswer, row.thirdAnswer)
  }

  /** The try block: look up the login, list the repository's teams, then
      add that user to the first team named "trainees". The login stays null
      when the lookup throws. */
  function TryAddToTrainees(nick: string, gh: GitHubReplies): Attempt
  {
    var looked := [LookedUpUser(nick)];
    match gh.lookup
    case None => Attempt(None, looked, CaughtIOException)
    case Some(login) =>
      var listed := looked + [ListedTeams];
      match gh.teams
      case None => Attempt(Some(login), listed, CaughtIOException)
      case Some(names) =>
        match FirstIndex(names, "trainees")
        case None => Attempt(Some(login), listed, Uncaught)
        case Some(i) =>
          if gh.addFails then Attempt(Some(login), listed + [TeamAddFailed(i, login)], CaughtIOException)
          else Attempt(Some(login), listed + [AddedToTeam(i, login)], Normal)
  }

  /** The calls made after the try block: the apology when an IOException
      was caught, then the channel announcement, then the first task. */
  function Announcements(cfg: ActionConfig, to: string, login: Option<string>, exit: TryExit, row: Row): seq<Effect>
  {
    var apology := if exit == CaughtIOException
                   then [BlocksMessage(to, Block(cfg.errorWithAddingGitName, cfg.discordErrorWithAddingGitName))]
                   else [];
    apology + [ChannelMessage(cfg.channel, ChannelPost(to, login, row)),
               BlocksMessage(to, Block(cfg.getFirstTask, cfg.discordGetFirstTask))]
  }

  /** One execution of the action on the given record store and extended
      variables. */
  function ExecuteSpec(cfg: ActionConfig, displayName: string -> string, records: map<string, Row>,
                       vars: map<string, Value>, gh: GitHubReplies): Execution
  {
    if "dataPayload" !in vars then Execution(records, [], vars, Aborted(NullPointer))
    else if !IsVerification(vars["dataPayload"]) then Execution(records, [], vars, Aborted(ClassCast))
    else
      var user, nick := vars["dataPayload"].payload.id, vars["dataPayload"].payload.gitNick;
      if user !in records then Execution(records, [], vars, Aborted(NoSuchElement))
      else
        var row := records[user].(gitName := Some(nick));
        var attempt := TryAddToTrainees(nick, gh);
        var done := [SavedRecord(row)] + attempt.effects;
        if attempt.exit == Uncaught then Execution(records[user := row], done, vars, Aborted(NoSuchElement))
        else
          Execution(records[user := row], done + Announcements(cfg, displayName(user), attempt.login, attempt.exit, row),
                    vars["gitNick" := Str(nick)], Completed)
  }

  class AddGitNameActionTransition {
    const channel: string
    const getFirstTask: string
    const errorWithAddingGitName: string
    const discordGetFirstTask: string
    const discordErrorWithAddingGitName: string
    const backend: Backend

    function Config(): ActionConfig
    {
      ActionConfig(channel, getFirstTask, errorWithAddingGitName, discordGetFirstTask, discordErrorWithAddingGitName)
    }

    constructor (cfg: ActionConfig, backend: Backend)
      ensures Config() == cfg && this.backend == backend
    {
      channel, getFirstTask, errorWithAddingGitName := cfg.channel, cfg.getFirstTask, cfg.errorWithAddingGitName;
      discordGetFirstTask, discordErrorWithAddingGitName := cfg.discordGetFirstTask, cfg.discordErrorWithAddingGitName;
      this.backend := backend;
    }

    /** Runs the action on the machine whose extended variables hold the
        verification payload. */
    method Execute(context: Machine, gh: GitHubReplies) returns (result: ActionResult)
      requires backend.Valid()
      modifies backend`records, backend`log, context`vars
      ensures backend.Valid()
      ensures var x := ExecuteSpec(Config(), backend.displayName, old(backend.records), old(context.vars), gh);
              && backend.records == x.records
              && backend.log == old(backend.log) + x.effects
              && context.vars == x.vars
              && result == x.result
    {
      if "dataPayload" !in context.vars {
        return Aborted(NullPointer);
      }
      var stored := context.vars["dataPayload"];
      if !IsVerification(stored) {
        return Aborted(ClassCast);
      }
      var user, nickname := stored.payload.id, stored.payload.gitNick;

      var stateEntity := backend.FindByUserID(user);
      if stateEntity == null {
        return Aborted(NoSuchElement);
      }
      stateEntity.SetGitName(Some(nickname));
      backend.Save(stateEntity);
      var row := stateEntity.AsRow();
      ghost var saved := backend.log;
      assert saved == old(backend.log) + [SavedRecord(row)];
      var userGitLogin, exit := TryAddToTraineesTeam(nickname, gh);
      ghost var attempt := TryAddToTrainees(nickname, gh);
      assert backend.log == old(backend.log) + ([SavedRecord(row)] + attempt.effects);
      if exit == Uncaught {
        return Aborted(NoSuchElement);
      }
      Announce(backend.displayName(user), userGitLogin, exit, row);
      context.vars := context.vars["gitNick" := Str(nickname)];
      return Completed;
    }

    /** The try block and its IOException handler's condition: the user
        lookup, then the membership add on the first "trainees" team. */
    method TryAddToTraineesTeam(nickname: string, gh: GitHubReplies) returns (userGitLogin: Option<string>, exit: TryExit)
      modifies backend`log
      ensures var a := TryAddToTrainees(nickname, gh);
              userGitLogin == a.login && exit == a.exit && backend.log == old(backend.log) + a.effects
    {
      userGitLogin, exit := None, Normal;
      backend.Send(LookedUpUser(nickname));
      if gh.lookup.None? {
        return None, CaughtIOException;
      }
      userGitLogin := gh.lookup;
      backend.Send(ListedTeams);
      if gh.teams.None? {
        return userGitLogin, CaughtIOException;
      }
      var team := FirstIndex(gh.teams.value, "trainees");
      if team.None? {
        return userGitLogin, Uncaught;
      }
      if gh.addFails {
        backend.Send(TeamAddFailed(team.value, gh.lookup.value));
        return userGitLogin, CaughtIOException;
      }
      backend.Send(AddedToTeam(team.value, gh.lookup.value));
    }

    /** After the try block: the apology block if an IOException was caught,
        the channel announcement with the stored answers, the first task. */
    method Announce(to: string, userGitLogin: Option<string>, exit: TryExit, row: Row)
      modifies backend`log
      ensures backend.log == old(backend.log) + Announcements(Config(), to, userGitLogin, exit, row)
    {
      if exit == CaughtIOException {
        backend.Send(BlocksMessage(to, Block(errorWithAddingGitName, discordErrorWithAddingGitName)));
      }
      backend.Send(ChannelMessage(channel, ChannelPost(to, userGitLogin, row)));
      backend.Send(BlocksMessage(to, Block(getFirstTask, discordGetFirstTask)));
    }
  }
}
