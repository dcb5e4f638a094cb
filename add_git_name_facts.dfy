/** What one execution of the git-name binding action guarantees: the
    order of its calls, which failures it absorbs and which end it, what it
    announces and what it records. */
module AddGitNameFacts {
  import opened Types
  import opened JavaText
  import opened Entity
  import opened Runtime
  import opened AddGitName

  /** Number of calls in `s` that satisfy `p`. */
  function CountWhere(s: seq<Effect>, p: Effect -> bool): (n: nat)
    ensures n <= |s|
  {
    if s == [] then 0 else (if p(s[0]) then 1 else 0) + CountWhere(s[1..], p)
  }

  lemma {:induction false} CountWhereAppend(a: seq<Effect>, b: seq<Effect>, p: Effect -> bool)
    ensures CountWhere(a + b, p) == CountWhere(a, p) + CountWhere(b, p)
  {
    if a == [] {
      assert a + b == b;
    } else {
      assert (a + b)[1..] == a[1..] + b;
      CountWhereAppend(a[1..], b, p);
    }
  }

  predicate IsChannelPost(e: Effect)
  {
    e.ChannelMessage?
  }

  /** The stored payload is a verification payload for `user`, who has a record. */
  predicate Binds(records: map<string, Row>, vars: map<string, Value>, user: string, nick: string)
  {
    && "dataPayload" in vars
    && vars["dataPayload"] == Data(VerificationPayload(user, nick))
    && user in records
  }

  /** The try block ends in its IOException handler. */
  predicate CaughtFailure(gh: GitHubReplies)
  {
    || gh.lookup.None?
    || gh.teams.None?
    || (FirstIndex(gh.teams.value, "trainees").Some? && gh.addFails)
  }

  /** The repository has no team called exactly "trainees" (and both
      GitHub calls before that point answered). */
  predicate NoTraineesTeam(gh: GitHubReplies)
  {
    gh.lookup.Some? && gh.teams.Some? && FirstIndex(gh.teams.value, "trainees").None?
  }

  /** The git name is written to the record and saved before the lookup,
      the save is the only one, and no other record changes. */
  lemma SavesGitNameBeforeGitHub(cfg: ActionConfig, dn: string -> string, records: map<string, Row>,
                                 vars: map<string, Value>, gh: GitHubReplies, user: string, nick: string)
    requires Binds(records, vars, user, nick)
    ensures var x := ExecuteSpec(cfg, dn, records, vars, gh);
            && x.records == records[user := records[user].(gitName := Some(nick))]
            && |x.effects| >= 2
            && x.effects[0] == SavedRecord(x.records[user])
            && x.effects[1] == LookedUpUser(nick)
            && forall i :: 1 <= i < |x.effects| ==> !x.effects[i].SavedRecord?
  {
  }

  /** A membership add happens exactly when the lookup and the team listing
      answer, a "trainees" team exists and the add does not fail; it adds
      the looked-up user to the first team whose name is exactly "trainees". */
  lemma AddsUserToFirstTraineesTeam(cfg: ActionConfig, dn: string -> string, records: map<string, Row>,
                                    vars: map<string, Value>, gh: GitHubReplies, user: string, nick: string)
    requires Binds(records, vars, user, nick)
    ensures var x := ExecuteSpec(cfg, dn, records, vars, gh);
            (exists e :: e in x.effects && e.AddedToTeam?) <==>
              gh.lookup.Some? && gh.teams.Some? && FirstIndex(gh.teams.value, "trainees").Some? && !gh.addFails
    ensures var x := ExecuteSpec(cfg, dn, records, vars, gh);
            forall e :: e in x.effects && e.AddedToTeam? ==>
              && gh.lookup == Some(e.login)
              && gh.teams.Some? && e.team < |gh.teams.value|
              && gh.teams.value[e.team] == "trainees"
              && forall j :: 0 <= j < e.team ==> gh.teams.value[j] != "trainees"
  {
    var x := ExecuteSpec(cfg, dn, records, vars, gh);
    var a := TryAddToTrainees(nick, gh);
    var row := records[user].(gitName := Some(nick));
    var announced := if a.exit == Uncaught then [] else Announcements(cfg, dn(user), a.login, a.exit, row);
    assert x.effects == [SavedRecord(row)] + a.effects + announced;
    assert forall e :: e in announced ==> !e.AddedToTeam?;
    TryBlockAdds(nick, gh);
    assert forall e :: e in x.effects && e.AddedToTeam? ==> e in a.effects;
    assert forall e :: e in a.effects ==> e in x.effects;
  }

  /** The try block alone adds the user exactly when the lookup and the
      listing answer, a "trainees" team exists and the add succeeds; the
      add names the first such team and the looked-up login. */
  lemma TryBlockAdds(nick: string, gh: GitHubReplies)
    ensures var a := TryAddToTrainees(nick, gh);
            (exists e :: e in a.effects && e.AddedToTeam?) <==>
              gh.lookup.Some? && gh.teams.Some? && FirstIndex(gh.teams.value, "trainees").Some? && !gh.addFails
    ensures var a := TryAddToTrainees(nick, gh);
            forall e :: e in a.effects && e.AddedToTeam? ==>
              && gh.lookup == Some(e.login)
              && gh.teams.Some? && e.team < |gh.teams.value|
              && gh.teams.value[e.team] == "trainees"
              && forall j :: 0 <= j < e.team ==> gh.teams.value[j] != "trainees"
  {
    var a := TryAddToTrainees(nick, gh);
    if gh.lookup.Some? && gh.teams.Some? && FirstIndex(gh.teams.value, "trainees").Some? && !gh.addFails {
      assert AddedToTeam(FirstIndex(gh.teams.value, "trainees").value, gh.lookup.value) in a.effects;
    }
  }

  /** An IOException from the lookup, the team listing or the add is
      caught: the trainee gets the apology block exactly once, right before
      the announcement and the first task, and the action completes. With no
      IOException the apology is never sent. */
  lemma IOFailureReportedOnceAndContinues(cfg: ActionConfig, dn: string -> string, records: map<string, Row>,
                                          vars: map<string, Value>, gh: GitHubReplies, user: string, nick: string)
    requires Binds(records, vars, user, nick)
    requires Block(cfg.errorWithAddingGitName, cfg.discordErrorWithAddingGitName) != Block(cfg.getFirstTask, cfg.discordGetFirstTask)
    ensures var x := ExecuteSpec(cfg, dn, records, vars, gh);
            var apology := BlocksMessage(dn(user), Block(cfg.errorWithAddingGitName, cfg.discordErrorWithAddingGitName));
            && (CaughtFailure(gh) ==>
                  && x.result == Completed
                  && multiset(x.effects)[apology] == 1
                  && |x.effects| >= 3 && x.effects[|x.effects| - 3] == apology)
            && (!CaughtFailure(gh) ==> apology !in x.effects)
  {
    if CaughtFailure(gh) {
      IOFailureReportedOnce(cfg, dn, records, vars, gh, user, nick);
    } else {
      NoApologyWithoutIOFailure(cfg, dn, records, vars, gh, user, nick);
    }
  }

  /** The caught-failure half: one apology, three effects from the end. */
  lemma IOFailureReportedOnce(cfg: ActionConfig, dn: string -> string, records: map<string, Row>,
                              vars: map<string, Value>, gh: GitHubReplies, user: string, nick: string)
    requires Binds(records, vars, user, nick) && CaughtFailure(gh)
    requires Block(cfg.errorWithAddingGitName, cfg.discordErrorWithAddingGitName) != Block(cfg.getFirstTask, cfg.discordGetFirstTask)
    ensures var x := ExecuteSpec(cfg, dn, records, vars, gh);
            var apology := BlocksMessage(dn(user), Block(cfg.errorWithAddingGitName, cfg.discordErrorWithAddingGitName));
            && x.result == Completed
            && multiset(x.effects)[apology] == 1
            && |x.effects| >= 3 && x.effects[|x.effects| - 3] == apology
  {
    var x := ExecuteSpec(cfg, dn, records, vars, gh);
    var a := TryAddToTrainees(nick, gh);
    var row := records[user].(gitName := Some(nick));
    var apology := BlocksMessage(dn(user), Block(cfg.errorWithAddingGitName, cfg.discordErrorWithAddingGitName));
    assert a.exit == CaughtIOException;
    var done := [SavedRecord(row)] + a.effects;
    var rest := [ChannelMessage(cfg.channel, ChannelPost(dn(user), a.login, row)),
                 BlocksMessage(dn(user), Block(cfg.getFirstTask, cfg.discordGetFirstTask))];
    assert Announcements(cfg, dn(user), a.login, a.exit, row) == [apology] + rest;
    assert x.effects == done + ([apology] + rest);
    assert apology !in done;
    OnceBeforeLastTwo(done, apology, rest);
  }

  /** An element absent from `done` and from the two-element `rest` occurs
      once in `done + [e] + rest`, three places from the end. */
  lemma OnceBeforeLastTwo(done: seq<Effect>, e: Effect, rest: seq<Effect>)
    requires e !in done && |rest| == 2 && e !in rest
    ensures var s := done + ([e] + rest);
            multiset(s)[e] == 1 && |s| >= 3 && s[|s| - 3] == e
  {
    var s := done + ([e] + rest);
    assert multiset(s) == multiset(done) + multiset{e} + multiset(rest);
    assert multiset(done)[e] == 0 && multiset(rest)[e] == 0;
  }

  /** The other half: without a caught failure no apology is sent. */
  lemma NoApologyWithoutIOFailure(cfg: ActionConfig, dn: string -> string, records: map<string, Row>,
                                  vars: map<string, Value>, gh: GitHubReplies, user: string, nick: string)
    requires Binds(records, vars, user, nick) && !CaughtFailure(gh)
    requires Block(cfg.errorWithAddingGitName, cfg.discordErrorWithAddingGitName) != Block(cfg.getFirstTask, cfg.discordGetFirstTask)
    ensures BlocksMessage(dn(user), Block(cfg.errorWithAddingGitName, cfg.discordErrorWithAddingGitName))
              !in ExecuteSpec(cfg, dn, records, vars, gh).effects
  {
    var a := TryAddToTrainees(nick, gh);
    assert BlocksMessage(dn(user), Block(cfg.errorWithAddingGitName, cfg.discordErrorWithAddingGitName)) !in a.effects;
    assert a.exit != CaughtIOException;
  }

  /** No call satisfying `p`, none counted. */
  lemma {:induction false} CountWhereNone(s: seq<Effect>, p: Effect -> bool)
    requires forall i :: 0 <= i < |s| ==> !p(s[i])
    ensures CountWhere(s, p) == 0
  {
    if s != [] {
      CountWhereNone(s[1..], p);
    }
  }

  /** The try block makes no channel post and sends no message. */
  lemma TryBlockSendsNothing(nick: string, gh: GitHubReplies)
    ensures var a := TryAddToTrainees(nick, gh);
            && CountWhere(a.effects, IsChannelPost) == 0
            && forall e :: e in a.effects ==> !e.BlocksMessage? && !e.ChannelMessage?
  {
    CountWhereNone(TryAddToTrainees(nick, gh).effects, IsChannelPost);
  }

  predicate IsLookup(e: Effect)
  {
    e.LookedUpUser?
  }

  predicate IsTeamListing(e: Effect)
  {
    e.ListedTeams?
  }

  /** The try block looks the nick up once, and lists the teams once
      exactly when the lookup answered. */
  lemma TryBlockCalls(nick: string, gh: GitHubReplies)
    ensures var a := TryAddToTrainees(nick, gh);
            && CountWhere(a.effects, IsLookup) == 1
            && CountWhere(a.effects, IsTeamListing) == if gh.lookup.Some? then 1 else 0
  {
    var a := TryAddToTrainees(nick, gh);
    var tail := a.effects[1..];
    assert a.effects == [LookedUpUser(nick)] + tail;
    CountWhereAppend([LookedUpUser(nick)], tail, IsLookup);
    CountWhereAppend([LookedUpUser(nick)], tail, IsTeamListing);
    CountWhereNone(tail, IsLookup);
    if gh.lookup.Some? {
      var rest := tail[1..];
      assert tail == [ListedTeams] + rest;
      CountWhereAppend([ListedTeams], rest, IsTeamListing);
      CountWhereNone(rest, IsTeamListing);
    } else {
      assert tail == [];
    }
  }

  /** With a payload and a record, each execution looks the nick up once,
      and lists the repository's teams once exactly when the lookup answered. */
  lemma LooksUpOnceListsTeamsOnce(cfg: ActionConfig, dn: string -> string, records: map<string, Row>,
                                  vars: map<string, Value>, gh: GitHubReplies, user: string, nick: string)
    requires Binds(records, vars, user, nick)
    ensures var x := ExecuteSpec(cfg, dn, records, vars, gh);
            && CountWhere(x.effects, IsLookup) == 1
            && CountWhere(x.effects, IsTeamListing) == if gh.lookup.Some? then 1 else 0
  {
    var x := ExecuteSpec(cfg, dn, records, vars, gh);
    var a := TryAddToTrainees(nick, gh);
    var row := records[user].(gitName := Some(nick));
    var after := if a.exit == Uncaught then [] else Announcements(cfg, dn(user), a.login, a.exit, row);
    assert x.effects == [SavedRecord(row)] + a.effects + after;
    TryBlockCalls(nick, gh);
    CountWhereAppend([SavedRecord(row)], a.effects, IsLookup);
    CountWhereAppend([SavedRecord(row)] + a.effects, after, IsLookup);
    CountWhereAppend([SavedRecord(row)], a.effects, IsTeamListing);
    CountWhereAppend([SavedRecord(row)] + a.effects, after, IsTeamListing);
    CountWhereNone([SavedRecord(row)], IsLookup);
    CountWhereNone([SavedRecord(row)], IsTeamListing);
    CountWhereNone(after, IsLookup);
    CountWhereNone(after, IsTeamListing);
  }

  /** After the try block: at most the apology, then one channel post, then the task. */
  lemma AnnouncementsPostOnce(cfg: ActionConfig, to: string, login: Option<string>, exit: TryExit, row: Row)
    requires Block(cfg.errorWithAddingGitName, cfg.discordErrorWithAddingGitName) != Block(cfg.getFirstTask, cfg.discordGetFirstTask)
    ensures var s := Announcements(cfg, to, login, exit, row);
            var task := BlocksMessage(to, Block(cfg.getFirstTask, cfg.discordGetFirstTask));
            && CountWhere(s, IsChannelPost) == 1
            && |s| >= 2
            && s[|s| - 2] == ChannelMessage(cfg.channel, ChannelPost(to, login, row))
            && s[|s| - 1] == task
            && multiset(s)[task] == 1
  {
    var apology := if exit == CaughtIOException
                   then [BlocksMessage(to, Block(cfg.errorWithAddingGitName, cfg.discordErrorWithAddingGitName))]
                   else [];
    var post := ChannelMessage(cfg.channel, ChannelPost(to, login, row));
    var task := BlocksMessage(to, Block(cfg.getFirstTask, cfg.discordGetFirstTask));
    var s := Announcements(cfg, to, login, exit, row);
    assert s == apology + [post] + [task];
    assert CountWhere(apology, IsChannelPost) == 0;
    assert CountWhere([post], IsChannelPost) == 1;
    assert CountWhere([task], IsChannelPost) == 0;
    CountWhereAppend(apology, [post], IsChannelPost);
    CountWhereAppend(apology + [post], [task], IsChannelPost);
    assert multiset(apology)[task] == 0;
  }

  /** With a stored verification payload and a record, the action completes
      exactly when the lookup or the team listing throws, or a "trainees"
      team exists. */
  lemma CompletesUnlessTraineesTeamMissing(cfg: ActionConfig, dn: string -> string, records: map<string, Row>,
                                           vars: map<string, Value>, gh: GitHubReplies, user: string, nick: string)
    requires Binds(records, vars, user, nick)
    ensures ExecuteSpec(cfg, dn, records, vars, gh).result == Completed <==> !NoTraineesTeam(gh)
  {
  }

  /** A completed execution posts exactly one channel message and then sends
      the first task exactly once, as its last two calls. */
  lemma AnnouncesOnceThenSendsTask(cfg: ActionConfig, dn: string -> string, records: map<string, Row>,
                                   vars: map<string, Value>, gh: GitHubReplies, user: string, nick: string)
    requires Binds(records, vars, user, nick)
    requires !NoTraineesTeam(gh)
    requires Block(cfg.errorWithAddingGitName, cfg.discordErrorWithAddingGitName) != Block(cfg.getFirstTask, cfg.discordGetFirstTask)
    ensures var x := ExecuteSpec(cfg, dn, records, vars, gh);
            var task := BlocksMessage(dn(user), Block(cfg.getFirstTask, cfg.discordGetFirstTask));
            && x.result == Completed
            && CountWhere(x.effects, IsChannelPost) == 1
            && |x.effects| >= 2
            && x.effects[|x.effects| - 2].ChannelMessage?
            && x.effects[|x.effects| - 2].channel == cfg.channel
            && x.effects[|x.effects| - 1] == task
            && multiset(x.effects)[task] == 1
  {
    var a := TryAddToTrainees(nick, gh);
    var row := records[user].(gitName := Some(nick));
    var task := BlocksMessage(dn(user), Block(cfg.getFirstTask, cfg.discordGetFirstTask));
    var before := [SavedRecord(row)] + a.effects;
    var after := Announcements(cfg, dn(user), a.login, a.exit, row);
    assert a.exit != Uncaught;
    var x := ExecuteSpec(cfg, dn, records, vars, gh);
    assert x.effects == before + after;
    TryBlockSendsNothing(nick, gh);
    AnnouncementsPostOnce(cfg, dn(user), a.login, a.exit, row);
    CountWhereAppend([SavedRecord(row)], a.effects, IsChannelPost);
    CountWhereAppend(before, after, IsChannelPost);
    assert x.effects[|x.effects| - 2] == after[|after| - 2];
    assert x.effects[|x.effects| - 1] == after[|after| - 1];
    assert task !in before;
    assert multiset(x.effects) == multiset(before) + multiset(after);
  }

  lemma ConcatAssoc(a: string, b: string, c: string)
    ensures a + (b + c) == a + b + c
  {
  }

  /** The channel announcement spelled out. */
  lemma ChannelPostText(to: string, login: Option<string>, row: Row)
    ensures ChannelPost(to, login, row) ==
              to + " - " + StringOf(login) + "\n"
              + "Answer on questions : \n" + "1. " + StringOf(row.firstAnswer)
              + ";\n" + "2. " + StringOf(row.secondAnswer)
              + ";\n" + "3. " + StringOf(row.thirdAnswer) + "."
  {
    var x := to + " - " + StringOf(login) + "\n";
    var p1 := "Answer on questions : \n";
    var p2 := p1 + "1. ";
    var p3 := p2 + StringOf(row.firstAnswer);
    var p4 := p3 + ";\n";
    var p5 := p4 + "2. ";
    var p6 := p5 + StringOf(row.secondAnswer);
    var p7 := p6 + ";\n";
    var p8 := p7 + "3. ";
    var p9 := p8 + StringOf(row.thirdAnswer);
    ConcatAssoc(x, p9, ".");
    ConcatAssoc(x, p8, StringOf(row.thirdAnswer));
    ConcatAssoc(x, p7, "3. ");
    ConcatAssoc(x, p6, ";\n");
    ConcatAssoc(x, p5, StringOf(row.secondAnswer));
    ConcatAssoc(x, p4, "2. ");
    ConcatAssoc(x, p3, ";\n");
    ConcatAssoc(x, p2, StringOf(row.firstAnswer));
    ConcatAssoc(x, p1, "1. ");
  }

  /** The channel announcement: display name, " - ", the looked-up login (or
      "null" when the lookup threw), then the three stored answers as a
      numbered list. */
  lemma ChannelPostLayout(cfg: ActionConfig, dn: string -> string, records: map<string, Row>,
                          vars: map<string, Value>, gh: GitHubReplies, user: string, nick: string)
    requires Binds(records, vars, user, nick)
    requires !NoTraineesTeam(gh)
    ensures var x := ExecuteSpec(cfg, dn, records, vars, gh);
            var r := records[user];
            && |x.effects| >= 2
            && x.effects[|x.effects| - 2] == ChannelMessage(cfg.channel,
                 dn(user) + " - " + StringOf(gh.lookup) + "\n"
                 + "Answer on questions : \n" + "1. " + StringOf(r.firstAnswer)
                 + ";\n" + "2. " + StringOf(r.secondAnswer)
                 + ";\n" + "3. " + StringOf(r.thirdAnswer) + ".")
  {
    var x := ExecuteSpec(cfg, dn, records, vars, gh);
    var a := TryAddToTrainees(nick, gh);
    var row := records[user].(gitName := Some(nick));
    assert a.login == gh.lookup;
    var after := Announcements(cfg, dn(user), a.login, a.exit, row);
    assert x.effects == [SavedRecord(row)] + a.effects + after;
    assert x.effects[|x.effects| - 2] == after[|after| - 2];
    ChannelPostText(dn(user), a.login, row);
  }

  /** A completed execution records the nick as the `gitNick` variable and
      touches no other variable; an aborted one leaves the variables alone. */
  lemma RecordsGitNick(cfg: ActionConfig, dn: string -> string, records: map<string, Row>,
                       vars: map<string, Value>, gh: GitHubReplies)
    ensures var x := ExecuteSpec(cfg, dn, records, vars, gh);
            && (x.result == Completed ==>
                  IsVerification(vars["dataPayload"]) && x.vars == vars["gitNick" := Str(vars["dataPayload"].payload.gitNick)])
            && (x.result.Aborted? ==> x.vars == vars)
  {
  }

  /** Failures the handler does not catch end the action: a missing or
      mistyped payload and a missing record before anything is done; a
      missing "trainees" team after the save, the lookup and the team
      listing, before any message is sent. */
  lemma UncaughtFailuresAbort(cfg: ActionConfig, dn: string -> string, records: map<string, Row>,
                              vars: map<string, Value>, gh: GitHubReplies)
    ensures "dataPayload" !in vars ==>
              ExecuteSpec(cfg, dn, records, vars, gh) == Execution(records, [], vars, Aborted(NullPointer))
    ensures "dataPayload" in vars && !IsVerification(vars["dataPayload"]) ==>
              ExecuteSpec(cfg, dn, records, vars, gh) == Execution(records, [], vars, Aborted(ClassCast))
    ensures "dataPayload" in vars && IsVerification(vars["dataPayload"]) && vars["dataPayload"].payload.id !in records ==>
              ExecuteSpec(cfg, dn, records, vars, gh) == Execution(records, [], vars, Aborted(NoSuchElement))
    ensures "dataPayload" in vars && IsVerification(vars["dataPayload"]) && vars["dataPayload"].payload.id in records
            && NoTraineesTeam(gh) ==>
              var p := vars["dataPayload"].payload;
              var row := records[p.id].(gitName := Some(p.gitNick));
              ExecuteSpec(cfg, dn, records, vars, gh) ==
                Execution(records[p.id := row], [SavedRecord(row), LookedUpUser(p.gitNick), ListedTeams], vars, Aborted(NoSuchElement))
  {
  }

  /** The action does not check that the nick is free: binding a nick that
      another trainee's record already holds leaves two records with it. */
  lemma BindingDoesNotCheckUniqueness(cfg: ActionConfig, dn: string -> string, records: map<string, Row>,
                                      vars: map<string, Value>, gh: GitHubReplies,
                                      user: string, nick: string, other: string)
    requires Binds(records, vars, user, nick)
    requires other != user && other in records && records[other].gitName == Some(nick)
    ensures var x := ExecuteSpec(cfg, dn, records, vars, gh);
            x.records[user].gitName == Some(nick) && x.records[other].gitName == Some(nick)
  {
  }
}
