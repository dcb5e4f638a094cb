/** What the service promises across its operations: which requests change
    what, where a fired machine is persisted, and the conversation from the
    git-login prompt to the first task. */
module ServiceFacts {
  import opened Types
  import opened JavaText
  import opened Entity
  import opened Runtime
  import opened AddGitName
  import opened Dispatcher
  import opened Service

  /** The git-name action and its error action run only on the bound edge,
      which always enters `GOT_THE_TASK`, even when the action throws. The
      other edges are modelled with no action, so firing them changes no
      record, makes no call and keeps the variables. */
  lemma ActionRunsOnlyOnBoundEdge(st: Settings, records: map<string, Row>, m: Snapshot, e: Event, gh: GitHubReplies)
    ensures var f := SendEventSpec(st, records, m, e, gh);
            !IsBound(m.state, e) ==> f.records == records && f.effects == [] && f.machine.vars == m.vars
    ensures IsBound(m.state, e) ==> SendEventSpec(st, records, m, e, gh).machine.state == GotTheTask
  {
  }

  /** An event no transition accepts changes nothing, yet the payload-taking
      `doAction` still stores the stashed payload under the payload's id. */
  lemma UnmatchedEventStillPersists(st: Settings, sys: Sys, m: Snapshot, p: Payload, e: Event, gh: GitHubReplies)
    requires Target(st.edges, m.state, e).None?
    ensures var s' := FireWithPayload(st, sys, m, p, e, gh);
            && s'.records == sys.records
            && s'.log == sys.log
            && s'.snapshots == sys.snapshots[p.id := Snapshot(m.state, m.vars["dataPayload" := Data(p)])]
  {
  }

  /** The action keeps every variable it was given; it adds at most `gitNick`. */
  lemma ExecuteKeepsVars(cfg: ActionConfig, dn: string -> string, records: map<string, Row>,
                         vars: map<string, Value>, gh: GitHubReplies)
    ensures var x := ExecuteSpec(cfg, dn, records, vars, gh);
            forall k :: k in vars ==> k in x.vars && (k != "gitNick" ==> x.vars[k] == vars[k])
  {
  }

  /** A message that is answered sends exactly that answer to its sender and
      changes nothing else: no record, no stored machine. */
  lemma ReplyChangesOnlyLog(st: Settings, sys: Sys, text: string, userId: string, gh: GitHubReplies)
    requires HandleMessage(st, sys, text, userId, gh).1.Returned?
    requires HandleMessage(st, sys, text, userId, gh).1.value.Replied?
    ensures var (s', r) := HandleMessage(st, sys, text, userId, gh);
            && s'.records == sys.records
            && s'.snapshots == sys.snapshots
            && s'.log == sys.log + [PrivateMessage(st.displayName(userId), ReplyText(st.texts, r.value.reply))]
  {
  }

  /** A message that fails changes nothing at all. */
  lemma FailureChangesNothing(st: Settings, sys: Sys, text: string, userId: string, gh: GitHubReplies)
    ensures HandleMessage(st, sys, text, userId, gh).1.Threw? ==> HandleMessage(st, sys, text, userId, gh).0 == sys
  {
  }

  /** A fired message persists the machine under the fired payload's id, with
      that payload kept as `dataPayload`; every other stored machine stays. */
  lemma FirePersistsUnderPayloadId(st: Settings, sys: Sys, text: string, userId: string, gh: GitHubReplies)
    requires userId in sys.snapshots
    requires Decide(sys.snapshots[userId].state, sys.snapshots[userId].vars, text, userId).Fire?
    ensures var p := Decide(sys.snapshots[userId].state, sys.snapshots[userId].vars, text, userId).payload;
            var s' := HandleMessage(st, sys, text, userId, gh).0;
            && p.id in s'.snapshots
            && "dataPayload" in s'.snapshots[p.id].vars
            && s'.snapshots[p.id].vars["dataPayload"] == Data(p)
            && forall k :: k in sys.snapshots && k != p.id ==> k in s'.snapshots && s'.snapshots[k] == sys.snapshots[k]
  {
    var m := sys.snapshots[userId];
    var d := Decide(m.state, m.vars, text, userId);
    var stashed := m.(vars := m.vars["dataPayload" := Data(d.payload)]);
    ExecuteKeepsVars(st.action, st.displayName, sys.records, stashed.vars, gh);
  }

  /** The state-guarded `doAction` fires and persists exactly when the
      stored machine is in the given state; otherwise nothing changes. */
  lemma GuardedFiresIffStateMatches(st: Settings, sys: Sys, userId: string, state: State, e: Event, gh: GitHubReplies)
    requires userId in sys.snapshots
    ensures FireIfInState(st, sys, userId, state, e, gh).1 == Returned(true) <==> sys.snapshots[userId].state == state
    ensures FireIfInState(st, sys, userId, state, e, gh).1 == Returned(false) ==> FireIfInState(st, sys, userId, state, e, gh).0 == sys
    ensures sys.snapshots[userId].state == state ==>
              FireIfInState(st, sys, userId, state, e, gh).0.snapshots[userId] ==
                SendEventSpec(st, sys.records, sys.snapshots[userId], e, gh).machine
  {
  }

  /** Every operation keeps the records stored under their own ids. */
  lemma HandleKeepsRecordsKeyed(st: Settings, sys: Sys, text: string, userId: string, gh: GitHubReplies)
    requires KeyedByUserID(sys.records)
    ensures KeyedByUserID(HandleMessage(st, sys, text, userId, gh).0.records)
  {
    if userId in sys.snapshots {
      var m := sys.snapshots[userId];
      var d := Decide(m.state, m.vars, text, userId);
      if d.Fire? {
        var stashed := m.(vars := m.vars["dataPayload" := Data(d.payload)]);
        ExecuteKeepsKeys(st.action, st.displayName, sys.records, stashed.vars, gh);
      }
    }
  }

  lemma ExecuteKeepsKeys(cfg: ActionConfig, dn: string -> string, records: map<string, Row>,
                         vars: map<string, Value>, gh: GitHubReplies)
    requires KeyedByUserID(records)
    ensures KeyedByUserID(ExecuteSpec(cfg, dn, records, vars, gh).records)
    ensures ExecuteSpec(cfg, dn, records, vars, gh).records.Keys == records.Keys
  {
  }

  /** A reset stores a record holding only the id, so any git name bound to
      that trainee is unbound; other trainees keep theirs. */
  lemma ResetUnbindsGitName(st: Settings, sys: Sys, id: string, nick: string)
    ensures IdsWithGitName(Reset(st, sys, id).records, nick) == IdsWithGitName(sys.records, nick) - {id}
    ensures KeyedByUserID(sys.records) ==> KeyedByUserID(Reset(st, sys, id).records)
  {
  }

  /** A reset leaves the trainee's machine in the initial state, with its
      variables and nothing stashed, after welcoming them and sending the
      rules, in that order. */
  lemma ResetStartsOver(st: Settings, sys: Sys, id: string)
    ensures var s' := Reset(st, sys, id);
            && s'.snapshots[id] == Snapshot(st.initial, InitialVars(id))
            && "dataPayload" !in s'.snapshots[id].vars
            && s'.log[|s'.log| - 2..] == [PrivateMessage(st.displayName(id), st.texts.welcome),
                                         BlocksMessage(st.displayName(id), st.texts.rules)]
            && s'.log[..|sys.log|] == sys.log
  {
  }

  /** After a reset into `NEW_USER`, "ready" in any letter case starts the
      questions; any other text gets `NOT_THAT_MESSAGE`. */
  lemma ResetThenReady(st: Settings, sys: Sys, id: string, text: string, gh: GitHubReplies)
    requires st.initial == NewUser
    ensures var r := HandleMessage(st, Reset(st, sys, id), text, id, gh).1;
            && (r == Returned(FiredEvent(QuestionFirst)) <==> Lower(text) == "ready")
            && (Lower(text) != "ready" ==> r == Returned(Replied(NotThatMessage)))
  {
    var s' := Reset(st, sys, id);
    NewUserDispatch(s'.snapshots[id].vars, text, id);
  }

  /** Once the task is given, a repeated "yes" (or anything else) only gets
      `DEFAULT_MESSAGE`: the action does not run twice. */
  lemma RedeliveredConfirmationIsIgnored(st: Settings, sys: Sys, text: string, userId: string, gh: GitHubReplies)
    requires userId in sys.snapshots && sys.snapshots[userId].state == GotTheTask
    requires "id" in sys.snapshots[userId].vars
    ensures HandleMessage(st, sys, text, userId, gh) ==
              (sys.(log := sys.log + [PrivateMessage(st.displayName(userId), st.texts.defaultMessage)]),
               Returned(Replied(DefaultMessage)))
  {
    OtherStatesDispatch(GotTheTask, sys.snapshots[userId].vars, text, userId);
  }

  /** The sequence the bot asks for: in `AGREED_LICENSE` the trainee sends
      a git nick; with the edge to `CHECK_LOGIN` configured, a following
      "yes" binds that nick to the trainee's record and gives the task. When
      no other record held the nick, it then resolves back to the trainee,
      and restoring by the nick yields the trainee's machine. */
  lemma NickThenYesBindsNick(st: Settings, sys: Sys, u: string, nick: string, yes: string, gh: GitHubReplies)
    requires st.edges(AgreedLicense, LoginConfirmation) == Some(CheckLogin)
    requires u in sys.snapshots && sys.snapshots[u].state == AgreedLicense && "id" in sys.snapshots[u].vars
    requires u in sys.records
    requires Lower(yes) == "yes"
    ensures var s1 := HandleMessage(st, sys, nick, u, gh).0;
            var (s2, r) := HandleMessage(st, s1, yes, u, gh);
            && r == Returned(FiredEvent(AddGitNameAndFirstTask))
            && u in s2.records && s2.records[u].gitName == Some(nick)
            && u in s2.snapshots && s2.snapshots[u].state == GotTheTask
            && (IdsWithGitName(sys.records, nick) <= {u} ==> IdsWithGitName(s2.records, nick) == {u})
            && (IdsWithGitName(sys.records, nick) <= {u} ==> MachineByNick(s2, nick) == Returned(s2.snapshots[u]))
  {
    var m0 := sys.snapshots[u];
    AgreedLicenseDispatch(m0.vars, nick, u);
    var p := VerificationPayload(u, nick);
    var s1 := HandleMessage(st, sys, nick, u, gh).0;
    assert s1 == FireWithPayload(st, sys, m0, p, LoginConfirmation, gh);
    var m1 := s1.snapshots[u];
    assert m1 == Snapshot(CheckLogin, m0.vars["dataPayload" := Data(p)]);
    assert s1.records == sys.records;
    CheckLoginDispatch(m1.vars, yes, u, p);
    var s2 := HandleMessage(st, s1, yes, u, gh).0;
    assert s2 == FireWithPayload(st, s1, m1, p, AddGitNameAndFirstTask, gh);
    var x := ExecuteSpec(st.action, st.displayName, s1.records, m1.vars["dataPayload" := Data(p)], gh);
    assert x.records == sys.records[u := sys.records[u].(gitName := Some(nick))];
    if IdsWithGitName(sys.records, nick) <= {u} {
      assert IdsWithGitName(s2.records, nick) == {u};
      assert IdByNick(s2.records, nick) == Returned(u);
    }
  }
}
