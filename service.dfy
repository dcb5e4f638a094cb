/** The state machine service: restores a trainee's machine from the
    persister, turns an incoming message into an event (through the
    dispatcher) or a reply, fires the event, and persists the machine again.
    Each operation is a method of `StateMachineService` proved against a
    function on the collaborators' contents (`Sys`). */
module Service {
  import opened Types
  import opened JavaText
  import opened Entity
  import opened Runtime
  import opened AddGitName
  import opened Dispatcher

  /** The transitions configured outside this model: the target of an
      event from a state, or None when no transition accepts it. */
  type Edges = (State, Event) -> Option<State>

  /** The texts the service sends: `DEFAULT_MESSAGE`, `NOT_THAT_MESSAGE`,
      `WELCOME` and the rules block message. */
  datatype Texts = Texts(defaultMessage: string, notThatMessage: string, welcome: string, rules: Block)

  /** What a service instance is wired with. */
  datatype Settings = Settings(
    edges: Edges,
    initial: State,
    texts: Texts,
    action: ActionConfig,
    displayName: string -> string)

  function ReplyText(texts: Texts, r: Reply): string
  {
    match r
    case DefaultMessage => texts.defaultMessage
    case NotThatMessage => texts.notThatMessage
  }

  /** Whether `e` from `s` is the edge the git-name action is bound to. */
  predicate IsBound(s: State, e: Event)
  {
    s == BoundEdge.source && e == BoundEdge.event
  }

  /** The configured target: the bound edge's, otherwise the rest of the table. */
  function Target(edges: Edges, s: State, e: Event): Option<State>
  {
    if IsBound(s, e) then Some(BoundEdge.target) else edges(s, e)
  }

  /** The machine after an event, the records and the calls it made. */
  datatype Fired = Fired(machine: Snapshot, records: map<string, Row>, effects: seq<Effect>)

  /** `sendEvent`: an event no transition accepts leaves the machine as it
      is; the bound edge runs the git-name action (and, when the action
      throws, the error action) before entering its target. The other
      edges' actions are configured outside this model, so here they only
      change the state. */
  function SendEventSpec(st: Settings, records: map<string, Row>, m: Snapshot, e: Event, gh: GitHubReplies): Fired
  {
    match Target(st.edges, m.state, e)
    case None => Fired(m, records, [])
    case Some(t) =>
      if IsBound(m.state, e) then
        var x := ExecuteSpec(st.action, st.displayName, records, m.vars, gh);
        Fired(Snapshot(t, x.vars), x.records, x.effects + if x.result.Aborted? then [ErrorActionRan] else [])
      else Fired(Snapshot(t, m.vars), records, [])
  }

  /** `doAction(machine, payload, event)`: stash the payload as
      `dataPayload`, fire the event, persist under the payload's id. */
  function FireWithPayload(st: Settings, sys: Sys, m: Snapshot, p: Payload, e: Event, gh: GitHubReplies): Sys
  {
    var f := SendEventSpec(st, sys.records, m.(vars := m.vars["dataPayload" := Data(p)]), e, gh);
    Sys(f.records, sys.snapshots[p.id := f.machine], sys.log + f.effects)
  }

  datatype Handled = Replied(reply: Reply) | FiredEvent(event: Event)

  /** `doAction(messageFromUser, userId)`. */
  function HandleMessage(st: Settings, sys: Sys, text: string, userId: string, gh: GitHubReplies): (Sys, Outcome<Handled>)
  {
    if userId !in sys.snapshots then (sys, Threw(RestoreFailed))
    else
      var m := sys.snapshots[userId];
      match Decide(m.state, m.vars, text, userId)
      case Throw(f) => (sys, Threw(f))
      case Answer(r) =>
        (sys.(log := sys.log + [PrivateMessage(st.displayName(userId), ReplyText(st.texts, r))]), Returned(Replied(r)))
      case Fire(e, p) => (FireWithPayload(st, sys, m, p, e, gh), Returned(FiredEvent(e)))
  }

  /** `doAction(userId, state, event)`: fire and persist only when the
      restored machine is in `state`. */
  function FireIfInState(st: Settings, sys: Sys, userId: string, state: State, e: Event, gh: GitHubReplies): (Sys, Outcome<bool>)
  {
    if userId !in sys.snapshots then (sys, Threw(RestoreFailed))
    else
      var m := sys.snapshots[userId];
      if m.state == state then
        var f := SendEventSpec(st, sys.records, m, e, gh);
        (Sys(f.records, sys.snapshots[userId := f.machine], sys.log + f.effects), Returned(true))
      else (sys, Returned(false))
  }

  /** The extended variables of a new user's machine. */
  function InitialVars(id: string): map<string, Value>
  {
    map["id" := Str(id), "taskNumber" := Num(1), "mentor" := Str("NO_MENTOR")]
  }

  /** `persistMachineForNewUser(id)`. */
  function PersistForNewUser(st: Settings, sys: Sys, id: string): Sys
  {
    sys.(snapshots := sys.snapshots[id := Snapshot(st.initial, InitialVars(id))])
  }

  /** `resetUser(userId)`: save a record holding only the id, start a new
      machine, then welcome the trainee and send the rules. */
  function Reset(st: Settings, sys: Sys, id: string): Sys
  {
    var row := EmptyRow.(userID := Some(id));
    var saved := sys.(records := sys.records[id := row], log := sys.log + [SavedRecord(row)]);
    var started := PersistForNewUser(st, saved, id);
    started.(log := started.log + [PrivateMessage(st.displayName(id), st.texts.welcome),
                                   BlocksMessage(st.displayName(id), st.texts.rules)])
  }

  /** The ids of the records whose git name is `nick`. */
  function IdsWithGitName(records: map<string, Row>, nick: string): set<string>
  {
    set id | id in records && records[id].gitName == Some(nick)
  }

  lemma SingletonIs(s: set<string>, a: string)
    requires |s| == 1 && a in s
    ensures s == {a}
  {
    var rest := s - {a};
    assert |rest| == 0;
    forall b | b in s ensures b == a {
      assert b !in rest;
    }
  }

  /** `findByGitName(nick).get().getUserID()`: the id of the one record
      holding the nick; none, or several, is an exception. */
  ghost function IdByNick(records: map<string, Row>, nick: string): (r: Outcome<string>)
    ensures r.Returned? ==> IdsWithGitName(records, nick) == {r.value}
  {
    var ids := IdsWithGitName(records, nick);
    if ids == {} then Threw(NoSuchElement)
    else if |ids| > 1 then Threw(NonUniqueResult)
    else
      var id :| id in ids;
      SingletonIs(ids, id);
      Returned(id)
  }

  /** The machine persisted for the trainee holding the nick. */
  ghost function MachineByNick(sys: Sys, nick: string): Outcome<Snapshot>
  {
    match IdByNick(sys.records, nick)
    case Threw(f) => Threw(f)
    case Returned(id) => if id in sys.snapshots then Returned(sys.snapshots[id]) else Threw(RestoreFailed)
  }

  class StateMachineService {
    const backend: Backend
    const addGitName: AddGitNameActionTransition
    const edges: Edges
    const initial: State
    const texts: Texts

    ghost predicate Valid()
      reads backend
    {
      addGitName.backend == backend && backend.Valid()
    }

    function Wiring(): Settings
    {
      Settings(edges, initial, texts, addGitName.Config(), backend.displayName)
    }

    constructor (backend: Backend, addGitName: AddGitNameActionTransition, edges: Edges, initial: State, texts: Texts)
      requires addGitName.backend == backend && backend.Valid()
      ensures Valid()
      ensures this.backend == backend && this.addGitName == addGitName
      ensures Wiring() == Settings(edges, initial, texts, addGitName.Config(), backend.displayName)
    {
      this.backend, this.addGitName := backend, addGitName;
      this.edges, this.initial, this.texts := edges, initial, texts;
    }

    /** `restoreMachine(id)`: null stands for the exception thrown when
        nothing is stored under the id. */
    method RestoreMachine(id: string) returns (m: Machine?)
      ensures m == null <==> id !in backend.snapshots
      ensures m != null ==> fresh(m) && m.Current() == backend.snapshots[id]
    {
      if id !in backend.snapshots {
        return null;
      }
      m := new Machine.Restore(backend.snapshots[id]);
    }

    /** `persistMachine(machine, id)`. */
    method PersistMachine(m: Machine, id: string)
      modifies backend`snapshots
      ensures backend.snapshots == old(backend.snapshots)[id := m.Current()]
    {
      backend.Persist(m, id);
    }

    /** The machine's `sendEvent`, with the action of the bound edge. */
    method SendEvent(m: Machine, e: Event, gh: GitHubReplies)
      requires Valid()
      modifies m, backend`records, backend`log
      ensures Valid()
      ensures var f := SendEventSpec(Wiring(), old(backend.records), old(m.Current()), e, gh);
              && m.Current() == f.machine
              && backend.records == f.records
              && backend.log == old(backend.log) + f.effects
    {
      var t := Target(edges, m.state, e);
      if t.None? {
        return;
      }
      if IsBound(m.state, e) {
        var result := addGitName.Execute(m, gh);
        if result.Aborted? {
          backend.Send(ErrorActionRan);
        }
      }
      m.state := t.value;
    }

    /** `doAction(machine, payload, event)`. */
    method DoActionWithPayload(m: Machine, p: Payload, e: Event, gh: GitHubReplies)
      requires Valid()
      modifies m, backend`records, backend`log, backend`snapshots
      ensures Valid()
      ensures backend.Contents() == FireWithPayload(Wiring(), old(backend.Contents()), old(m.Current()), p, e, gh)
      ensures p.id in backend.snapshots && m.Current() == backend.snapshots[p.id]
    {
      m.vars := m.vars["dataPayload" := Data(p)];
      SendEvent(m, e, gh);
      PersistMachine(m, p.id);
    }

    /** `doAction(userId, state, event)`. */
    method DoActionIfInState(userId: string, state: State, e: Event, gh: GitHubReplies) returns (r: Outcome<bool>)
      requires Valid()
      modifies backend`records, backend`log, backend`snapshots
      ensures Valid()
      ensures (backend.Contents(), r) == FireIfInState(Wiring(), old(backend.Contents()), userId, state, e, gh)
    {
      var m := RestoreMachine(userId);
      if m == null {
        return Threw(RestoreFailed);
      }
      if m.state == state {
        SendEvent(m, e, gh);
        backend.Persist(m, userId);
        return Returned(true);
      }
      return Returned(false);
    }

    /** `doAction(messageFromUser, userId)`. */
    method DoAction(text: string, userId: string, gh: GitHubReplies) returns (r: Outcome<Handled>)
      requires Valid()
      modifies backend`records, backend`log, backend`snapshots
      ensures Valid()
      ensures (backend.Contents(), r) == HandleMessage(Wiring(), old(backend.Contents()), text, userId, gh)
    {
      var m := RestoreMachine(userId);
      if m == null {
        return Threw(RestoreFailed);
      }
      var decision := Decide(m.state, m.vars, text, userId);
      match decision {
        case Throw(f) =>
          return Threw(f);
        case Answer(reply) =>
          backend.Send(PrivateMessage(backend.displayName(userId), ReplyText(texts, reply)));
          return Returned(Replied(reply));
        case Fire(e, p) =>
          DoActionWithPayload(m, p, e, gh);
          return Returned(FiredEvent(e));
      }
    }

    /** `persistMachineForNewUser(id)`. */
    method PersistMachineForNewUser(id: string)
      modifies backend`snapshots
      ensures backend.Contents() == PersistForNewUser(Wiring(), old(backend.Contents()), id)
    {
      var m := new Machine.Start(initial);
      m.vars := m.vars["id" := Str(id)];
      m.vars := m.vars["taskNumber" := Num(1)];
      m.vars := m.vars["mentor" := Str("NO_MENTOR")];
      backend.Persist(m, id);
    }

    /** `resetUser(userId)`. */
    method ResetUser(userId: string)
      requires Valid()
      modifies backend`records, backend`log, backend`snapshots
      ensures Valid()
      ensures backend.Contents() == Reset(Wiring(), old(backend.Contents()), userId)
    {
      var stateEntity := new StateEntity();
      stateEntity.SetUserID(Some(userId));
      backend.Save(stateEntity);
      PersistMachineForNewUser(userId);
      var user := backend.displayName(userId);
      backend.Send(PrivateMessage(user, texts.welcome));
      backend.Send(BlocksMessage(user, texts.rules));
    }

    /** `getIdByNick(nick)`: the id of the one record whose git name is
        `nick`; no such record, or several, is an exception. */
    method GetIdByNick(nick: string) returns (r: Outcome<string>)
      requires Valid()
      ensures r == Threw(NoSuchElement) <==> IdsWithGitName(backend.records, nick) == {}
      ensures r == Threw(NonUniqueResult) <==> |IdsWithGitName(backend.records, nick)| > 1
      ensures r.Returned? ==> IdsWithGitName(backend.records, nick) == {r.value}
      ensures r.Threw? ==> r.failure in {NoSuchElement, NonUniqueResult}
      ensures r == IdByNick(backend.records, nick)
    {
      var ids := set id | id in backend.records && backend.records[id].gitName == Some(nick);
      assert ids == IdsWithGitName(backend.records, nick);
      if ids == {} {
        return Threw(NoSuchElement);
      }
      if |ids| > 1 {
        return Threw(NonUniqueResult);
      }
      var id :| id in ids;
      SingletonIs(ids, id);
      return Returned(backend.records[id].userID.value);
    }

    /** `restoreMachineByNick(nick)`: the machine of the record whose git
        name is `nick`. */
    method RestoreMachineByNick(nick: string) returns (m: Machine?, failure: Option<Failure>)
      requires Valid()
      ensures failure.None? <==> m != null
      ensures m != null ==> MachineByNick(backend.Contents(), nick) == Returned(m.Current())
      ensures failure.Some? ==> MachineByNick(backend.Contents(), nick) == Threw(failure.value)
      ensures m != null ==> exists id :: IdsWithGitName(backend.records, nick) == {id}
                                         && id in backend.snapshots && m.Current() == backend.snapshots[id]
      ensures m != null ==> fresh(m)
      ensures failure == Some(NoSuchElement) <==> IdsWithGitName(backend.records, nick) == {}
      ensures failure == Some(NonUniqueResult) <==> |IdsWithGitName(backend.records, nick)| > 1
      ensures (exists id :: IdsWithGitName(backend.records, nick) == {id} && id in backend.snapshots) ==> m != null
      ensures failure == Some(RestoreFailed) <==>
                exists id :: IdsWithGitName(backend.records, nick) == {id} && id !in backend.snapshots
    {
      var found := GetIdByNick(nick);
      if found.Threw? {
        return null, Some(found.failure);
      }
      m := RestoreMachine(found.value);
      if m == null {
        return null, Some(RestoreFailed);
      }
      return m, None;
    }
  }
}
