/** The objects the service and the bound action are wired to: the in-memory
    state machine, and the collaborators whose state outlives a request (the
    repository of trainee records, the persister's stored snapshots, and the
    outgoing calls to the chat and code-hosting clients, kept in order). */
module Runtime {
  import opened Types
  import opened Entity

  /** One outgoing call, in the order it was made. */
  datatype Effect =
    | SavedRecord(row: Row)                      // repository save
    | LookedUpUser(login: string)                // GitHub user lookup by login
    | ListedTeams                                // the repository's team listing
    | AddedToTeam(team: nat, login: string)      // GitHub team membership add that succeeded
    | TeamAddFailed(team: nat, login: string)    // GitHub team membership add that threw IOException
    | PrivateMessage(to: string, text: string)   // private text message
    | BlocksMessage(to: string, block: Block)    // private structured message
    | ChannelMessage(channel: string, text: string)
    | ErrorActionRan                             // the transition's error action was invoked

  /** Everything a request can change outside the in-memory machine. */
  datatype Sys = Sys(records: map<string, Row>, snapshots: map<string, Snapshot>, log: seq<Effect>)

  /** Rows are stored under their own primary key. */
  ghost predicate KeyedByUserID(records: map<string, Row>)
  {
    forall id :: id in records ==> records[id].userID == Some(id)
  }

  /** A running machine: its current state and its extended variables. */
  class Machine {
    var state: State
    var vars: map<string, Value>

    function Current(): Snapshot
      reads this
    {
      Snapshot(state, vars)
    }

    /** A machine restored from a persisted snapshot. */
    constructor Restore(s: Snapshot)
      ensures Current() == s
    {
      state, vars := s.state, s.vars;
    }

    /** A machine as the factory builds it: the initial state, no variables. */
    constructor Start(initial: State)
      ensures Current() == Snapshot(initial, map[])
    {
      state, vars := initial, map[];
    }
  }

  class Backend {
    /** The trainee repository, keyed by user id. */
    var records: map<string, Row>
    /** What the machine persister has stored, keyed by the id it was persisted under. */
    var snapshots: map<string, Snapshot>
    /** Calls on the message service and the GitHub clients, oldest first. */
    var log: seq<Effect>
    /** The message service's user lookup: the chat display name of an id. */
    const displayName: string -> string

    ghost predicate Valid()
      reads this
    {
      KeyedByUserID(records)
    }

    function Contents(): Sys
      reads this
    {
      Sys(records, snapshots, log)
    }

    constructor (displayName: string -> string)
      ensures Valid() && Contents() == Sys(map[], map[], []) && this.displayName == displayName
    {
      records, snapshots, log := map[], map[], [];
      this.displayName := displayName;
    }

    /** `findByUserID(id)`: a fresh entity holding the stored row, or null. */
    method FindByUserID(id: string) returns (e: StateEntity?)
      ensures e == null <==> id !in records
      ensures e != null ==> fresh(e) && e.AsRow() == records[id]
    {
      if id in records {
        e := new StateEntity.Load(records[id]);
      } else {
        e := null;
      }
    }

    /** `save(e)`: writes the entity's row under its key. */
    method Save(e: StateEntity)
      requires Valid() && e.userID.Some?
      modifies this`records, this`log
      ensures Valid()
      ensures records == old(records)[e.userID.value := e.AsRow()]
      ensures log == old(log) + [SavedRecord(e.AsRow())]
    {
      records := records[e.userID.value := e.AsRow()];
      log := log + [SavedRecord(e.AsRow())];
    }

    /** The persister's `persist(machine, id)`. */
    method Persist(m: Machine, id: string)
      modifies this`snapshots
      ensures snapshots == old(snapshots)[id := m.Current()]
    {
      snapshots := snapshots[id := m.Current()];
    }

    /** Appends one outgoing call to the log. */
    method Send(call: Effect)
      modifies this`log
      ensures log == old(log) + [call]
    {
      log := log + [call];
    }
  }
}
