/** Value types shared by the onboarding engine: the closed enumerations of
    states and events, the three payload shapes, the extended variables of a
    machine and its persisted snapshot, and Java's 32-bit integers. */
module Types {

  datatype Option<+T> = None | Some(value: T)

  /** Java's `int` (and the value inside a non-null `Integer`). */
  newtype int32 = x: int | -0x8000_0000 <= x < 0x8000_0000

  const TwoTo32: int := 0x1_0000_0000

  /** Two's-complement wrap-around of a mathematical integer into `int`:
      the unique `int` congruent to `x` modulo 2^32. */
  function Wrap32(x: int): (r: int32)
    ensures (r as int - x) % TwoTo32 == 0
    ensures -0x8000_0000 <= x < 0x8000_0000 ==> r as int == x
  {
    var m := x % TwoTo32;
    assert x == TwoTo32 * (x / TwoTo32) + m;
    if m >= 0x8000_0000 then (m - TwoTo32) as int32 else m as int32
  }

  /** The states of the onboarding machine named by the engine and its
      actions; `OtherState` stands for the enumeration's remaining constants. */
  datatype State =
    | NewUser
    | FirstQuestion
    | SecondQuestion
    | ThirdQuestion
    | AgreedLicense
    | CheckLogin
    | GotTheTask
    | OtherState(name: string)

  /** The events the dispatcher and the bound action name; `OtherEvent`
      stands for the enumeration's remaining constants. */
  datatype Event =
    | QuestionFirst
    | QuestionSecond
    | QuestionThird
    | ConsentToInformation
    | LoginConfirmation
    | AddGitNameAndFirstTask
    | DidNotPassVerificationGitLogin
    | OtherEvent(name: string)

  /** Data carried through one transition; every shape answers `getId()`. */
  datatype Payload =
    | SinglePayload(id: string)
    | QuestionPayload(id: string, message: string, user: string)
    | VerificationPayload(id: string, gitNick: string)

  /** A value stored among a machine's extended variables. */
  datatype Value = Str(s: string) | Num(n: int32) | Data(payload: Payload)

  /** Whether a stored value survives the cast to `VerificationPayload`. */
  predicate IsVerification(v: Value)
  {
    v.Data? && v.payload.VerificationPayload?
  }

  /** What the persister stores for one machine: its state and its
      extended variables. */
  datatype Snapshot = Snapshot(state: State, vars: map<string, Value>)

  /** A structured message as built by `createBlockMessage`: the Slack
      rendering and the Discord rendering. */
  datatype Block = Block(slack: string, discord: string)

  /** Exceptions that end a request. */
  datatype Failure =
    | RestoreFailed      // the persister has nothing stored under the id
    | NullPointer        // a missing variable or a null payload is used
    | ClassCast          // the stored payload is not a VerificationPayload
    | NoSuchElement      // Optional.get() on an empty result
    | NonUniqueResult    // a repository query by git name matched several rows

  /** The result of a request: a returned value or the exception it threw. */
  datatype Outcome<+T> = Returned(value: T) | Threw(failure: Failure)
}
