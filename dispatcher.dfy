/** The conversation dispatcher: from the restored machine's state and
    variables and the trainee's free text, either an event with the payload
    to stash before firing it, or a single private reply, or the exception
    the request ends with. */
module Dispatcher {
  import opened Types
  import opened JavaText

  /** The two fixed replies: `DEFAULT_MESSAGE` and `NOT_THAT_MESSAGE`. */
  datatype Reply = DefaultMessage | NotThatMessage

  datatype Decision =
    | Fire(event: Event, payload: Payload)
    | Answer(reply: Reply)
    | Throw(failure: Failure)

  /** The cast `(VerificationPayload) vars.get("dataPayload")`: None is a
      null reference (nothing stored), and a stored value of another class
      does not survive the cast. */
  function StoredVerification(vars: map<string, Value>): Outcome<Option<Payload>>
  {
    if "dataPayload" !in vars then Returned(None)
    else
      var v := vars["dataPayload"];
      if IsVerification(v) then Returned(Some(v.payload)) else Threw(ClassCast)
  }

  /** The dispatch for text `text` from `userId`, on a machine in state
      `state` holding variables `vars`. Reading the `id` variable comes
      first and throws when it is absent. */
  function Decide(state: State, vars: map<string, Value>, text: string, userId: string): Decision
  {
    if "id" !in vars then Throw(NullPointer)
    else
      var userForQuestion := TextOf(vars["id"]);
      match state
      case NewUser =>
        if EqualsIgnoreCase(text, "ready") then Fire(QuestionFirst, SinglePayload(userId))
        else Answer(NotThatMessage)
      case FirstQuestion => Fire(QuestionSecond, QuestionPayload(userId, text, userForQuestion))
      case SecondQuestion => Fire(QuestionThird, QuestionPayload(userId, text, userForQuestion))
      case ThirdQuestion => Fire(ConsentToInformation, QuestionPayload(userId, text, userForQuestion))
      case AgreedLicense => Fire(LoginConfirmation, VerificationPayload(userId, text))
      case CheckLogin => (
        match StoredVerification(vars)
        case Threw(f) => Throw(f)
        case Returned(stored) =>
          var event :=
            if EqualsIgnoreCase(text, "yes") then Some(AddGitNameAndFirstTask)
            else if EqualsIgnoreCase(text, "no") then Some(DidNotPassVerificationGitLogin)
            else None;
          if event.None? then Answer(NotThatMessage)
          // storing a null payload in the machine's concurrent map throws
          else if stored.None? then Throw(NullPointer)
          else Fire(event.value, stored.value))
      case _ => Answer(DefaultMessage)
  }

  /** In `NEW_USER`, "ready" in any letter case starts the questions with a
      payload naming the sender; any other text gets `NOT_THAT_MESSAGE`. */
  lemma NewUserDispatch(vars: map<string, Value>, text: string, userId: string)
    requires "id" in vars
    ensures Decide(NewUser, vars, text, userId) == Fire(QuestionFirst, SinglePayload(userId)) <==> Lower(text) == "ready"
    ensures Lower(text) != "ready" ==> Decide(NewUser, vars, text, userId) == Answer(NotThatMessage)
  {
    EqualsIgnoreCaseLiteral(text, "ready");
  }

  /** The event that answers a question state. */
  function NextQuestionEvent(state: State): Event
    requires state in {FirstQuestion, SecondQuestion, ThirdQuestion}
  {
    match state
    case FirstQuestion => QuestionSecond
    case SecondQuestion => QuestionThird
    case ThirdQuestion => ConsentToInformation
  }

  /** In each question state any text, the empty text included, is the
      answer: it fires that state's event with the text verbatim and the
      stored `id` variable as the user the question is about. */
  lemma QuestionDispatch(state: State, vars: map<string, Value>, text: string, userId: string)
    requires state in {FirstQuestion, SecondQuestion, ThirdQuestion}
    requires "id" in vars
    ensures Decide(state, vars, text, userId) ==
              Fire(NextQuestionEvent(state), QuestionPayload(userId, text, TextOf(vars["id"])))
  {
  }

  /** In `AGREED_LICENSE` the text, unchanged, is the git nick to verify. */
  lemma AgreedLicenseDispatch(vars: map<string, Value>, text: string, userId: string)
    requires "id" in vars
    ensures Decide(AgreedLicense, vars, text, userId) == Fire(LoginConfirmation, VerificationPayload(userId, text))
  {
  }

  /** In `CHECK_LOGIN` with a stored verification payload: "yes" confirms and
      "no" rejects (any letter case), both re-using the stored payload rather
      than a new one; any other text gets `NOT_THAT_MESSAGE`. */
  lemma CheckLoginDispatch(vars: map<string, Value>, text: string, userId: string, stored: Payload)
    requires "id" in vars
    requires "dataPayload" in vars && vars["dataPayload"] == Data(stored) && stored.VerificationPayload?
    ensures Decide(CheckLogin, vars, text, userId) == Fire(AddGitNameAndFirstTask, stored) <==> Lower(text) == "yes"
    ensures Decide(CheckLogin, vars, text, userId) == Fire(DidNotPassVerificationGitLogin, stored) <==> Lower(text) == "no"
    ensures Decide(CheckLogin, vars, text, userId) == Answer(NotThatMessage) <==> Lower(text) != "yes" && Lower(text) != "no"
  {
    EqualsIgnoreCaseLiteral(text, "yes");
    EqualsIgnoreCaseLiteral(text, "no");
  }

  /** In `CHECK_LOGIN` the stored payload is cast before the text is looked
      at: a stored value of another class throws whatever the text; with
      nothing stored, "yes" and "no" throw and other text is answered. */
  lemma CheckLoginWithoutVerificationPayload(vars: map<string, Value>, text: string, userId: string)
    requires "id" in vars
    ensures "dataPayload" in vars && !(vars["dataPayload"].Data? && vars["dataPayload"].payload.VerificationPayload?) ==>
              Decide(CheckLogin, vars, text, userId) == Throw(ClassCast)
    ensures "dataPayload" !in vars ==>
              Decide(CheckLogin, vars, text, userId) ==
                if Lower(text) == "yes" || Lower(text) == "no" then Throw(NullPointer) else Answer(NotThatMessage)
  {
    EqualsIgnoreCaseLiteral(text, "yes");
    EqualsIgnoreCaseLiteral(text, "no");
  }

  /** Every state without a rule answers `DEFAULT_MESSAGE` and fires nothing. */
  lemma OtherStatesDispatch(state: State, vars: map<string, Value>, text: string, userId: string)
    requires "id" in vars
    requires state !in {NewUser, FirstQuestion, SecondQuestion, ThirdQuestion, AgreedLicense, CheckLogin}
    ensures Decide(state, vars, text, userId) == Answer(DefaultMessage)
  {
  }

  /** Without an `id` variable every message throws, whatever the state. */
  lemma MissingIdThrows(state: State, vars: map<string, Value>, text: string, userId: string)
    requires "id" !in vars
    ensures Decide(state, vars, text, userId) == Throw(NullPointer)
  {
  }

  /** A fired payload belongs to the sender, except in `CHECK_LOGIN` where it
      is the payload stored by the previous step. */
  lemma FiredPayloadOwner(state: State, vars: map<string, Value>, text: string, userId: string)
    ensures Decide(state, vars, text, userId).Fire? && state != CheckLogin ==>
              Decide(state, vars, text, userId).payload.id == userId
    ensures Decide(state, vars, text, userId).Fire? && state == CheckLogin ==>
              "dataPayload" in vars && vars["dataPayload"] == Data(Decide(state, vars, text, userId).payload)
  {
  }
}
