/** The trainee record: a row of the `state_entity` table, and the mutable
    entity object whose setters change one column each. The record also
    carries the three stored answers about the rules that the service's
    user type exposes. Java `null` is `None`. */
module Entity {
  import opened Types

  /** The persisted columns of one trainee record. */
  datatype Row = Row(
    userID: Option<string>,
    gitName: Option<string>,
    stateMachine: Option<Snapshot>,
    pointByTask: Option<int32>,
    karma: Option<int32>,
    firstAnswer: Option<string>,
    secondAnswer: Option<string>,
    thirdAnswer: Option<string>)

  /** The row of an entity built with no arguments: every reference null and
      both counters at their initial value 0. */
  const EmptyRow: Row := Row(None, None, None, Some(0), Some(0), None, None, None)

  class StateEntity {
    var userID: Option<string>
    var gitName: Option<string>
    var stateMachine: Option<Snapshot>
    var pointByTask: Option<int32>
    var karma: Option<int32>
    var firstAnswerAboutRules: Option<string>
    var secondAnswerAboutRules: Option<string>
    var thirdAnswerAboutRules: Option<string>

    /** The entity's columns as a value. */
    function AsRow(): Row
      reads this
    {
      Row(userID, gitName, stateMachine, pointByTask, karma,
          firstAnswerAboutRules, secondAnswerAboutRules, thirdAnswerAboutRules)
    }

    constructor ()
      ensures AsRow() == EmptyRow
      ensures GetTotalPoints() == Returned(0)
    {
      userID, gitName, stateMachine := None, None, None;
      pointByTask, karma := Some(0), Some(0);
      firstAnswerAboutRules, secondAnswerAboutRules, thirdAnswerAboutRules := None, None, None;
    }

    /** Sets the key and the snapshot; everything else keeps its initial value. */
    constructor WithStateMachine(userID: Option<string>, stateMachine: Option<Snapshot>)
      ensures AsRow() == EmptyRow.(userID := userID, stateMachine := stateMachine)
      ensures GetTotalPoints() == Returned(0)
    {
      this.userID, this.stateMachine := userID, stateMachine;
      gitName := None;
      pointByTask, karma := Some(0), Some(0);
      firstAnswerAboutRules, secondAnswerAboutRules, thirdAnswerAboutRules := None, None, None;
    }

    /** Sets the key and the git name; everything else keeps its initial value. */
    constructor WithGitName(userID: Option<string>, gitName: Option<string>)
      ensures AsRow() == EmptyRow.(userID := userID, gitName := gitName)
      ensures GetTotalPoints() == Returned(0)
    {
      this.userID, this.gitName := userID, gitName;
      stateMachine := None;
      pointByTask, karma := Some(0), Some(0);
      firstAnswerAboutRules, secondAnswerAboutRules, thirdAnswerAboutRules := None, None, None;
    }

    /** An entity holding a stored row, as the repository hands one out. */
    constructor Load(row: Row)
      ensures AsRow() == row
    {
      userID, gitName, stateMachine := row.userID, row.gitName, row.stateMachine;
      pointByTask, karma := row.pointByTask, row.karma;
      firstAnswerAboutRules, secondAnswerAboutRules, thirdAnswerAboutRules :=
        row.firstAnswer, row.secondAnswer, row.thirdAnswer;
    }

    /** `karma + pointByTask` in Java `int` arithmetic: unboxing a null
        counter throws, otherwise the result is the 32-bit sum. */
    function GetTotalPoints(): (r: Outcome<int32>)
      reads this
      ensures r.Returned? <==> karma.Some? && pointByTask.Some?
      ensures r.Threw? ==> r.failure == NullPointer
      ensures r.Returned? ==> (r.value as int - (karma.value as int + pointByTask.value as int)) % TwoTo32 == 0
    {
      if karma.Some? && pointByTask.Some? then Returned(Wrap32(karma.value as int + pointByTask.value as int))
      else Threw(NullPointer)
    }

    function GetUserID(): Option<string> reads this { userID }
    function GetGitName(): Option<string> reads this { gitName }
    function GetStateMachine(): Option<Snapshot> reads this { stateMachine }
    function GetPointByTask(): Option<int32> reads this { pointByTask }
    function GetKarma(): Option<int32> reads this { karma }
    function GetFirstAnswerAboutRules(): Option<string> reads this { firstAnswerAboutRules }
    function GetSecondAnswerAboutRules(): Option<string> reads this { secondAnswerAboutRules }
    function GetThirdAnswerAboutRules(): Option<string> reads this { thirdAnswerAboutRules }

    method SetUserID(v: Option<string>)
      modifies this`userID
      ensures GetUserID() == v
      ensures AsRow() == old(AsRow()).(userID := v)
    {
      userID := v;
    }

    method SetGitName(v: Option<string>)
      modifies this`gitName
      ensures GetGitName() == v
      ensures AsRow() == old(AsRow()).(gitName := v)
    {
      gitName := v;
    }

    method SetStateMachine(v: Option<Snapshot>)
      modifies this`stateMachine
      ensures GetStateMachine() == v
      ensures AsRow() == old(AsRow()).(stateMachine := v)
    {
      stateMachine := v;
    }

    method SetPointByTask(v: Option<int32>)
      modifies this`pointByTask
      ensures GetPointByTask() == v
      ensures AsRow() == old(AsRow()).(pointByTask := v)
    {
      pointByTask := v;
    }

    method SetKarma(v: Option<int32>)
      modifies this`karma
      ensures GetKarma() == v
      ensures AsRow() == old(AsRow()).(karma := v)
    {
      karma := v;
    }
  }

  /** When the sum of the two counters fits in `int`, the total is that sum;
      past `Integer.MAX_VALUE` it wraps to a negative number, and below
      `Integer.MIN_VALUE` to a positive one. */
  lemma TotalPointsExactUnlessOverflow(e: StateEntity)
    requires e.karma.Some? && e.pointByTask.Some?
    ensures var sum := e.karma.value as int + e.pointByTask.value as int;
            e.GetTotalPoints().value as int ==
              if sum >= 0x8000_0000 then sum - TwoTo32
              else if sum < -0x8000_0000 then sum + TwoTo32
              else sum
  {
    var sum := e.karma.value as int + e.pointByTask.value as int;
    var r := e.GetTotalPoints().value as int;
    assert (r - sum) % TwoTo32 == 0;
    var k := (r - sum) / TwoTo32;
    assert r - sum == TwoTo32 * k;
    assert -1 <= k <= 1;
  }
}
