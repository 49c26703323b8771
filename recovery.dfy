/**
 * The recovery-plan view of core/views.py (`get_recovery_plan`): the user's
 * dominant trauma selects the first active program of that category, and each
 * of the program's steps is joined with the user's progress on it.
 */
module RecoveryPlan {
  import opened Wrappers
  import opened Categories
  import Assessment

  /** A step's progress as shown: status and the ISO completion time, if any. */
  datatype Progress = Progress(status: string, completedAt: Option<string>)

  /** What a step without a `UserRecoveryProgress` row shows. */
  const NotStarted := Progress("not_started", None)

  /** A `UserRecoveryProgress` row of the user for one step of the program. */
  datatype ProgressRow = ProgressRow(stepId: int, status: string, completedAt: Option<string>)

  /** A `RecoveryStep`. */
  datatype Step = Step(id: int, dayNumber: int, activityType: string, title: string, content: string,
                       resources: string, minutes: int)

  /** One entry of `steps_data`: the step and the progress the user made on it. */
  datatype StepView = StepView(step: Step, progress: Progress)

  /** A `RecoveryProgram`. */
  datatype Program = Program(id: int, category: Category, isActive: bool, title: string, description: string,
                             durationDays: int, difficulty: string)

  /** The view's answer: the program, the trauma it is for, and the joined steps. */
  datatype Plan = Plan(program: Program, traumaType: Category, steps: seq<StepView>)

  /** The error answers, in the order the view checks for them. */
  datatype PlanError = UserIdRequired | UserNotFound | NoAssessment | NoProgram

  // ---------------------------------------------------------------------------
  // Program lookup
  // ---------------------------------------------------------------------------

  predicate Serves(p: Program, c: Category)
  {
    p.category == c && p.isActive
  }

  /** The first position at or after `from` of a program serving `c`, or `|programs|`. */
  function FirstServing(programs: seq<Program>, c: Category, from: nat): (k: nat)
    requires from <= |programs|
    ensures from <= k <= |programs|
    ensures k < |programs| ==> Serves(programs[k], c)
    ensures forall i :: from <= i < k ==> !Serves(programs[i], c)
    decreases |programs| - from
  {
    if from == |programs| || Serves(programs[from], c) then from
    else FirstServing(programs, c, from + 1)
  }

  /** `RecoveryProgram.objects.filter(trauma_type=c, is_active=True).first()`, programs in key order. */
  function ActiveProgram(programs: seq<Program>, c: Category): (r: Option<Program>)
    ensures r.None? <==> forall i :: 0 <= i < |programs| ==> !Serves(programs[i], c)
    ensures r.Some? ==> exists k :: 0 <= k < |programs| && programs[k] == r.value && Serves(r.value, c)
                                    && forall i :: 0 <= i < k ==> !Serves(programs[i], c)
  {
    var k := FirstServing(programs, c, 0);
    if k < |programs| then Some(programs[k]) else None
  }

  // ---------------------------------------------------------------------------
  // progress_map and the join
  // ---------------------------------------------------------------------------

  /** `progress_map` after the loop over the first rows: step id to progress, later rows overwriting. */
  function ProgressMapOf(rows: seq<ProgressRow>): map<int, Progress>
  {
    if rows == [] then map[]
    else
      var last := rows[|rows| - 1];
      ProgressMapOf(rows[..|rows| - 1])[last.stepId := Progress(last.status, last.completedAt)]
  }

  /** Some row is about step `id`. */
  ghost predicate HasRow(rows: seq<ProgressRow>, id: int)
  {
    exists j :: 0 <= j < |rows| && rows[j].stepId == id
  }

  /** Row `j` is the last one about its step. */
  ghost predicate LastRow(rows: seq<ProgressRow>, j: int)
  {
    0 <= j < |rows| && forall i :: j < i < |rows| ==> rows[i].stepId != rows[j].stepId
  }

  /** A step has an entry in the progress map iff some row is about it. */
  lemma {:induction false} ProgressMapDomain(rows: seq<ProgressRow>, id: int)
    ensures id in ProgressMapOf(rows) <==> HasRow(rows, id)
  {
    if rows != [] {
      var init := rows[..|rows| - 1];
      ProgressMapDomain(init, id);
      if HasRow(init, id) {
        var j :| 0 <= j < |init| && init[j].stepId == id;
        assert rows[j] == init[j];
      }
      if HasRow(rows, id) && rows[|rows| - 1].stepId != id {
        var j :| 0 <= j < |rows| && rows[j].stepId == id;
        assert init[j] == rows[j];
      }
    }
  }

  /** The entry for a step is the progress of the last row about it. */
  lemma {:induction false} ProgressMapLastWins(rows: seq<ProgressRow>, j: int)
    requires LastRow(rows, j)
    ensures rows[j].stepId in ProgressMapOf(rows)
    ensures ProgressMapOf(rows)[rows[j].stepId] == Progress(rows[j].status, rows[j].completedAt)
  {
    var init := rows[..|rows| - 1];
    if j < |rows| - 1 {
      assert init[j] == rows[j];
      forall i | j < i < |init| ensures init[i].stepId != init[j].stepId {
        assert init[i] == rows[i];
      }
      ProgressMapLastWins(init, j);
    }
  }

  /** The loop over the user's progress rows that fills `progress_map`. */
  method BuildProgressMap(rows: seq<ProgressRow>) returns (m: map<int, Progress>)
    ensures m == ProgressMapOf(rows)
  {
    m := map[];
    var i := 0;
    while i < |rows|
      invariant 0 <= i <= |rows|
      invariant m == ProgressMapOf(rows[..i])
    {
      assert rows[..i + 1][..i] == rows[..i];
      m := m[rows[i].stepId := Progress(rows[i].status, rows[i].completedAt)];
      i := i + 1;
    }
    assert rows[..i] == rows;
  }

  /** `progress_map.get(id, {'status': 'not_started', 'completed_at': None})`. */
  function ProgressFor(m: map<int, Progress>, id: int): Progress
  {
    if id in m then m[id] else NotStarted
  }

  /**
   * The loop over the steps that builds `steps_data`: one entry per step, in
   * the steps' order, a step without a row showing `not_started`.
   */
  method JoinSteps(steps: seq<Step>, rows: seq<ProgressRow>) returns (views: seq<StepView>)
    ensures |views| == |steps|
    ensures forall i :: 0 <= i < |steps| ==> views[i].step == steps[i]
    ensures forall i :: 0 <= i < |steps| && !HasRow(rows, steps[i].id) ==> views[i].progress == NotStarted
    ensures forall i, j :: 0 <= i < |steps| && LastRow(rows, j) && rows[j].stepId == steps[i].id ==>
              views[i].progress == Progress(rows[j].status, rows[j].completedAt)
  {
    var m := BuildProgressMap(rows);
    views := [];
    var i := 0;
    while i < |steps|
      invariant 0 <= i <= |steps|
      invariant |views| == i
      invariant forall t :: 0 <= t < i ==> views[t] == StepView(steps[t], ProgressFor(m, steps[t].id))
    {
      views := views + [StepView(steps[i], ProgressFor(m, steps[i].id))];
      i := i + 1;
    }
    forall i | 0 <= i < |steps| && !HasRow(rows, steps[i].id) ensures views[i].progress == NotStarted {
      ProgressMapDomain(rows, steps[i].id);
    }
    forall i, j | 0 <= i < |steps| && LastRow(rows, j) && rows[j].stepId == steps[i].id
      ensures views[i].progress == Progress(rows[j].status, rows[j].completedAt)
    {
      ProgressMapLastWins(rows, j);
    }
  }

  // ---------------------------------------------------------------------------
  // get_recovery_plan
  // ---------------------------------------------------------------------------

  /**
   * `get_recovery_plan`. `userId` is the `user_id` parameter, None when missing
   * or empty; `dominant` holds the `DominantTrauma` rows; `stepsOf(p)` is program
   * `p`'s steps as the day-ordered query returns them, and `rowsOf(u, p)` the
   * progress rows of user `u` on steps of program `p`.
   */
  method GetRecoveryPlan(userId: Option<int>, users: set<int>, dominant: map<int, Assessment.DominantRecord>,
                         programs: seq<Program>, stepsOf: int -> seq<Step>, rowsOf: (int, int) -> seq<ProgressRow>)
    returns (r: Result<Plan, PlanError>)
    ensures userId.None? ==> r == Err(UserIdRequired)
    ensures userId.Some? && userId.value !in users ==> r == Err(UserNotFound)
    ensures userId.Some? && userId.value in users && userId.value !in dominant ==> r == Err(NoAssessment)
    ensures userId.Some? && userId.value in users && userId.value in dominant ==>
              (r == Err(NoProgram) <==> ActiveProgram(programs, dominant[userId.value].primary).None?)
    ensures r.Ok? <==> userId.Some? && userId.value in users && userId.value in dominant
                       && ActiveProgram(programs, dominant[userId.value].primary).Some?
    ensures r.Ok? ==>
              var c := dominant[userId.value].primary;
              && ActiveProgram(programs, c) == Some(r.value.program)
              && r.value.traumaType == c
    ensures r.Ok? ==>
              var steps := stepsOf(r.value.program.id);
              var rows := rowsOf(userId.value, r.value.program.id);
              && |r.value.steps| == |steps|
              && (forall i :: 0 <= i < |steps| ==> r.value.steps[i].step == steps[i])
              && (forall i :: 0 <= i < |steps| && !HasRow(rows, steps[i].id) ==> r.value.steps[i].progress == NotStarted)
              && (forall i, j :: 0 <= i < |steps| && LastRow(rows, j) && rows[j].stepId == steps[i].id ==>
                    r.value.steps[i].progress == Progress(rows[j].status, rows[j].completedAt))
  {
    if userId.None? {
      return Err(UserIdRequired);
    }
    var user := userId.value;
    if user !in users {
      return Err(UserNotFound);
    }
    if user !in dominant {
      return Err(NoAssessment);
    }
    var category := dominant[user].primary;
    var program := ActiveProgram(programs, category);
    if program.None? {
      return Err(NoProgram);
    }
    var views := JoinSteps(stepsOf(program.value.id), rowsOf(user, program.value.id));
    r := Ok(Plan(program.value, category, views));
  }
}
