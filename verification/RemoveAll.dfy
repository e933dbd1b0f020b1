/**
 * Removing all workflows at once, with a single main. The removals run concurrently. Each deregisters its
 * webhooks one by one, deletes its rows, drops its error, leaves the queue and stops its crons, closes its
 * triggers one by one and deletes its entry; between any two of these it may be suspended.
 */
module RemoveAll {
  import opened Options
  import WR = WebhookRegistration
  import AQ = ActivationQueue
  import AM = ActiveWorkflowManager

  /** How the removal of a workflow turns out: its clearing, and a trigger that fails to close. */
  datatype Course = Course(clearing: WR.Clearing, closing: AM.Closing)

  type Courses = map<string, Course>

  function CourseOf(courses: Courses, id: string): Course {
    if id in courses then courses[id] else Course(WR.Clearing([], WR.WorkflowMissing), None)
  }

  /** The webhooks of the workflow that get deregistered. */
  function Cut(c: WR.Clearing): seq<WR.Hook> {
    match c.outcome
    case WorkflowMissing => []
    case DeleteFails(at) => if at <= |c.defined| then c.defined[..at] else c.defined
    case _ => c.defined
  }

  /** The turn in which a removal deletes its rows; its other turns are counted from there. */
  function RowsTurn(course: Course): nat {
    |Cut(course.clearing)|
  }

  // ---------------------------------------------------------------- one turn of one removal

  function WebTurn(w: WR.World, id: string, turn: nat, course: Course): WR.World {
    if turn < RowsTurn(course) then w.(external := w.external - {WR.Registration(id, Cut(course.clearing)[turn])})
    else if turn == RowsTurn(course) && course.clearing.outcome.AllCleared? then w.(rows := WR.WithoutRowsOf(w.rows, id))
    else w
  }

  function ErrorsTurn(errors: map<string, string>, id: string, turn: nat, course: Course): map<string, string> {
    if turn == RowsTurn(course) + 1 then errors - {id} else errors
  }

  function QueueTurn(q: AQ.Queue, id: string, turn: nat, course: Course): AQ.Queue {
    if turn == RowsTurn(course) + 2 then AQ.Dequeued(q, id) else q
  }

  /** How many recorded triggers of the workflow get closed. */
  function Limit(t: AM.Triggers, id: string, course: Course): nat
    requires id in t.memory
  {
    if AM.ClosingFails(t, id, course.closing) then course.closing.value else t.memory[id].count
  }

  function TriggersTurn(t: AM.Triggers, id: string, turn: nat, course: Course): AM.Triggers {
    if id !in t.memory || turn < RowsTurn(course) + 2 then t
    else if turn == RowsTurn(course) + 2 then t.(crons := t.crons - {id})
    else
      var i := turn - (RowsTurn(course) + 3);
      if i < Limit(t, id, course) then t.(running := t.running - {t.memory[id].first + i})
      else if i == t.memory[id].count && !AM.ClosingFails(t, id, course.closing) then t.(memory := t.memory - {id})
      else t
  }

  /** One turn of the removal of a workflow; after its last turn it does nothing. */
  function Turn(s: AM.State, id: string, turn: nat, course: Course): AM.State {
    s.(web := WebTurn(s.web, id, turn, course),
       errors := ErrorsTurn(s.errors, id, turn, course),
       queue := QueueTurn(s.queue, id, turn, course),
       triggers := TriggersTurn(s.triggers, id, turn, course))
  }

  /** How many turns a schedule has given a removal. */
  function Turns(schedule: seq<string>, id: string): nat {
    if schedule == [] then 0
    else Turns(schedule[..|schedule| - 1], id) + if schedule[|schedule| - 1] == id then 1 else 0
  }

  /** The run of a schedule: each entry is the next turn of the removal it names. */
  function Scheduled(s: AM.State, schedule: seq<string>, courses: Courses): AM.State {
    if schedule == [] then s
    else
      var before, id := schedule[..|schedule| - 1], schedule[|schedule| - 1];
      Turn(Scheduled(s, before, courses), id, Turns(before, id), CourseOf(courses, id))
  }

  // ---------------------------------------------------------------- the state by progress

  /** How many turns each removal has had. */
  type Progress = string -> nat

  /** `p'` is one turn further than `p` for `id`, and as far for the others. */
  ghost predicate Next(p: Progress, p': Progress, id: string) {
    forall other :: p'(other) == p(other) + if other == id then 1 else 0
  }

  predicate RowGone(row: WR.Row, turns: nat, course: Course) {
    turns > RowsTurn(course) && course.clearing.outcome.AllCleared?
  }

  predicate RegistrationGone(r: WR.Registration, turns: nat, course: Course) {
    r.hook in Cut(course.clearing)[..if turns < RowsTurn(course) then turns else RowsTurn(course)]
  }

  ghost function RowsAfter(rows: map<WR.Key, WR.Row>, p: Progress, courses: Courses): map<WR.Key, WR.Row> {
    map k | k in rows && !RowGone(rows[k], p(rows[k].workflowId), CourseOf(courses, rows[k].workflowId)) :: rows[k]
  }

  ghost function ExternalAfter(external: set<WR.Registration>, p: Progress, courses: Courses): set<WR.Registration> {
    set r | r in external && !RegistrationGone(r, p(r.workflowId), CourseOf(courses, r.workflowId))
  }

  predicate ErrorGone(turns: nat, course: Course) {
    turns > RowsTurn(course) + 1
  }

  predicate EntryGone(turns: nat, course: Course) {
    turns > RowsTurn(course) + 2
  }

  ghost function ErrorsAfter(errors: map<string, string>, p: Progress, courses: Courses): map<string, string> {
    map id | id in errors && !ErrorGone(p(id), CourseOf(courses, id)) :: errors[id]
  }

  ghost function QueuedAfter(queued: map<string, AQ.Entry>, p: Progress, courses: Courses): map<string, AQ.Entry> {
    map id | id in queued && !EntryGone(p(id), CourseOf(courses, id)) :: queued[id]
  }

  ghost function TimersAfter(q: AQ.Queue, p: Progress, courses: Courses): map<nat, AQ.Timer> {
    map h | h in q.timers && !EntryGone(p(q.timers[h].id), CourseOf(courses, q.timers[h].id)) :: q.timers[h]
  }

  ghost function QueueAfter(q: AQ.Queue, p: Progress, courses: Courses): AQ.Queue {
    q.(queued := QueuedAfter(q.queued, p, courses), timers := TimersAfter(q, p, courses))
  }

  /** How many triggers a removal has closed. */
  function ClosedBy(t: AM.Triggers, id: string, turns: nat, course: Course): nat
    requires id in t.memory
  {
    if turns <= RowsTurn(course) + 3 then 0
    else if turns - (RowsTurn(course) + 3) < Limit(t, id, course) then turns - (RowsTurn(course) + 3)
    else Limit(t, id, course)
  }

  predicate MemoryGone(t: AM.Triggers, id: string, turns: nat, course: Course)
    requires id in t.memory
  {
    !AM.ClosingFails(t, id, course.closing) && turns > RowsTurn(course) + 3 + t.memory[id].count
  }

  predicate TriggerGone(t: AM.Triggers, h: nat, turns: nat, course: Course)
    requires h in t.running
  {
    var id := t.running[h];
    id in t.memory && t.memory[id].Has(h) && h < t.memory[id].first + ClosedBy(t, id, turns, course)
  }

  ghost function MemoryAfter(t: AM.Triggers, p: Progress, courses: Courses): map<string, AM.Record> {
    map id | id in t.memory && !MemoryGone(t, id, p(id), CourseOf(courses, id)) :: t.memory[id]
  }

  ghost function RunningAfter(t: AM.Triggers, p: Progress, courses: Courses): map<nat, string> {
    map h | h in t.running && !TriggerGone(t, h, p(t.running[h]), CourseOf(courses, t.running[h])) :: t.running[h]
  }

  ghost function CronsAfter(t: AM.Triggers, p: Progress, courses: Courses): map<string, nat> {
    map id | id in t.crons && !(id in t.memory && EntryGone(p(id), CourseOf(courses, id))) :: t.crons[id]
  }

  ghost function TriggersAfter(t: AM.Triggers, p: Progress, courses: Courses): AM.Triggers {
    AM.Triggers(MemoryAfter(t, p, courses), RunningAfter(t, p, courses), CronsAfter(t, p, courses), t.next)
  }

  /** The state told from how many turns each removal has had, and nothing else. */
  ghost function ByProgress(s: AM.State, p: Progress, courses: Courses): AM.State {
    s.(web := WR.World(RowsAfter(s.web.rows, p, courses), ExternalAfter(s.web.external, p, courses)),
       errors := ErrorsAfter(s.errors, p, courses),
       queue := QueueAfter(s.queue, p, courses),
       triggers := TriggersAfter(s.triggers, p, courses))
  }

  // ---------------------------------------------------------------- one turn, part by part

  lemma RowsByProgress(rows: map<WR.Key, WR.Row>, p: Progress, p': Progress, id: string, courses: Courses)
    requires Next(p, p', id)
    ensures RowsAfter(rows, p', courses)
         == if p(id) == RowsTurn(CourseOf(courses, id)) && CourseOf(courses, id).clearing.outcome.AllCleared?
            then WR.WithoutRowsOf(RowsAfter(rows, p, courses), id) else RowsAfter(rows, p, courses)
  {
  }

  lemma ExternalByProgress(external: set<WR.Registration>, p: Progress, p': Progress, id: string, courses: Courses)
    requires Next(p, p', id)
    ensures var course := CourseOf(courses, id); var after := ExternalAfter(external, p, courses);
      ExternalAfter(external, p', courses)
      == if p(id) < RowsTurn(course) then after - {WR.Registration(id, Cut(course.clearing)[p(id)])} else after
  {
    var course, turn := CourseOf(courses, id), p(id);
    if turn < RowsTurn(course) {
      var cut := Cut(course.clearing);
      assert cut[..turn + 1] == cut[..turn] + [cut[turn]];
    }
    forall r | r in external && r.workflowId != id
      ensures r in ExternalAfter(external, p', courses) <==> r in ExternalAfter(external, p, courses)
    {
      assert p'(r.workflowId) == p(r.workflowId);
    }
  }

  lemma WebByProgress(w: WR.World, p: Progress, p': Progress, id: string, courses: Courses)
    requires Next(p, p', id)
    ensures WebTurn(WR.World(RowsAfter(w.rows, p, courses), ExternalAfter(w.external, p, courses)), id, p(id), CourseOf(courses, id))
         == WR.World(RowsAfter(w.rows, p', courses), ExternalAfter(w.external, p', courses))
  {
    RowsByProgress(w.rows, p, p', id, courses);
    ExternalByProgress(w.external, p, p', id, courses);
  }

  lemma ErrorsByProgress(errors: map<string, string>, p: Progress, p': Progress, id: string, courses: Courses)
    requires Next(p, p', id)
    ensures ErrorsTurn(ErrorsAfter(errors, p, courses), id, p(id), CourseOf(courses, id)) == ErrorsAfter(errors, p', courses)
  {
    forall i | i in errors
      ensures ErrorGone(p'(i), CourseOf(courses, i)) <==>
              ErrorGone(p(i), CourseOf(courses, i)) || (i == id && p(id) == RowsTurn(CourseOf(courses, id)) + 1)
    {
    }
  }

  lemma EntriesByProgress(p: Progress, p': Progress, id: string, courses: Courses)
    requires Next(p, p', id)
    ensures forall i :: EntryGone(p'(i), CourseOf(courses, i)) <==>
                        EntryGone(p(i), CourseOf(courses, i)) || (i == id && p(id) == RowsTurn(CourseOf(courses, id)) + 2)
  {
  }

  /** With one timer per entry, taking the timer named by the entry takes all timers of the workflow. */
  lemma TimersByProgress(q: AQ.Queue, p: Progress, p': Progress, id: string, courses: Courses)
    requires AQ.Matched(q) && q.firing == map[] && Next(p, p', id)
    ensures TimersAfter(q, p', courses)
         == if p(id) == RowsTurn(CourseOf(courses, id)) + 2 && id in q.queued
            then TimersAfter(q, p, courses) - {q.queued[id].handle} else TimersAfter(q, p, courses)
  {
    EntriesByProgress(p, p', id, courses);
    forall h | h in q.timers
      ensures q.timers[h].id == id <==> id in q.queued && h == q.queued[id].handle
    {
      if id in q.queued {
        assert AQ.Live(q, id);
      }
    }
  }

  lemma QueuedByProgress(queued: map<string, AQ.Entry>, p: Progress, p': Progress, id: string, courses: Courses)
    requires Next(p, p', id)
    ensures QueuedAfter(queued, p', courses)
         == if p(id) == RowsTurn(CourseOf(courses, id)) + 2 then QueuedAfter(queued, p, courses) - {id} else QueuedAfter(queued, p, courses)
  {
    EntriesByProgress(p, p', id, courses);
  }

  lemma QueueByProgress(q: AQ.Queue, p: Progress, p': Progress, id: string, courses: Courses)
    requires AQ.Matched(q) && q.firing == map[] && Next(p, p', id)
    ensures QueueTurn(QueueAfter(q, p, courses), id, p(id), CourseOf(courses, id)) == QueueAfter(q, p', courses)
  {
    QueuedByProgress(q.queued, p, p', id, courses);
    TimersByProgress(q, p, p', id, courses);
    if id !in q.queued {
      assert QueuedAfter(q.queued, p, courses) - {id} == QueuedAfter(q.queued, p, courses);
    }
  }

  lemma CronsByProgress(t: AM.Triggers, p: Progress, p': Progress, id: string, courses: Courses)
    requires Next(p, p', id)
    ensures CronsAfter(t, p', courses)
         == if p(id) == RowsTurn(CourseOf(courses, id)) + 2 && id in t.memory
            then CronsAfter(t, p, courses) - {id} else CronsAfter(t, p, courses)
  {
    EntriesByProgress(p, p', id, courses);
  }

  lemma MemoryByProgress(t: AM.Triggers, p: Progress, p': Progress, id: string, courses: Courses)
    requires Next(p, p', id)
    ensures var course := CourseOf(courses, id);
      MemoryAfter(t, p', courses)
      == if id in t.memory && !AM.ClosingFails(t, id, course.closing) && p(id) == RowsTurn(course) + 3 + t.memory[id].count
         then MemoryAfter(t, p, courses) - {id} else MemoryAfter(t, p, courses)
  {
    forall i | i in t.memory && i != id
      ensures MemoryGone(t, i, p'(i), CourseOf(courses, i)) <==> MemoryGone(t, i, p(i), CourseOf(courses, i))
    {
    }
  }

  /** The turn closes the recorded trigger that comes next. */
  predicate ClosesNext(t: AM.Triggers, id: string, turn: nat, course: Course) {
    id in t.memory && turn >= RowsTurn(course) + 3 && turn - (RowsTurn(course) + 3) < Limit(t, id, course)
  }

  lemma GoneByTurn(t: AM.Triggers, h: nat, id: string, turn: nat, course: Course)
    requires AM.HandlesOwned(t) && h in t.running && t.running[h] == id
    ensures TriggerGone(t, h, turn + 1, course) <==> TriggerGone(t, h, turn, course) || ClosesNow(t, id, turn, course, h)
  {
  }

  lemma RunningByProgress(t: AM.Triggers, p: Progress, p': Progress, id: string, courses: Courses)
    requires AM.HandlesOwned(t) && Next(p, p', id)
    ensures var course := CourseOf(courses, id);
      RunningAfter(t, p', courses)
      == if ClosesNext(t, id, p(id), course)
         then RunningAfter(t, p, courses) - {t.memory[id].first + (p(id) - (RowsTurn(course) + 3))}
         else RunningAfter(t, p, courses)
  {
    forall h | h in t.running
      ensures h in RunningAfter(t, p', courses)
         <==> h in RunningAfter(t, p, courses) && !ClosesNow(t, id, p(id), CourseOf(courses, id), h)
    {
      GoneByProgress(t, h, p, p', id, courses);
    }
    RunningWithout(t, p, p', id, courses);
  }

  lemma RunningWithout(t: AM.Triggers, p: Progress, p': Progress, id: string, courses: Courses)
    requires forall h :: h in t.running ==>
      (h in RunningAfter(t, p', courses) <==> h in RunningAfter(t, p, courses) && !ClosesNow(t, id, p(id), CourseOf(courses, id), h))
    ensures var course := CourseOf(courses, id);
      RunningAfter(t, p', courses)
      == if ClosesNext(t, id, p(id), course)
         then RunningAfter(t, p, courses) - {t.memory[id].first + (p(id) - (RowsTurn(course) + 3))}
         else RunningAfter(t, p, courses)
  {
    var course := CourseOf(courses, id);
    if ClosesNext(t, id, p(id), course) {
      var closed := t.memory[id].first + (p(id) - (RowsTurn(course) + 3));
      assert forall h :: ClosesNow(t, id, p(id), course, h) <==> h == closed;
      assert RunningAfter(t, p', courses).Keys == RunningAfter(t, p, courses).Keys - {closed};
    } else {
      assert RunningAfter(t, p', courses).Keys == RunningAfter(t, p, courses).Keys;
    }
  }

  lemma GoneByProgress(t: AM.Triggers, h: nat, p: Progress, p': Progress, id: string, courses: Courses)
    requires AM.HandlesOwned(t) && Next(p, p', id) && h in t.running
    ensures TriggerGone(t, h, p'(t.running[h]), CourseOf(courses, t.running[h]))
       <==> TriggerGone(t, h, p(t.running[h]), CourseOf(courses, t.running[h])) || ClosesNow(t, id, p(id), CourseOf(courses, id), h)
  {
    assert p'(t.running[h]) == p(t.running[h]) + if t.running[h] == id then 1 else 0;
    if t.running[h] == id {
      GoneByTurn(t, h, id, p(id), CourseOf(courses, id));
    } else if ClosesNow(t, id, p(id), CourseOf(courses, id), h) {
      ClosesOwn(t, h, id, p(id), CourseOf(courses, id));
      assert false;
    }
  }

  predicate ClosesNow(t: AM.Triggers, id: string, turn: nat, course: Course, h: nat) {
    ClosesNext(t, id, turn, course) && h == t.memory[id].first + (turn - (RowsTurn(course) + 3))
  }

  lemma ClosesOwn(t: AM.Triggers, h: nat, id: string, turn: nat, course: Course)
    requires AM.HandlesOwned(t) && h in t.running && ClosesNow(t, id, turn, course, h)
    ensures t.running[h] == id
  {
    assert t.memory[id].Has(h);
  }

  lemma TriggersByProgress(t: AM.Triggers, p: Progress, p': Progress, id: string, courses: Courses)
    requires AM.HandlesOwned(t) && Next(p, p', id)
    ensures TriggersTurn(TriggersAfter(t, p, courses), id, p(id), CourseOf(courses, id)) == TriggersAfter(t, p', courses)
  {
    CronsByProgress(t, p, p', id, courses);
    MemoryByProgress(t, p, p', id, courses);
    RunningByProgress(t, p, p', id, courses);
    var memory, course, turn := MemoryAfter(t, p, courses), CourseOf(courses, id), p(id);
    if id in t.memory {
      if id in memory {
        assert memory[id] == t.memory[id];
        SameRecord(t, memory, RunningAfter(t, p, courses), CronsAfter(t, p, courses), id, turn, course);
      } else {
        assert MemoryGone(t, id, turn, course);
      }
    }
  }

  /** A turn looks at the record of its own workflow only. */
  lemma SameRecord(t: AM.Triggers, memory: map<string, AM.Record>, running: map<nat, string>, crons: map<string, nat>,
                   id: string, turn: nat, course: Course)
    requires id in t.memory && id in memory && memory[id] == t.memory[id]
    ensures var after := AM.Triggers(memory, running, crons, t.next);
            TriggersTurn(after, id, turn, course)
            == AM.Triggers(
                 if !AM.ClosingFails(t, id, course.closing) && turn == RowsTurn(course) + 3 + t.memory[id].count then memory - {id} else memory,
                 if ClosesNext(t, id, turn, course) then running - {t.memory[id].first + (turn - (RowsTurn(course) + 3))} else running,
                 if turn == RowsTurn(course) + 2 then crons - {id} else crons,
                 t.next)
  {
  }

  lemma TurnByProgress(s: AM.State, p: Progress, p': Progress, id: string, courses: Courses)
    requires AQ.Matched(s.queue) && s.queue.firing == map[] && AM.HandlesOwned(s.triggers) && Next(p, p', id)
    ensures Turn(ByProgress(s, p, courses), id, p(id), CourseOf(courses, id)) == ByProgress(s, p', courses)
  {
    WebByProgress(s.web, p, p', id, courses);
    ErrorsByProgress(s.errors, p, p', id, courses);
    QueueByProgress(s.queue, p, p', id, courses);
    TriggersByProgress(s.triggers, p, p', id, courses);
  }

  // ---------------------------------------------------------------- schedules

  /** What the results ask of the state before: one timer per entry, no retry under way, handles given out once. */
  ghost predicate Settled(s: AM.State) {
    AQ.Matched(s.queue) && s.queue.firing == map[] && AM.HandlesOwned(s.triggers)
  }

  lemma TurnsNext(before: seq<string>, id: string)
    ensures Next(other => Turns(before, other), other => Turns(before + [id], other), id)
  {
    assert (before + [id])[..|before|] == before;
  }

  lemma NothingDoneOutside(s: AM.State, p: Progress, courses: Courses)
    requires forall id :: p(id) == 0
    ensures RowsAfter(s.web.rows, p, courses) == s.web.rows && ExternalAfter(s.web.external, p, courses) == s.web.external
    ensures ErrorsAfter(s.errors, p, courses) == s.errors && QueueAfter(s.queue, p, courses) == s.queue
  {
    assert QueuedAfter(s.queue.queued, p, courses) == s.queue.queued;
    assert TimersAfter(s.queue, p, courses) == s.queue.timers;
  }

  lemma NothingDoneInside(t: AM.Triggers, p: Progress, courses: Courses)
    requires forall id :: p(id) == 0
    ensures TriggersAfter(t, p, courses) == t
  {
    assert MemoryAfter(t, p, courses) == t.memory;
    assert RunningAfter(t, p, courses) == t.running;
    assert CronsAfter(t, p, courses) == t.crons;
  }

  /** The state that any schedule reaches is told by how many turns each removal has had. */
  lemma {:induction false} ScheduledByProgress(s: AM.State, schedule: seq<string>, courses: Courses)
    requires Settled(s)
    ensures Scheduled(s, schedule, courses) == ByProgress(s, id => Turns(schedule, id), courses)
  {
    if schedule == [] {
      NothingDoneOutside(s, id => Turns(schedule, id), courses);
      NothingDoneInside(s.triggers, id => Turns(schedule, id), courses);
    } else {
      var before, id := schedule[..|schedule| - 1], schedule[|schedule| - 1];
      assert schedule == before + [id];
      ScheduledByProgress(s, before, courses);
      TurnsNext(before, id);
      TurnByProgress(s, other => Turns(before, other), other => Turns(before + [id], other), id, courses);
    }
  }

  /** All turns in which a removal does anything. */
  function Length(t: AM.Triggers, id: string, course: Course): nat {
    RowsTurn(course) + 4 + if id in t.memory then t.memory[id].count else 0
  }

  /** Both removals have had equally many turns, or all that matter. */
  predicate SameTurns(t: AM.Triggers, id: string, course: Course, turns: nat, turns': nat) {
    turns == turns' || (turns >= Length(t, id, course) && turns' >= Length(t, id, course))
  }

  ghost predicate SameProgress(t: AM.Triggers, p: Progress, p': Progress, courses: Courses) {
    forall id :: SameTurns(t, id, CourseOf(courses, id), p(id), p'(id))
  }

  lemma SameOutside(s: AM.State, p: Progress, p': Progress, courses: Courses)
    requires SameProgress(s.triggers, p, p', courses)
    ensures RowsAfter(s.web.rows, p, courses) == RowsAfter(s.web.rows, p', courses)
    ensures ExternalAfter(s.web.external, p, courses) == ExternalAfter(s.web.external, p', courses)
    ensures ErrorsAfter(s.errors, p, courses) == ErrorsAfter(s.errors, p', courses)
  {
    forall id
      ensures SameTurns(s.triggers, id, CourseOf(courses, id), p(id), p'(id))
    {
    }
  }

  lemma SameQueue(s: AM.State, p: Progress, p': Progress, courses: Courses)
    requires SameProgress(s.triggers, p, p', courses)
    ensures QueueAfter(s.queue, p, courses) == QueueAfter(s.queue, p', courses)
  {
    assert forall id :: SameTurns(s.triggers, id, CourseOf(courses, id), p(id), p'(id));
    assert QueuedAfter(s.queue.queued, p, courses) == QueuedAfter(s.queue.queued, p', courses);
    assert TimersAfter(s.queue, p, courses) == TimersAfter(s.queue, p', courses);
  }

  lemma SameTriggersGone(t: AM.Triggers, h: nat, turns: nat, turns': nat, course: Course)
    requires h in t.running && SameTurns(t, t.running[h], course, turns, turns')
    ensures TriggerGone(t, h, turns, course) <==> TriggerGone(t, h, turns', course)
  {
  }

  lemma SameInside(t: AM.Triggers, p: Progress, p': Progress, courses: Courses)
    requires SameProgress(t, p, p', courses)
    ensures TriggersAfter(t, p, courses) == TriggersAfter(t, p', courses)
  {
    assert forall id :: SameTurns(t, id, CourseOf(courses, id), p(id), p'(id));
    assert MemoryAfter(t, p, courses) == MemoryAfter(t, p', courses);
    forall h | h in t.running
      ensures h in RunningAfter(t, p, courses) <==> h in RunningAfter(t, p', courses)
    {
      var id := t.running[h];
      assert SameTurns(t, id, CourseOf(courses, id), p(id), p'(id));
      SameTriggersGone(t, h, p(id), p'(id), CourseOf(courses, id));
    }
    assert CronsAfter(t, p, courses) == CronsAfter(t, p', courses);
  }

  /**
   * Removals commute: two interleavings that take every removal equally far, or both to its end, reach the
   * same state, although each may be suspended before every single deregistration and closing.
   */
  lemma RemovalsCommute(s: AM.State, schedule: seq<string>, schedule': seq<string>, courses: Courses)
    requires Settled(s)
    requires forall id :: SameTurns(s.triggers, id, CourseOf(courses, id), Turns(schedule, id), Turns(schedule', id))
    ensures Scheduled(s, schedule, courses) == Scheduled(s, schedule', courses)
  {
    ScheduledByProgress(s, schedule, courses);
    ScheduledByProgress(s, schedule', courses);
    SameOutside(s, id => Turns(schedule, id), id => Turns(schedule', id), courses);
    SameQueue(s, id => Turns(schedule, id), id => Turns(schedule', id), courses);
    SameInside(s.triggers, id => Turns(schedule, id), id => Turns(schedule', id), courses);
  }

  // ---------------------------------------------------------------- removeAll

  /** The ids read from storage leave out every workflow with an error, but not one with an empty message. */
  function ActiveInStorage(errors: map<string, string>, storedActive: set<string>): set<string> {
    set id | id in storedActive && !(id in errors && errors[id] != "")
  }

  /** The ids that `removeAll` removes: those in memory, and those stored as active without an error. */
  function Targets(s: AM.State, storedActive: set<string>): set<string> {
    s.triggers.memory.Keys + ActiveInStorage(s.errors, storedActive)
  }

  predicate Finished(t: AM.Triggers, id: string, course: Course, targets: set<string>, turns: nat) {
    if id in targets then turns >= Length(t, id, course) else turns == 0
  }

  /** A schedule that takes the removal of every target to its end, and touches nothing else. */
  ghost predicate Complete(t: AM.Triggers, schedule: seq<string>, courses: Courses, targets: set<string>) {
    forall id :: Finished(t, id, CourseOf(courses, id), targets, Turns(schedule, id))
  }

  /** Every complete interleaving ends in the same state. */
  lemma CompleteSchedulesAgree(s: AM.State, schedule: seq<string>, schedule': seq<string>, courses: Courses, targets: set<string>)
    requires Settled(s) && Complete(s.triggers, schedule, courses, targets) && Complete(s.triggers, schedule', courses, targets)
    ensures Scheduled(s, schedule, courses) == Scheduled(s, schedule', courses)
  {
    forall id
      ensures SameTurns(s.triggers, id, CourseOf(courses, id), Turns(schedule, id), Turns(schedule', id))
    {
      assert Finished(s.triggers, id, CourseOf(courses, id), targets, Turns(schedule, id));
      assert Finished(s.triggers, id, CourseOf(courses, id), targets, Turns(schedule', id));
    }
    RemovalsCommute(s, schedule, schedule', courses);
  }

  /** A trigger of the workflow fails to close during its removal. */
  predicate Sticks(t: AM.Triggers, id: string, courses: Courses) {
    AM.ClosingFails(t, id, CourseOf(courses, id).closing)
  }

  /**
   * Every complete interleaving leaves in memory exactly the workflows of which a trigger fails to close,
   * stops all crons, closes every recorded trigger in front of one that fails to close, and leaves queue
   * entry and error exactly to the workflows that were no target.
   */
  lemma RemoveAllLeaves(s: AM.State, storedActive: set<string>, schedule: seq<string>, courses: Courses)
    requires Settled(s) && AM.CronsInMemory(s.triggers)
    requires Complete(s.triggers, schedule, courses, Targets(s, storedActive))
    ensures var s' := Scheduled(s, schedule, courses);
            && (forall id :: id in s'.triggers.memory <==> Sticks(s.triggers, id, courses))
            && (forall id :: AM.CountOf(s'.triggers.crons, id) == 0)
            && (forall h :: h in s'.triggers.running <==> h in s.triggers.running && KeepsRunning(s.triggers, h, courses))
            && s'.queue.queued == s.queue.queued - Targets(s, storedActive)
            && s'.errors == s.errors - Targets(s, storedActive)
            && AQ.Matched(s'.queue)
  {
    ScheduledByProgress(s, schedule, courses);
    var p: Progress := id => Turns(schedule, id);
    assert forall id :: Finished(s.triggers, id, CourseOf(courses, id), Targets(s, storedActive), p(id));
    FinishedTriggers(s.triggers, p, courses, Targets(s, storedActive));
    FinishedErrors(s, p, courses, Targets(s, storedActive));
    FinishedQueue(s.queue, p, courses);
  }

  /** Orphaned, or recorded at or behind a trigger that fails to close. */
  predicate KeepsRunning(t: AM.Triggers, h: nat, courses: Courses)
    requires h in t.running
  {
    || AM.Orphan(t, h)
    || (Sticks(t, t.running[h], courses) && h >= t.memory[t.running[h]].first + CourseOf(courses, t.running[h]).closing.value)
  }

  lemma FinishedTriggers(t: AM.Triggers, p: Progress, courses: Courses, targets: set<string>)
    requires AM.CronsInMemory(t) && t.memory.Keys <= targets
    requires forall id :: Finished(t, id, CourseOf(courses, id), targets, p(id))
    ensures forall id :: id in MemoryAfter(t, p, courses) <==> Sticks(t, id, courses)
    ensures forall id :: AM.CountOf(CronsAfter(t, p, courses), id) == 0
    ensures forall h :: h in RunningAfter(t, p, courses) <==> h in t.running && KeepsRunning(t, h, courses)
  {
    forall id
      ensures AM.CountOf(CronsAfter(t, p, courses), id) == 0
    {
      assert AM.CountOf(t.crons, id) > 0 ==> id in t.memory;
      assert Finished(t, id, CourseOf(courses, id), targets, p(id));
    }
    forall id | id in t.memory
      ensures MemoryGone(t, id, p(id), CourseOf(courses, id)) <==> !Sticks(t, id, courses)
    {
      assert Finished(t, id, CourseOf(courses, id), targets, p(id));
    }
    forall h | h in t.running
      ensures TriggerGone(t, h, p(t.running[h]), CourseOf(courses, t.running[h])) <==> !KeepsRunning(t, h, courses)
    {
      assert Finished(t, t.running[h], CourseOf(courses, t.running[h]), targets, p(t.running[h]));
    }
  }

  lemma FinishedErrors(s: AM.State, p: Progress, courses: Courses, targets: set<string>)
    requires forall id :: Finished(s.triggers, id, CourseOf(courses, id), targets, p(id))
    ensures ErrorsAfter(s.errors, p, courses) == s.errors - targets
    ensures QueuedAfter(s.queue.queued, p, courses) == s.queue.queued - targets
  {
    forall id
      ensures ErrorGone(p(id), CourseOf(courses, id)) <==> id in targets
      ensures EntryGone(p(id), CourseOf(courses, id)) <==> id in targets
    {
      assert Finished(s.triggers, id, CourseOf(courses, id), targets, p(id));
    }
  }

  lemma FinishedQueue(q: AQ.Queue, p: Progress, courses: Courses)
    requires AQ.Matched(q) && q.firing == map[]
    ensures AQ.Matched(QueueAfter(q, p, courses))
  {
    var q' := QueueAfter(q, p, courses);
    forall id | id in q'.queued
      ensures AQ.Live(q', id)
    {
      assert AQ.Live(q, id);
    }
  }

  /**
   * As long as queued workflows have errors with a message, `removeAll` takes a queued workflow out of
   * the queue exactly if it is in memory too. A workflow that is only waiting for its retry is no target,
   * since the ids read from storage leave out every workflow with an error; its timer stays live.
   */
  lemma WaitingWorkflowsSurviveRemoveAll(s: AM.State, storedActive: set<string>, schedule: seq<string>, courses: Courses, id: string)
    requires Settled(s) && AM.CronsInMemory(s.triggers) && AM.QueuedHaveErrors(s)
    requires Complete(s.triggers, schedule, courses, Targets(s, storedActive))
    requires id in s.queue.queued && s.errors[id] != ""
    ensures var s' := Scheduled(s, schedule, courses);
            && (id in s'.queue.queued <==> id !in s.triggers.memory)
            && (id in s'.queue.queued ==> AQ.Live(s'.queue, id) && id in s'.errors)
  {
    RemoveAllLeaves(s, storedActive, schedule, courses);
    ScheduledByProgress(s, schedule, courses);
    assert AQ.Live(s.queue, id);
  }

  // ---------------------------------------------------------------- one removal after the other

  /** The first `n` turns of a removal with nothing in between. */
  function InARow(s: AM.State, id: string, n: nat, course: Course): AM.State {
    if n == 0 then s else Turn(InARow(s, id, n - 1, course), id, n - 1, course)
  }

  function WebDone(w: WR.World, id: string, n: nat, course: Course): WR.World {
    WR.World(if n > RowsTurn(course) && course.clearing.outcome.AllCleared? then WR.WithoutRowsOf(w.rows, id) else w.rows,
             WR.Deregistered(w.external, id, Cut(course.clearing)[..if n < RowsTurn(course) then n else RowsTurn(course)]))
  }

  function TriggersDone(t: AM.Triggers, id: string, n: nat, course: Course): AM.Triggers {
    if id !in t.memory || n <= RowsTurn(course) + 2 then t
    else
      AM.Triggers(if MemoryGone(t, id, n, course) then t.memory - {id} else t.memory,
                  AM.Closed(t.running, t.memory[id].first, ClosedBy(t, id, n, course)),
                  t.crons - {id},
                  t.next)
  }

  function Done(s: AM.State, id: string, n: nat, course: Course): AM.State {
    s.(web := WebDone(s.web, id, n, course),
       errors := if ErrorGone(n, course) then s.errors - {id} else s.errors,
       queue := if EntryGone(n, course) then AQ.Dequeued(s.queue, id) else s.queue,
       triggers := TriggersDone(s.triggers, id, n, course))
  }

  lemma WebDoneNext(w: WR.World, id: string, n: nat, course: Course)
    ensures WebTurn(WebDone(w, id, n, course), id, n, course) == WebDone(w, id, n + 1, course)
  {
    var cut := Cut(course.clearing);
    if n < |cut| {
      assert cut[..n + 1] == cut[..n] + [cut[n]];
    }
  }

  lemma TriggersDoneNext(t: AM.Triggers, id: string, n: nat, course: Course)
    ensures TriggersTurn(TriggersDone(t, id, n, course), id, n, course) == TriggersDone(t, id, n + 1, course)
  {
    if id in t.memory && n >= RowsTurn(course) + 2 {
      var done := TriggersDone(t, id, n, course);
      if id in done.memory {
        assert done.memory[id] == t.memory[id];
        assert Limit(done, id, course) == Limit(t, id, course);
      }
    }
  }

  lemma {:induction false} InARowIsDone(s: AM.State, id: string, n: nat, course: Course)
    ensures InARow(s, id, n, course) == Done(s, id, n, course)
    decreases n
  {
    if n == 0 {
      assert WR.Deregistered(s.web.external, id, []) == s.web.external;
    } else {
      InARowIsDone(s, id, n - 1, course);
      WebDoneNext(s.web, id, n - 1, course);
      TriggersDoneNext(s.triggers, id, n - 1, course);
    }
  }

  lemma WebDoneIsCleared(w: WR.World, id: string, n: nat, course: Course)
    requires n > RowsTurn(course)
    ensures WebDone(w, id, n, course) == WR.Cleared(w, id, course.clearing)
  {
    var c := course.clearing;
    assert Cut(c)[..|Cut(c)|] == Cut(c);
    if c.outcome.WorkflowMissing? {
      assert WR.Deregistered(w.external, id, []) == w.external;
    }
  }

  /** All turns of a removal in a row are one removal. */
  lemma RemovalIsItsTurns(s: AM.State, id: string, n: nat, course: Course)
    requires !s.isMultiMain && n >= Length(s.triggers, id, course)
    ensures InARow(s, id, n, course) == AM.Remove(s, id, course.clearing, course.closing)
  {
    InARowIsDone(s, id, n, course);
    WebDoneIsCleared(s.web, id, n, course);
  }

  function Repeated(schedule: seq<string>, id: string, n: nat): seq<string> {
    if n == 0 then schedule else Repeated(schedule, id, n - 1) + [id]
  }

  lemma ScheduledOneMore(s: AM.State, before: seq<string>, id: string, courses: Courses)
    ensures Scheduled(s, before + [id], courses) == Turn(Scheduled(s, before, courses), id, Turns(before, id), CourseOf(courses, id))
    ensures forall other :: Turns(before + [id], other) == Turns(before, other) + if other == id then 1 else 0
  {
    assert (before + [id])[..|before|] == before;
  }

  lemma {:induction false} RepeatedTurns(schedule: seq<string>, id: string, n: nat)
    ensures forall other :: Turns(Repeated(schedule, id, n), other) == Turns(schedule, other) + if other == id then n else 0
    decreases n
  {
    if n > 0 {
      RepeatedTurns(schedule, id, n - 1);
      TurnsNext(Repeated(schedule, id, n - 1), id);
      assert Repeated(schedule, id, n)[..|Repeated(schedule, id, n - 1)|] == Repeated(schedule, id, n - 1);
    }
  }

  lemma {:induction false} RepeatedRuns(s: AM.State, schedule: seq<string>, id: string, n: nat, courses: Courses)
    requires Turns(schedule, id) == 0
    ensures Scheduled(s, Repeated(schedule, id, n), courses) == InARow(Scheduled(s, schedule, courses), id, n, CourseOf(courses, id))
    decreases n
  {
    if n > 0 {
      RepeatedRuns(s, schedule, id, n - 1, courses);
      RepeatedTurns(schedule, id, n - 1);
      ScheduledOneMore(s, Repeated(schedule, id, n - 1), id, courses);
    }
  }

  /** Removals take entries out of memory, their own only. */
  lemma {:induction false} MemoryOnlyShrinks(s: AM.State, schedule: seq<string>, courses: Courses)
    ensures var s' := Scheduled(s, schedule, courses);
            && s'.isMultiMain == s.isMultiMain
            && (forall id :: id in s'.triggers.memory ==> id in s.triggers.memory && s'.triggers.memory[id] == s.triggers.memory[id])
            && (forall id :: id in s.triggers.memory && Turns(schedule, id) == 0 ==> id in s'.triggers.memory)
  {
    if schedule != [] {
      MemoryOnlyShrinks(s, schedule[..|schedule| - 1], courses);
    }
  }

  /** The schedule with one more removal behind it. */
  lemma RemovalNext(s: AM.State, schedule: seq<string>, id: string, courses: Courses, done: set<string>)
    requires !s.isMultiMain && Complete(s.triggers, schedule, courses, done) && id !in done
    ensures var course := CourseOf(courses, id); var longer := Repeated(schedule, id, Length(s.triggers, id, course));
            && Scheduled(s, longer, courses) == AM.Remove(Scheduled(s, schedule, courses), id, course.clearing, course.closing)
            && Complete(s.triggers, longer, courses, done + {id})
  {
    var course := CourseOf(courses, id);
    var n := Length(s.triggers, id, course);
    assert Finished(s.triggers, id, course, done, Turns(schedule, id));
    RepeatedRuns(s, schedule, id, n, courses);
    RepeatedTurns(schedule, id, n);
    MemoryOnlyShrinks(s, schedule, courses);
    RemovalIsItsTurns(Scheduled(s, schedule, courses), id, n, course);
    forall other
      ensures Finished(s.triggers, other, CourseOf(courses, other), done + {id}, Turns(Repeated(schedule, id, n), other))
    {
      assert Finished(s.triggers, other, CourseOf(courses, other), done, Turns(schedule, other));
    }
  }

  predicate AnySticks(t: AM.Triggers, ids: set<string>, courses: Courses) {
    exists id :: id in ids && Sticks(t, id, courses)
  }

  lemma AnySticksNext(t: AM.Triggers, ids: set<string>, id: string, courses: Courses)
    ensures AnySticks(t, ids + {id}, courses) <==> AnySticks(t, ids, courses) || Sticks(t, id, courses)
  {
    if Sticks(t, id, courses) { assert id in ids + {id}; }
  }

  /**
   * `removeAll` with the removals one after the other, in any order of the targets: a complete schedule,
   * and so the state in which every complete interleaving of them ends. Returns whether it rejects.
   */
  method RemoveAll(manager: AM.ActiveWorkflowManager, storedActive: set<string>, courses: Courses)
    returns (rejected: bool, ghost schedule: seq<string>)
    requires !manager.isMultiMain
    modifies manager, manager.webhookRegistry
    ensures Complete(old(manager.triggers), schedule, courses, Targets(old(manager.Abs()), storedActive))
    ensures manager.Abs() == Scheduled(old(manager.Abs()), schedule, courses)
    ensures rejected == AnySticks(old(manager.triggers), Targets(old(manager.Abs()), storedActive), courses)
  {
    var targets := manager.triggers.memory.Keys + ActiveInStorage(manager.activationErrors, storedActive);
    rejected, schedule := RemoveTargets(manager, targets, courses);
  }

  /** The schedule has taken the removal of each of `done` to its end, and has led to `now`. */
  ghost predicate HasRemoved(start: AM.State, schedule: seq<string>, courses: Courses, done: set<string>, now: AM.State) {
    Complete(start.triggers, schedule, courses, done) && now == Scheduled(start, schedule, courses)
  }

  method RemoveTargets(manager: AM.ActiveWorkflowManager, targets: set<string>, courses: Courses)
    returns (rejected: bool, ghost schedule: seq<string>)
    requires !manager.isMultiMain
    modifies manager, manager.webhookRegistry
    ensures Complete(old(manager.triggers), schedule, courses, targets)
    ensures manager.Abs() == Scheduled(old(manager.Abs()), schedule, courses)
    ensures rejected == AnySticks(old(manager.triggers), targets, courses)
  {
    rejected, schedule := false, [];
    ghost var start := manager.Abs();
    ghost var done: set<string> := {};
    var left := targets;
    while left != {}
      invariant left !! done && left + done == targets
      invariant rejected == AnySticks(start.triggers, done, courses)
      invariant HasRemoved(start, schedule, courses, done, manager.Abs())
      decreases |left|
    {
      var id :| id in left;
      var failed := RemoveNext(manager, id, courses, start, schedule, done);
      schedule := Repeated(schedule, id, Length(start.triggers, id, CourseOf(courses, id)));
      AnySticksNext(start.triggers, done, id, courses);
      rejected := rejected || failed;
      left, done := left - {id}, done + {id};
    }
  }

  method RemoveNext(manager: AM.ActiveWorkflowManager, id: string, courses: Courses,
                    ghost start: AM.State, ghost schedule: seq<string>, ghost done: set<string>)
    returns (failed: bool)
    requires !manager.isMultiMain && id !in done
    requires HasRemoved(start, schedule, courses, done, manager.Abs())
    modifies manager, manager.webhookRegistry
    ensures HasRemoved(start, Repeated(schedule, id, Length(start.triggers, id, CourseOf(courses, id))), courses, done + {id}, manager.Abs())
    ensures failed == Sticks(start.triggers, id, courses)
  {
    assert Finished(start.triggers, id, CourseOf(courses, id), done, Turns(schedule, id));
    MemoryOnlyShrinks(start, schedule, courses);
    RemovalNext(start, schedule, id, courses, done);
    failed := manager.Remove(id, CourseOf(courses, id).clearing, CourseOf(courses, id).closing);
  }
}
