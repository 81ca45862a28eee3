/** The check that an assignment is still open, right before the first push about it. */
module Presend {
  import opened Options
  import opened Sequences
  import opened PushRounds

  datatype Check = Send | Submitted | Gone | Unverified

  /** What the rows of one assignment say when they are read. */
  datatype Facts = Facts(submitted: bool, marked: bool, ignored: bool, alive: bool, dues: set<int>)

  predicate Guarded(job: Job) { job.kind.Reminder? || job.kind.CountdownStart? }

  /** The due time a job counts from: as filed, or for a countdown filed with none, the latest of the rows. */
  function DueEpoch(job: Job, facts: Facts): Option<int> {
    if job.kind.Reminder? || job.due.Some? then job.due
    else if facts.dues == {} then None
    else Some(Greatest(facts.dues))
  }

  /** What the rows settle, or None to go by Moodle's answer. */
  function DatabaseVerdict(job: Job, facts: Facts, now: int): Option<Check> {
    var due := DueEpoch(job, facts);
    if facts.submitted then Some(Submitted)
    else if facts.marked then Some(Gone)
    else if facts.ignored then Some(Gone)
    else if !facts.alive then Some(Gone)
    else if (job.kind.Reminder? || due.Some?) && !(due.Some? && due.value in facts.dues) then Some(Gone)
    else if due.Some? && due.value <= now then Some(Gone)
    else None
  }

  function RecheckRows(job: Job, facts: Facts, now: int): Option<Check> {
    if job.assignment.None? then Some(Gone) else DatabaseVerdict(job, facts, now)
  }

  /** The verdict acted on: a `Send` stands only if the rows still say so and the grace has not passed. */
  function Ruling(job: Job, check: Check, facts: Facts, now: int, grace: int): Check {
    var again := if check.Send? then RecheckRows(job, facts, now) else None;
    var c := if again.Some? then again.value else check;
    if c.Send? && now >= job.fireAt + grace then Gone else c
  }

  /** What must hold in the transaction that creates a guarded job's first delivery. */
  predicate Clear(job: Job, facts: Facts, now: int, grace: int) {
    && job.assignment.Some?
    && !facts.submitted && !facts.marked && !facts.ignored && facts.alive
    && now < job.fireAt + grace
    && (job.kind.Reminder? ==> job.due.Some?)
    && (DueEpoch(job, facts).Some? ==> DueEpoch(job, facts).value in facts.dues && now < DueEpoch(job, facts).value)
  }

  /** The ruling is to send exactly when the check said so and the rows, read again, are clear. */
  lemma SendIsClear(job: Job, check: Check, facts: Facts, now: int, grace: int)
    requires Guarded(job)
    ensures Ruling(job, check, facts, now, grace).Send? <==> check.Send? && Clear(job, facts, now, grace)
  {
  }
}
