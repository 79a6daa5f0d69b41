/**
 The course of one job as a small automaton: the state of its row, and how many messages and processes are at
 each point of its way. Which writes may overtake which is decided here; Lifecycle shows that every plain run
 of the whole system is, for each job, a run of this automaton.
 */
module Course {
  import opened Jobs

  /**
   `announcing` and `queueing` count the submissions that have yet to publish the job, and to write QUEUED.
   `front` and `exec` count the workers that have fetched it, and that run it; `hauled` the routers that have it
   in hand. `retrying` and `burying` count the workers that have published it again, or dead-lettered it, and
   have yet to write RETRY or FAILED.
   */
  datatype Life = Life(
    state: State, announcing: nat, queueing: nat, main: nat, front: nat, exec: nat, retry: nat, hauled: nat,
    dead: nat, succ: nat, retrying: nat, burying: nat)

  datatype Move =
    | Stay | Publish | WriteQueued | Fetch | Start | Succeed | Resend | WriteRetry | Bury | WriteFailed | Pick | Forward

  function Born(): Life {
    Life(Accepted, 1, 0, 0, 0, 0, 0, 0, 0, 0, 0, 0)
  }

  predicate Can(a: Life, m: Move) {
    match m
    case Stay => true
    case Publish => a.announcing > 0
    case WriteQueued => a.queueing > 0
    case Fetch => a.main > 0
    case Start => a.front > 0
    case Succeed => a.exec > 0
    case Resend => a.exec > 0
    case WriteRetry => a.retrying > 0
    case Bury => a.exec > 0
    case WriteFailed => a.burying > 0
    case Pick => a.retry > 0
    case Forward => a.hauled > 0
  }

  function Do(a: Life, m: Move): Life
    requires Can(a, m)
  {
    match m
    case Stay => a
    case Publish => a.(announcing := a.announcing - 1, queueing := a.queueing + 1, main := a.main + 1)
    case WriteQueued => a.(queueing := a.queueing - 1, state := Queued)
    case Fetch => a.(main := a.main - 1, front := a.front + 1)
    case Start => a.(front := a.front - 1, exec := a.exec + 1, state := Running)
    case Succeed => a.(exec := a.exec - 1, succ := a.succ + 1, state := Success)
    case Resend => a.(exec := a.exec - 1, retry := a.retry + 1, retrying := a.retrying + 1)
    case WriteRetry => a.(retrying := a.retrying - 1, state := Retry)
    case Bury => a.(exec := a.exec - 1, dead := a.dead + 1, burying := a.burying + 1)
    case WriteFailed => a.(burying := a.burying - 1, state := Failed)
    case Pick => a.(retry := a.retry - 1, hauled := a.hauled + 1)
    case Forward => a.(hauled := a.hauled - 1, main := a.main + 1)
  }

  /** The job's message is on the main topic, or fetched from it and not yet marked RUNNING. */
  predicate AtMain(a: Life) {
    a.main + a.front > 0
  }

  /** The state a reader of the whole system would name. */
  function View(a: Life): State {
    if a.state in {Accepted, Retry} && AtMain(a) then Queued else a.state
  }

  predicate Edge(a: State, b: State) {
    a == b || Transition(a, b)
  }

  /** One message, in one place; a terminal state stands for a message that got there. */
  predicate Sane(a: Life) {
    a.announcing + a.main + a.front + a.exec + a.retry + a.hauled + a.dead + a.succ <= 1 &&
    (a.state == Success ==> a.succ > 0) && (a.state == Failed ==> a.dead > 0) && (a.burying > 0 ==> a.dead > 0)
  }

  /**
   What a write must find in the row to be an edge of the table. QUEUED may not overtake RUNNING or anything
   behind it. RETRY must find RUNNING or RETRY, or, once its message is back on the main topic, anything that
   reads as QUEUED. SUCCESS must find the RUNNING of its own run.
   */
  predicate Guard(a: Life, m: Move) {
    match m
    case WriteQueued => a.state in {Accepted, Queued, Retry}
    case WriteRetry => if AtMain(a) then a.state in {Accepted, Queued, Retry} else a.state in {Running, Retry}
    case Succeed => a.state == Running
    case _ => true
  }

  /** A move is an edge of the table, or none at all, exactly when its guard holds; all other moves always are. */
  lemma MoveObeysIffGuarded(a: Life, m: Move)
    requires Sane(a) && Can(a, m)
    ensures Sane(Do(a, m))
    ensures Edge(View(a), View(Do(a, m))) <==> Guard(a, m)
  {
  }

  /** Only a late QUEUED and a late RETRY take a job out of a terminal state, and they always do. */
  lemma ReopensIffLate(a: Life, m: Move)
    requires Sane(a) && Can(a, m) && IsTerminal(a.state)
    ensures Do(a, m).state != a.state <==> m in {WriteQueued, WriteRetry}
  {
  }

  // ----- late writes -----

  /**
   A late write comes in time: QUEUED before the job has been run, or when its retry is back on the main topic;
   RETRY while nobody runs the job, and where it is an edge of the table.
   */
  predicate Timely(a: Life, m: Move) {
    match m
    case WriteQueued => a.state == Accepted || (a.state == Retry && AtMain(a))
    case WriteRetry => a.exec == 0 && Guard(a, m)
    case _ => true
  }

  /** Where the message is, the state says so, unless the write that will say so is still to come. */
  predicate Fits(a: Life) {
    (a.announcing > 0 ==> a.state == Accepted && a.queueing + a.retrying == 0) &&
    (a.main + a.front > 0 ==>
      a.state in {Queued, Retry} || (a.state == Accepted && a.queueing > 0) ||
      (a.state == Running && a.retrying > 0)) &&
    (a.exec > 0 ==> a.state == Running) &&
    (a.retry + a.hauled > 0 ==> a.state == Retry || (a.state == Running && a.retrying > 0)) &&
    (a.dead > 0 ==> a.state == Failed || a.burying > 0) &&
    (a.succ > 0 ==> a.state == Success)
  }

  /** Timely late writes are enough: then SUCCESS, too, always finds RUNNING. */
  lemma TimelyIsGuarded(a: Life, m: Move)
    requires Sane(a) && Fits(a) && Can(a, m) && Timely(a, m)
    ensures Guard(a, m) && Fits(Do(a, m))
  {
  }

  /** No process has anything left to do for the job. */
  predicate Idle(a: Life) {
    a.announcing + a.queueing + a.front + a.exec + a.hauled + a.retrying + a.burying == 0
  }

  /** The state says where the message lies. */
  predicate Settled(a: Life) {
    (a.main > 0 ==> a.state in {Queued, Retry}) && (a.retry > 0 ==> a.state == Retry) &&
    (a.dead > 0 ==> a.state == Failed) && (a.succ > 0 ==> a.state == Success)
  }

  // ----- one process at a time -----

  /** At most one process has something left to do for the job. */
  predicate Solo(a: Life) {
    a.announcing + a.queueing + a.front + a.exec + a.hauled + a.retrying + a.burying <= 1
  }

  /** What one process at a time adds: its own late write finds what it left. */
  predicate Alone(a: Life) {
    (a.queueing > 0 ==> a.state == Accepted) && (a.retrying > 0 ==> a.state == Running && a.retry == 1)
  }

  lemma SoloIsTimely(a: Life, m: Move)
    requires Sane(a) && Fits(a) && Alone(a) && Can(a, m) && Solo(a) && Solo(Do(a, m))
    ensures Timely(a, m) && Alone(Do(a, m))
  {
  }

  /** Once nothing is on its way and nobody has anything left to write, no move is possible. */
  lemma NothingMoves(a: Life, m: Move)
    requires Idle(a) && a.main + a.retry == 0 && Can(a, m)
    ensures m == Stay
  {
  }

  /** At most one worker has the job in hand. */
  predicate OneHolder(a: Life) {
    a.front + a.exec + a.retrying + a.burying <= 1
  }

  /** A recorded success does not read RETRY, and no RETRY is still to be written over it. */
  predicate NotHidden(a: Life) {
    a.succ > 0 ==> a.retrying == 0 && a.state != Retry
  }

  lemma OneHolderHidesNothing(a: Life, m: Move)
    requires Sane(a) && OneHolder(a) && NotHidden(a) && Can(a, m)
    ensures NotHidden(Do(a, m))
  {
  }
}
