/**
 * Recording as a whole: the actor with its FIFO mailbox, one goroutine per admitted job, and beside them
 * a history that is never pruned, kept by the rules one would write down without a retention time.
 */
module RecordSystem {
  import opened Messages
  import opened RecordJobs
  import opened RecordWorker

  datatype Config = Config(limits: Limits, worker: Naming)

  datatype Sys = Sys(
    now: Time,
    jobs: Table,
    box: seq<Letter>,
    workers: map<string, Worker>,
    replies: seq<Reply>,
    // History; neither the actor nor a goroutine reads it.
    history: Table,
    expected: seq<Reply>,
    store: seq<Event>)

  /** The clock starts at any later instant by a `Tick`. */
  const INITIAL := Sys(1, map[], [], map[], [], map[], [], [])

  datatype Step =
    | Ask(m: Letter)                      // a request of the HTTP server
    | Receive(newId: Result<string>)      // the actor handles its next message
    | Work(id: string, world: World)      // one step of one goroutine
    | Tick(now: Time)

  /** Job ids are fresh, and the clock does not go backwards. */
  predicate Enabled(s: Sys, step: Step)
  {
    match step
    case Ask(m) => !IsReport(m)
    case Receive(newId) => s.box != [] && (newId.Ok? ==> newId.value !in s.history)
    case Work(id, _) => id in s.workers && s.workers[id].phase != Finished
    case Tick(now) => s.now <= now
  }

  /** What an actor that never deletes a job would do; it hides expired jobs only from those who ask. */
  function Ideal(limits: Limits, history: Table, m: Letter, now: Time, newId: Result<string>): Turn
  {
    match m
    case StartRecord(_, _, _, _) => Admit(limits, history, m, newId)
    case GetRecordJob(id) =>
      var hidden := id in history && Expired(history[id], now, limits.retention);
      Turn(history, Some(if hidden then NotFound(404, id, "record job not found") else Lookup(history, id)), None)
    case _ => Turn(File(history, m), None, None)
  }

  function Joined(replies: seq<Reply>, reply: Option<Reply>): seq<Reply>
  {
    if reply.Some? then replies + [reply.value] else replies
  }

  function Hired(workers: map<string, Worker>, spawned: Option<Job>): map<string, Worker>
  {
    if spawned.Some? then workers[spawned.value.id := Spawned(spawned.value)] else workers
  }

  function Apply(cfg: Config, s: Sys, step: Step): Sys
    requires Enabled(s, step)
  {
    match step
    case Ask(m) => s.(box := s.box + [m])
    case Receive(newId) =>
      var turn := Handle(cfg.limits, s.jobs, s.box[0], s.now, newId);
      var ideal := Ideal(cfg.limits, s.history, s.box[0], s.now, newId);
      s.(jobs := turn.jobs, box := s.box[1..], workers := Hired(s.workers, turn.spawned),
         replies := Joined(s.replies, turn.reply), history := ideal.jobs, expected := Joined(s.expected, ideal.reply))
    case Work(id, world) => Worked(s, id, Next(cfg.worker, s.workers[id], s.now, world))
    case Tick(now) => s.(now := now)
  }

  function Worked(s: Sys, id: string, v: Worker): Sys
    requires id in s.workers
  {
    s.(workers := s.workers[id := v],
       box := s.box + Tail(s.workers[id].sent, v.sent),
       store := s.store + Tail(s.workers[id].events, v.events))
  }

  /** What `after` has beyond `before`. */
  function Tail<T>(before: seq<T>, after: seq<T>): seq<T>
  {
    if |before| <= |after| then after[|before|..] else []
  }

  predicate Runs(cfg: Config, steps: seq<Step>)
    decreases |steps|, 0
  {
    steps == [] ||
    (Runs(cfg, steps[..|steps| - 1]) && Enabled(After(cfg, steps[..|steps| - 1]), steps[|steps| - 1]))
  }

  function After(cfg: Config, steps: seq<Step>): Sys
    requires Runs(cfg, steps)
    decreases |steps|, 1
  {
    if steps == [] then INITIAL
    else Apply(cfg, After(cfg, steps[..|steps| - 1]), steps[|steps| - 1])
  }

  // ---------- the invariant ----------

  function Mail(box: seq<Letter>, id: string): seq<Letter>
  {
    if box == [] then []
    else (if IsReport(box[0]) && box[0].jobId == id then [box[0]] else []) + Mail(box[1..], id)
  }

  function Calls(store: seq<Event>, id: string): seq<Event>
  {
    if store == [] then []
    else (if store[0].jobId == id then [store[0]] else []) + Calls(store[1..], id)
  }

  /** A job's record after some reports. */
  function Told(job: Job, letters: seq<Letter>): Job
  {
    if letters == [] then job
    else Reported(Told(job, letters[..|letters| - 1]), letters[|letters| - 1])
  }

  /** What lies in the mailbox is the end of what was sent; the record reflects the rest. */
  predicate InStep(mail: seq<Letter>, w: Worker, job: Job)
  {
    && |mail| <= |w.sent|
    && mail == w.sent[|w.sent| - |mail|..]
    && job == Told(w.job, w.sent[..|w.sent| - |mail|])
  }

  /** The table is the history without jobs that have expired by now. */
  ghost predicate Remembers(limits: Limits, jobs: Table, history: Table, now: Time)
  {
    && (forall id :: id in jobs ==> id in history && jobs[id] == history[id])
    && (forall id :: id in history && id !in jobs ==> Expired(history[id], now, limits.retention))
  }

  /** The goroutine of a known job behaves; there is one for each job ever admitted. */
  predicate MannedAt(naming: Naming, workers: map<string, Worker>, now: Time, id: string)
  {
    id in workers ==> workers[id].job.id == id && WellBehaved(naming, workers[id], now)
  }

  predicate MailedAt(workers: map<string, Worker>, history: Table, box: seq<Letter>, id: string)
  {
    if id in workers then id in history && InStep(Mail(box, id), workers[id], history[id])
    else id !in history && Mail(box, id) == []
  }

  predicate LoggedAt(workers: map<string, Worker>, store: seq<Event>, id: string)
  {
    Calls(store, id) == if id in workers then workers[id].events else []
  }

  ghost predicate Manned(naming: Naming, workers: map<string, Worker>, now: Time)
  {
    now > ZERO && forall id :: MannedAt(naming, workers, now, id)
  }

  ghost predicate Mailed(workers: map<string, Worker>, history: Table, box: seq<Letter>)
  {
    forall id :: MailedAt(workers, history, box, id)
  }

  ghost predicate Logged(workers: map<string, Worker>, store: seq<Event>)
  {
    forall id :: LoggedAt(workers, store, id)
  }

  ghost predicate Inv(cfg: Config, s: Sys)
  {
    && Remembers(cfg.limits, s.jobs, s.history, s.now)
    && Manned(cfg.worker, s.workers, s.now)
    && Mailed(s.workers, s.history, s.box)
    && Logged(s.workers, s.store)
    && Active(s.history) <= cfg.limits.maxConcurrentJobs
  }

  // ---------- mail and calls ----------

  lemma {:induction false} MailAppend(a: seq<Letter>, b: seq<Letter>, id: string)
    ensures Mail(a + b, id) == Mail(a, id) + Mail(b, id)
  {
    if a == [] {
      assert a + b == b;
    } else {
      var c := a + b;
      assert c[0] == a[0] && c[1..] == a[1..] + b;
      MailAppend(a[1..], b, id);
      assert Mail(c, id) == (if IsReport(a[0]) && a[0].jobId == id then [a[0]] else []) + Mail(a[1..] + b, id);
    }
  }

  lemma {:induction false} CallsAppend(a: seq<Event>, b: seq<Event>, id: string)
    ensures Calls(a + b, id) == Calls(a, id) + Calls(b, id)
  {
    if a == [] {
      assert a + b == b;
    } else {
      var c := a + b;
      assert c[0] == a[0] && c[1..] == a[1..] + b;
      CallsAppend(a[1..], b, id);
      assert Calls(c, id) == (if a[0].jobId == id then [a[0]] else []) + Calls(a[1..] + b, id);
    }
  }

  /** Where a job stands for a goroutine that behaves and mail that is in step. */
  lemma Standing(naming: Naming, mail: seq<Letter>, w: Worker, job: Job, now: Time)
    requires WellBehaved(naming, w, now) && InStep(mail, w, job)
    ensures job.status == Accepted <==> |w.sent| - |mail| == 0
    ensures job.status == Running <==> |w.sent| - |mail| == 1
    ensures |w.sent| - |mail| == 0 ==> job == w.job
    ensures |w.sent| - |mail| == 1 ==> job == Reported(w.job, w.sent[0])
    ensures |w.sent| - |mail| == 2 ==> job == Reported(Reported(w.job, w.sent[0]), w.sent[1])
    ensures |w.sent| - |mail| == 2 ==> w.phase == Finished && mail == []
  {
    var k := |w.sent| - |mail|;
    assert w.sent[..0] == [];
    if k == 1 {
      assert w.sent[..1][..0] == [];
      assert Told(w.job, w.sent[..1]) == Reported(Told(w.job, []), w.sent[0]);
    } else if k == 2 {
      assert w.sent[..2] == w.sent && w.sent[..2][..1] == w.sent[..1] && w.sent[..1][..0] == [];
      assert Told(w.job, w.sent[..1]) == Reported(Told(w.job, []), w.sent[0]);
      assert Told(w.job, w.sent[..2]) == Reported(Told(w.job, w.sent[..1]), w.sent[1]);
    }
  }

  // ---------- the table and the history ----------

  lemma SameActive(limits: Limits, jobs: Table, history: Table, now: Time)
    requires Remembers(limits, jobs, history, now)
    ensures ActiveIds(jobs) == ActiveIds(history) && Active(jobs) == Active(history)
  {}

  lemma PruneRemembers(limits: Limits, jobs: Table, history: Table, now: Time)
    requires Remembers(limits, jobs, history, now)
    ensures Remembers(limits, Prune(jobs, now, limits.retention), history, now)
    ensures Prune(jobs, now, limits.retention) == Prune(history, now, limits.retention)
  {}

  /** One message: as long as reports only come for jobs still in the table, both actors answer alike. */
  lemma SameTurn(limits: Limits, jobs: Table, history: Table, m: Letter, now: Time, newId: Result<string>)
    requires Remembers(limits, jobs, history, now)
    requires IsReport(m) && m.jobId in history ==> m.jobId in jobs
    requires newId.Ok? ==> newId.value !in history
    ensures var turn := Handle(limits, jobs, m, now, newId); var ideal := Ideal(limits, history, m, now, newId);
            && turn.reply == ideal.reply && turn.spawned == ideal.spawned
            && Remembers(limits, turn.jobs, ideal.jobs, now)
  {
    PruneRemembers(limits, jobs, history, now);
    SameActive(limits, Prune(jobs, now, limits.retention), history, now);
  }
}
