/** What holds of recording in every reachable state, for every interleaving. */
module RecordSafety {
  import opened Messages
  import opened ObjectKey
  import opened RecordJobs
  import opened RecordWorker
  import opened RecordSystem

  // ---------- a request arrives, time passes ----------

  lemma AskKeeps(cfg: Config, s: Sys, m: Letter)
    requires Inv(cfg, s) && !IsReport(m)
    ensures Inv(cfg, s.(box := s.box + [m]))
  {
    forall id ensures MailedAt(s.workers, s.history, s.box + [m], id) {
      MailAppend(s.box, [m], id);
      assert Mail([m], id) == [] && MailedAt(s.workers, s.history, s.box, id);
    }
  }

  lemma TickKeeps(cfg: Config, s: Sys, now: Time)
    requires Inv(cfg, s) && s.now <= now
    ensures Inv(cfg, s.(now := now))
  {
    forall id ensures MannedAt(cfg.worker, s.workers, now, id) {
      assert MannedAt(cfg.worker, s.workers, s.now, id);
      if id in s.workers {
        TimePasses(cfg.worker, s.workers[id], s.now, now);
      }
    }
  }

  // ---------- a goroutine steps ----------

  lemma MailOfTail(w: Worker, v: Worker, id: string)
    requires Grown(w.sent, v.sent, LetterOf(w.job.id))
    ensures Mail(Tail(w.sent, v.sent), id) == if id == w.job.id then Tail(w.sent, v.sent) else []
  {
    var tail := Tail(w.sent, v.sent);
    if v.sent != w.sent {
      assert tail == [v.sent[|w.sent|]];
    }
  }

  lemma CallsOfTail(w: Worker, v: Worker, id: string)
    requires Grown(w.events, v.events, EventOf(w.job.id))
    ensures Calls(Tail(w.events, v.events), id) == if id == w.job.id then Tail(w.events, v.events) else []
  {
    var tail := Tail(w.events, v.events);
    if v.events != w.events {
      assert tail == [v.events[|w.events|]];
    }
  }

  lemma InStepAfterSend(mail: seq<Letter>, w: Worker, v: Worker, job: Job)
    requires InStep(mail, w, job) && v.job == w.job && Grown(w.sent, v.sent, LetterOf(w.job.id))
    ensures InStep(mail + Tail(w.sent, v.sent), v, job)
  {
    var k := |w.sent| - |mail|;
    assert v.sent == w.sent + Tail(w.sent, v.sent);
    assert v.sent[..k] == w.sent[..k];
  }

  lemma WorkKeepsMail(workers: map<string, Worker>, history: Table, box: seq<Letter>, id: string, v: Worker)
    requires Mailed(workers, history, box) && id in workers && workers[id].job.id == id && v.job == workers[id].job
    requires Grown(workers[id].sent, v.sent, LetterOf(id))
    ensures Mailed(workers[id := v], history, box + Tail(workers[id].sent, v.sent))
  {
    var w := workers[id];
    var tail := Tail(w.sent, v.sent);
    var hands, mailbox := workers[id := v], box + tail;
    forall j ensures MailedAt(hands, history, mailbox, j) {
      assert MailedAt(workers, history, box, j);
      MailAppend(box, tail, j);
      MailOfTail(w, v, j);
      if j == id {
        InStepAfterSend(Mail(box, id), w, v, history[id]);
      } else {
        assert Mail(box, j) + [] == Mail(box, j);
      }
    }
  }

  lemma WorkKeepsLog(workers: map<string, Worker>, store: seq<Event>, id: string, v: Worker)
    requires Logged(workers, store) && id in workers && workers[id].job.id == id
    requires Grown(workers[id].events, v.events, EventOf(id))
    ensures Logged(workers[id := v], store + Tail(workers[id].events, v.events))
  {
    var w := workers[id];
    var tail := Tail(w.events, v.events);
    var hands, log := workers[id := v], store + tail;
    assert v.events == w.events + tail;
    forall j ensures LoggedAt(hands, log, j) {
      assert LoggedAt(workers, store, j);
      CallsAppend(store, tail, j);
      CallsOfTail(w, v, j);
      assert Calls(store, j) + [] == Calls(store, j);
    }
  }

  lemma WorkKeepsHands(naming: Naming, workers: map<string, Worker>, now: Time, id: string, v: Worker)
    requires Manned(naming, workers, now) && v.job.id == id && WellBehaved(naming, v, now)
    ensures Manned(naming, workers[id := v], now)
  {
    var hands := workers[id := v];
    forall j ensures MannedAt(naming, hands, now, j) {
      assert MannedAt(naming, workers, now, j);
    }
  }

  lemma Behaves(naming: Naming, workers: map<string, Worker>, now: Time, id: string)
    requires Manned(naming, workers, now) && id in workers
    ensures workers[id].job.id == id && WellBehaved(naming, workers[id], now) && now > ZERO
    ensures workers[id].phase.Report? ==> LetterOf(id)(workers[id].phase.letter)
  {
    assert MannedAt(naming, workers, now, id);
  }

  lemma WorkKeeps(cfg: Config, s: Sys, id: string, world: World)
    requires Inv(cfg, s) && Enabled(s, Work(id, world))
    ensures Inv(cfg, Worked(s, id, Next(cfg.worker, s.workers[id], s.now, world)))
  {
    var w := s.workers[id];
    var v := Next(cfg.worker, w, s.now, world);
    Behaves(cfg.worker, s.workers, s.now, id);
    NextAppends(cfg.worker, w, s.now, world);
    NextBehaves(cfg.worker, w, s.now, world);
    WorkKeepsMail(s.workers, s.history, s.box, id, v);
    WorkKeepsLog(s.workers, s.store, id, v);
    WorkKeepsHands(cfg.worker, s.workers, s.now, id, v);
  }

  // ---------- the actor handles a message ----------

  lemma MailHead(box: seq<Letter>, id: string)
    requires box != []
    ensures Mail(box, id) == (if IsReport(box[0]) && box[0].jobId == id then [box[0]] else []) + Mail(box[1..], id)
  {}

  /** A report in the mailbox is about a job that has not ended, so it is still in the table. */
  lemma ReportFindsItsJob(cfg: Config, s: Sys)
    requires Inv(cfg, s) && s.box != [] && IsReport(s.box[0])
    ensures var id := s.box[0].jobId;
            id in s.workers && id in s.history && IsActive(s.history[id]) && id in s.jobs
  {
    var id := s.box[0].jobId;
    MailHead(s.box, id);
    assert MailedAt(s.workers, s.history, s.box, id);
    Behaves(cfg.worker, s.workers, s.now, id);
    Standing(cfg.worker, Mail(s.box, id), s.workers[id], s.history[id], s.now);
  }

  lemma InStepAfterReport(mail: seq<Letter>, w: Worker, job: Job)
    requires mail != [] && InStep(mail, w, job)
    ensures InStep(mail[1..], w, Reported(job, mail[0]))
  {
    var k := |w.sent| - |mail|;
    assert mail[0] == w.sent[k];
    assert w.sent[..k + 1][..k] == w.sent[..k];
    assert mail[1..] == w.sent[k + 1..];
  }

  lemma RequestLeavesMail(workers: map<string, Worker>, history: Table, box: seq<Letter>)
    requires Mailed(workers, history, box) && box != [] && !IsReport(box[0])
    ensures Mailed(workers, history, box[1..])
  {
    forall id ensures MailedAt(workers, history, box[1..], id) {
      assert MailedAt(workers, history, box, id);
      MailHead(box, id);
      assert [] + Mail(box[1..], id) == Mail(box[1..], id);
    }
  }

  lemma HireKeepsMail(workers: map<string, Worker>, history: Table, box: seq<Letter>, job: Job)
    requires Mailed(workers, history, box) && job.id !in workers
    ensures Mailed(workers[job.id := Spawned(job)], history[job.id := job], box)
  {
    var hands, records := workers[job.id := Spawned(job)], history[job.id := job];
    forall id ensures MailedAt(hands, records, box, id) {
      assert MailedAt(workers, history, box, id);
    }
  }

  lemma ReportKeepsMail(workers: map<string, Worker>, history: Table, box: seq<Letter>)
    requires Mailed(workers, history, box) && box != [] && IsReport(box[0]) && box[0].jobId in history
    ensures Mailed(workers, File(history, box[0]), box[1..])
  {
    var m := box[0];
    forall id ensures MailedAt(workers, File(history, m), box[1..], id) {
      assert MailedAt(workers, history, box, id);
      MailHead(box, id);
      if id == m.jobId {
        assert Mail(box, id)[0] == m && Mail(box, id)[1..] == Mail(box[1..], id);
        InStepAfterReport(Mail(box, id), workers[id], history[id]);
      } else {
        assert [] + Mail(box[1..], id) == Mail(box[1..], id);
      }
    }
  }

  lemma ActiveAfterReport(history: Table, m: Letter)
    requires IsReport(m) && m.jobId in history && IsActive(history[m.jobId])
    ensures Active(File(history, m)) <= Active(history)
  {
    var before, after := ActiveIds(history), ActiveIds(File(history, m));
    if m.JobRunning? {
      assert after == before;
    } else {
      assert after == before - {m.jobId};
    }
  }

  lemma ActiveAfterHire(history: Table, job: Job)
    requires job.id !in history && IsActive(job)
    ensures Active(history[job.id := job]) == Active(history) + 1
  {
    assert ActiveIds(history[job.id := job]) == ActiveIds(history) + {job.id};
  }

  lemma ReceiveReport(cfg: Config, s: Sys, newId: Result<string>)
    requires Inv(cfg, s) && Enabled(s, Receive(newId)) && IsReport(s.box[0])
    ensures Inv(cfg, Apply(cfg, s, Receive(newId)))
  {
    ReportFindsItsJob(cfg, s);
    SameTurn(cfg.limits, s.jobs, s.history, s.box[0], s.now, newId);
    ReportKeepsMail(s.workers, s.history, s.box);
    ActiveAfterReport(s.history, s.box[0]);
  }

  /** Admission adds one goroutine with nothing sent, under an id that no letter or call carries. */
  lemma HireKeeps(cfg: Config, s: Sys, m: Letter, id: string)
    requires m.StartRecord? && id !in s.history
    requires Manned(cfg.worker, s.workers, s.now) && Mailed(s.workers, s.history, s.box) && Logged(s.workers, s.store)
    ensures var job := NewJob(id, m);
            && Manned(cfg.worker, s.workers[id := Spawned(job)], s.now)
            && Mailed(s.workers[id := Spawned(job)], s.history[id := job], s.box)
            && Logged(s.workers[id := Spawned(job)], s.store)
            && Active(s.history[id := job]) == Active(s.history) + 1
  {
    var job := NewJob(id, m);
    assert MailedAt(s.workers, s.history, s.box, id);
    WorkKeepsHands(cfg.worker, s.workers, s.now, id, Spawned(job));
    HireKeepsMail(s.workers, s.history, s.box, job);
    var hands := s.workers[id := Spawned(job)];
    forall j ensures LoggedAt(hands, s.store, j) {
      assert LoggedAt(s.workers, s.store, j);
    }
    ActiveAfterHire(s.history, job);
  }

  lemma ReceiveRequest(cfg: Config, s: Sys, newId: Result<string>)
    requires Inv(cfg, s) && Enabled(s, Receive(newId)) && !IsReport(s.box[0])
    ensures Inv(cfg, Apply(cfg, s, Receive(newId)))
  {
    var m := s.box[0];
    var ideal := Ideal(cfg.limits, s.history, m, s.now, newId);
    SameTurn(cfg.limits, s.jobs, s.history, m, s.now, newId);
    RequestLeavesMail(s.workers, s.history, s.box);
    if ideal.spawned.Some? {
      HireKeeps(cfg, s.(box := s.box[1..]), m, newId.value);
    }
  }

  lemma StepKeeps(cfg: Config, s: Sys, step: Step)
    requires Inv(cfg, s) && Enabled(s, step)
    ensures Inv(cfg, Apply(cfg, s, step))
  {
    match step
    case Ask(m) => AskKeeps(cfg, s, m);
    case Receive(newId) =>
      if IsReport(s.box[0]) { ReceiveReport(cfg, s, newId); } else { ReceiveRequest(cfg, s, newId); }
    case Work(id, world) => WorkKeeps(cfg, s, id, world);
    case Tick(now) => TickKeeps(cfg, s, now);
  }

  lemma {:induction false} Reachable(cfg: Config, steps: seq<Step>)
    requires cfg.limits.maxConcurrentJobs >= 0 && Runs(cfg, steps)
    ensures Inv(cfg, After(cfg, steps))
    decreases |steps|
  {
    if steps != [] {
      Reachable(cfg, steps[..|steps| - 1]);
      StepKeeps(cfg, After(cfg, steps[..|steps| - 1]), steps[|steps| - 1]);
    } else {
      assert ActiveIds(map[]) == {};
    }
  }
}
