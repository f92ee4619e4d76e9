/** The goroutine of one recording: `executeRecord` as a step machine, and as the sequential code it is. */
module RecordWorker {
  import opened Messages
  import opened RecordJobs
  import opened ObjectKey

  const CONTENT_TYPE := "video/mp4"

  /** The bodycam document of a device. */
  datatype Info = Info(process: string, site: string, group: string)

  type UTC = t: Stamp | t.Valid() witness Stamp(0, 0, 0, 0, 0, 0)

  /** How instants read in UTC, and `normalizeBucketName`. */
  datatype Naming = Naming(utc: Time -> UTC, bucketOf: string -> Result<string>)

  /**
   * The answers of MongoDB, of go2rtc, and of MinIO's two calls to whatever they are asked; a timeout is an
   * error of the call it hits.
   */
  datatype World = World(
    info: string -> Result<Info>,                // by device
    fetch: (string, int, string) -> Result<()>,  // by camera, whole seconds and file name
    ensure: string -> Result<()>,                // by bucket
    put: (string, string, string) -> Result<()>) // by bucket, object key and content type

  /** Nanoseconds. */
  const SECOND: Duration := 1_000_000_000

  /** A duration as go2rtc is asked for it, rounded up. */
  function WholeSeconds(d: Duration): (n: int)
    ensures (n - 1) * SECOND < d <= n * SECOND
  {
    (d + SECOND - 1) / SECOND
  }

  /** Calls of the object store that succeeded. */
  datatype Event =
    | Ensured(jobId: string, bucket: string)
    | Stored(jobId: string, bucket: string, objectKey: string, contentType: string)

  /** Where the goroutine is: the next thing it does is what the phase is named after. */
  datatype Phase =
    | Start
    | Announce(startedAt: Time)
    | LookUp(startedAt: Time)
    | Fetch(startedAt: Time, bucket: string, objectKey: string, filename: string)
    | Ensure(startedAt: Time, bucket: string, objectKey: string)
    | Put(startedAt: Time, bucket: string, objectKey: string)
    | Report(letter: Letter)
    | Finished

  /** `sent`, `events` and `info` are what the goroutine has sent, achieved and looked up so far. */
  datatype Worker = Worker(job: Job, phase: Phase, sent: seq<Letter>, events: seq<Event>, info: Option<Info>)

  function Spawned(job: Job): Worker { Worker(job, Start, [], [], None) }

  function Fail(w: Worker, text: ErrorText, now: Time): Worker
  {
    w.(phase := Report(JobFailed(w.job.id, text, now)))
  }

  /** One step: a look at the clock, a foreign call with the pure work that follows it, or a send. */
  function Next(cfg: Naming, w: Worker, now: Time, world: World): Worker
    requires w.phase != Finished
  {
    match w.phase
    case Start => w.(phase := Announce(now))
    case Announce(t) => w.(phase := LookUp(t), sent := w.sent + [JobRunning(w.job.id, t)])
    case LookUp(t) =>
      (match world.info(w.job.mac)
       case Err(text) => Fail(w, text, now)
       case Ok(info) => Prepare(cfg, w.(info := Some(info)), t, info, now))
    case Fetch(t, bucket, objectKey, filename) =>
      (match world.fetch(w.job.camId, WholeSeconds(w.job.duration), filename)
       case Err(text) => Fail(w, text, now)
       case Ok(_) => w.(phase := Ensure(t, bucket, objectKey)))
    case Ensure(t, bucket, objectKey) =>
      (match world.ensure(bucket)
       case Err(text) => Fail(w, text, now)
       case Ok(_) => w.(phase := Put(t, bucket, objectKey), events := w.events + [Ensured(w.job.id, bucket)]))
    case Put(t, bucket, objectKey) =>
      (match world.put(bucket, objectKey, CONTENT_TYPE)
       case Err(text) => Fail(w, text, now)
       case Ok(_) => w.(phase := Report(JobCompleted(w.job.id, bucket, objectKey, CONTENT_TYPE, now)),
                        events := w.events + [Stored(w.job.id, bucket, objectKey, CONTENT_TYPE)]))
    case Report(letter) => w.(phase := Finished, sent := w.sent + [letter])
  }

  function Prepare(cfg: Naming, w: Worker, startedAt: Time, info: Info, now: Time): Worker
  {
    Prepared(w, startedAt, cfg.bucketOf(info.process),
             Build(info.site, info.group, w.job.camId, w.job.recordType, cfg.utc(startedAt)), now)
  }

  /** The bucket's error comes before the key's. */
  function Prepared(w: Worker, startedAt: Time, bucket: Result<string>, key: Result<Key>, now: Time): Worker
  {
    match bucket
    case Err(text) => Fail(w, text, now)
    case Ok(name) =>
      match key
      case Err(text) => Fail(w, text, now)
      case Ok(built) => w.(phase := Fetch(startedAt, name, built.objectKey, built.filename))
  }

  /** How many steps the goroutine still takes at most. */
  function StepsLeft(w: Worker): nat
  {
    match w.phase
    case Start => 7
    case Announce(_) => 6
    case LookUp(_) => 5
    case Fetch(_, _, _, _) => 4
    case Ensure(_, _, _) => 3
    case Put(_, _, _) => 2
    case Report(_) => 1
    case Finished => 0
  }

  /** The goroutine alone from some point on; `clock` gives what its clock shows with so many steps left. */
  function Alone(cfg: Naming, w: Worker, clock: nat -> Time, world: World): (end: Worker)
    ensures end.phase == Finished
    decreases StepsLeft(w)
  {
    if w.phase == Finished then w else Alone(cfg, Next(cfg, w, clock(StepsLeft(w)), world), clock, world)
  }

  lemma ReportedAlone(cfg: Naming, w: Worker, letter: Letter, clock: nat -> Time, world: World)
    ensures var end := Alone(cfg, w.(phase := Report(letter)), clock, world);
            end.sent == w.sent + [letter] && end.events == w.events
  {
    var v := Next(cfg, w.(phase := Report(letter)), clock(1), world);
    assert Alone(cfg, v, clock, world) == v;
  }

  lemma FailedAlone(cfg: Naming, w: Worker, text: ErrorText, now: Time, clock: nat -> Time, world: World)
    ensures var end := Alone(cfg, Fail(w, text, now), clock, world);
            end.sent == w.sent + [JobFailed(w.job.id, text, now)] && end.events == w.events
  {
    ReportedAlone(cfg, w, JobFailed(w.job.id, text, now), clock, world);
  }

  /** The first two steps: the start is read from the clock and announced. */
  lemma AnnouncedAlone(cfg: Naming, job: Job, clock: nat -> Time, world: World)
    ensures Alone(cfg, Spawned(job), clock, world) ==
            Alone(cfg, Worker(job, LookUp(clock(7)), [JobRunning(job.id, clock(7))], [], None), clock, world)
  {
    var announcing := Spawned(job).(phase := Announce(clock(7)));
    assert Alone(cfg, Spawned(job), clock, world) == Alone(cfg, announcing, clock, world);
    assert [] + [JobRunning(job.id, clock(7))] == [JobRunning(job.id, clock(7))];
  }

  // ---------- what the answers make of a recording ----------

  /** A look outside: what the clock shows, and what each foreign call would answer. */
  datatype Look = Look(now: Time, world: World)

  /** Steps at which the goroutine looks outside; the others only send. */
  predicate Looks(phase: Phase) { !phase.Announce? && !phase.Report? && !phase.Finished? }

  function TextOf<T>(answer: Result<T>): Option<ErrorText>
  {
    if answer.Err? then Some(answer.text) else None
  }

  /** Where a recording goes: the bucket, the key in it, and the file name go2rtc is told. */
  datatype Place = Place(bucket: string, objectKey: string, filename: string)

  /** What the answer about its document makes of a recording that was started at `startedAt`. */
  function PlaceFor(cfg: Naming, job: Job, startedAt: Time, info: Result<Info>): Result<Place>
  {
    if info.Err? then Err(info.text)
    else if cfg.bucketOf(info.value.process).Err? then Err(cfg.bucketOf(info.value.process).text)
    else match Build(info.value.site, info.value.group, job.camId, job.recordType, cfg.utc(startedAt))
      case Err(text) => Err(text)
      case Ok(key) => Ok(Place(cfg.bucketOf(info.value.process).value, key.objectKey, key.filename))
  }

  /** The document's own error comes first, then its bucket's, then that of the first blank part of the key. */
  lemma PlaceIsExact(cfg: Naming, job: Job, startedAt: Time, info: Result<Info>)
    ensures PlaceFor(cfg, job, startedAt, info).Ok? <==>
            && info.Ok? && cfg.bucketOf(info.value.process).Ok?
            && !Blank(info.value.site) && !Blank(info.value.group) && !Blank(job.camId)
    ensures var place := PlaceFor(cfg, job, startedAt, info);
            place.Err? ==>
              place.text == if info.Err? then info.text
                            else if cfg.bucketOf(info.value.process).Err? then cfg.bucketOf(info.value.process).text
                            else (if Blank(info.value.site) then "site"
                                  else if Blank(info.value.group) then "group" else "cam_id")
                                 + " is required for record object key"
  {
    if info.Ok? {
      BlankFieldIsNamed(info.value.site, info.value.group, job.camId, job.recordType, cfg.utc(startedAt));
    }
  }

  /**
   * The error of the look `k`: the first reads the start, then come document, stream, bucket and object, each
   * asked for as the earlier looks require.
   */
  function ErrorAt(cfg: Naming, job: Job, looks: seq<Look>, k: nat): Option<ErrorText>
    requires k < |looks|
  {
    if k == 0 || k > 4 then None
    else
      var place := PlaceFor(cfg, job, looks[0].now, looks[1].world.info(job.mac));
      if k == 1 || place.Err? then TextOf(place)
      else if k == 2 then TextOf(looks[2].world.fetch(job.camId, WholeSeconds(job.duration), place.value.filename))
      else if k == 3 then TextOf(looks[3].world.ensure(place.value.bucket))
      else TextOf(looks[4].world.put(place.value.bucket, place.value.objectKey, CONTENT_TYPE))
  }

  /** The first `n` looks were made without an error. */
  predicate Well(cfg: Naming, job: Job, looks: seq<Look>, n: nat)
  {
    n <= |looks| && forall k: nat :: k < n ==> ErrorAt(cfg, job, looks, k).None?
  }

  function DocumentFor(cfg: Naming, job: Job, looks: seq<Look>): Info
    requires Well(cfg, job, looks, 2)
  {
    assert ErrorAt(cfg, job, looks, 1).None?;
    looks[1].world.info(job.mac).value
  }

  function ChosenPlace(cfg: Naming, job: Job, looks: seq<Look>): Place
    requires Well(cfg, job, looks, 2)
  {
    assert ErrorAt(cfg, job, looks, 1).None?;
    PlaceFor(cfg, job, looks[0].now, looks[1].world.info(job.mac)).value
  }

  function BucketFor(cfg: Naming, job: Job, looks: seq<Look>): string
    requires Well(cfg, job, looks, 2)
  {
    ChosenPlace(cfg, job, looks).bucket
  }

  function KeyFor(cfg: Naming, job: Job, looks: seq<Look>): string
    requires Well(cfg, job, looks, 2)
  {
    ChosenPlace(cfg, job, looks).objectKey
  }

  /**
   * The end that the looks earn: failure with text and time of the look that failed, or completion at the
   * last of five looks if none did.
   */
  predicate Earned(cfg: Naming, job: Job, looks: seq<Look>, end: Letter)
  {
    var last := |looks| - 1;
    match end
    case JobFailed(id, error, completedAt) =>
      && 1 <= last && Well(cfg, job, looks, last) && ErrorAt(cfg, job, looks, last) == Some(error)
      && id == job.id && completedAt == looks[last].now
    case JobCompleted(_, _, _, _, _) =>
      && last == 4 && Well(cfg, job, looks, 5)
      && end == JobCompleted(job.id, BucketFor(cfg, job, looks), KeyFor(cfg, job, looks), CONTENT_TYPE, looks[4].now)
    case _ => false
  }

  /** The store calls that the looks let succeed. */
  function CallsOf(cfg: Naming, job: Job, looks: seq<Look>): seq<Event>
  {
    if !Well(cfg, job, looks, 4) then [] else
    [Ensured(job.id, BucketFor(cfg, job, looks))]
    + (if Well(cfg, job, looks, 5)
       then [Stored(job.id, BucketFor(cfg, job, looks), KeyFor(cfg, job, looks), CONTENT_TYPE)] else [])
  }

  /** A goroutine that has bucket and key and goes on. */
  predicate OnItsWay(cfg: Naming, w: Worker, looks: seq<Look>, n: nat)
  {
    && (w.phase.Fetch? || w.phase.Ensure? || w.phase.Put?)
    && 2 <= |looks| == n && Well(cfg, w.job, looks, n) && w.phase.startedAt == looks[0].now
    && w.phase.bucket == BucketFor(cfg, w.job, looks) && w.phase.objectKey == KeyFor(cfg, w.job, looks)
    && (w.phase.Fetch? ==> w.phase.filename == ChosenPlace(cfg, w.job, looks).filename)
    && w.info == Some(DocumentFor(cfg, w.job, looks))
  }

  /** Where the looks so far have brought a goroutine. */
  predicate Fits(cfg: Naming, w: Worker, looks: seq<Look>)
  {
    && w.events == CallsOf(cfg, w.job, looks)
    && (looks != [] && !w.phase.Announce? ==> w.sent != [] && w.sent[0] == JobRunning(w.job.id, looks[0].now))
    && match w.phase
       case Start => looks == [] && w.sent == []
       case Announce(t) => |looks| == 1 && t == looks[0].now && w.sent == []
       case LookUp(t) => |looks| == 1 && t == looks[0].now && |w.sent| == 1
       case Fetch(_, _, _, _) => OnItsWay(cfg, w, looks, 2) && |w.sent| == 1
       case Ensure(_, _, _) => OnItsWay(cfg, w, looks, 3) && |w.sent| == 1
       case Put(_, _, _) => OnItsWay(cfg, w, looks, 4) && |w.sent| == 1
       case Report(end) => |looks| > 1 && Earned(cfg, w.job, looks, end) && |w.sent| == 1
       case Finished => |looks| > 1 && |w.sent| == 2 && Earned(cfg, w.job, looks, w.sent[1])
  }

  /** The looks after one more step. */
  function LooksAfter(w: Worker, looks: seq<Look>, now: Time, world: World): seq<Look>
  {
    if Looks(w.phase) then looks + [Look(now, world)] else looks
  }

  lemma WellLonger(cfg: Naming, job: Job, looks: seq<Look>, look: Look, n: nat)
    requires n <= |looks|
    ensures Well(cfg, job, looks + [look], n) == Well(cfg, job, looks, n)
    ensures n == |looks| ==>
              (Well(cfg, job, looks + [look], n + 1) <==>
               Well(cfg, job, looks, n) && ErrorAt(cfg, job, looks + [look], n).None?)
  {
    assert forall k: nat :: k < n ==> ErrorAt(cfg, job, looks + [look], k) == ErrorAt(cfg, job, looks, k);
  }

  lemma NextFits(cfg: Naming, w: Worker, looks: seq<Look>, now: Time, world: World)
    requires Fits(cfg, w, looks) && w.phase != Finished
    ensures Fits(cfg, Next(cfg, w, now, world), LooksAfter(w, looks, now, world))
  {
    match w.phase
    case LookUp(_) => LookUpFits(cfg, w, looks, now, world);
    case Fetch(_, _, _, _) => CallFits(cfg, w, looks, now, world);
    case Ensure(_, _, _) => CallFits(cfg, w, looks, now, world);
    case Put(_, _, _) => CallFits(cfg, w, looks, now, world);
    case _ =>
  }

  lemma LookUpFits(cfg: Naming, w: Worker, looks: seq<Look>, now: Time, world: World)
    requires Fits(cfg, w, looks) && w.phase.LookUp?
    ensures Fits(cfg, Next(cfg, w, now, world), looks + [Look(now, world)])
  {
    var look := Look(now, world);
    WellLonger(cfg, w.job, looks, look, 1);
    assert Well(cfg, w.job, looks, 1);
    assert (looks + [look])[0] == looks[0] && (looks + [look])[1] == look;
    LookUpIs(cfg, w, now, world);
    if PlaceFor(cfg, w.job, looks[0].now, world.info(w.job.mac)).Err? {
      assert !Well(cfg, w.job, looks + [look], 4);
    }
  }

  lemma LookUpIs(cfg: Naming, w: Worker, now: Time, world: World)
    requires w.phase.LookUp?
    ensures var v, info := Next(cfg, w, now, world), world.info(w.job.mac);
            && v.job == w.job && v.sent == w.sent && v.events == w.events
            && match PlaceFor(cfg, w.job, w.phase.startedAt, info)
               case Err(text) => v.phase == Report(JobFailed(w.job.id, text, now))
               case Ok(place) =>
                 && v.phase == Fetch(w.phase.startedAt, place.bucket, place.objectKey, place.filename)
                 && info.Ok? && v.info == Some(info.value)
  {}

  /** Later looks do not change the place. */
  lemma SamePlace(cfg: Naming, job: Job, looks: seq<Look>, look: Look)
    requires Well(cfg, job, looks, 2)
    ensures Well(cfg, job, looks + [look], 2)
    ensures ChosenPlace(cfg, job, looks + [look]) == ChosenPlace(cfg, job, looks)
    ensures DocumentFor(cfg, job, looks + [look]) == DocumentFor(cfg, job, looks)
  {
    WellLonger(cfg, job, looks, look, 2);
  }

  /** The answer to the call that the goroutine makes next. */
  function Answer(w: Worker, world: World): Result<()>
    requires w.phase.Fetch? || w.phase.Ensure? || w.phase.Put?
  {
    match w.phase
    case Fetch(_, _, _, filename) => world.fetch(w.job.camId, WholeSeconds(w.job.duration), filename)
    case Ensure(_, bucket, _) => world.ensure(bucket)
    case Put(_, bucket, objectKey) => world.put(bucket, objectKey, CONTENT_TYPE)
  }

  lemma CallError(cfg: Naming, w: Worker, looks: seq<Look>, look: Look)
    requires OnItsWay(cfg, w, looks, if w.phase.Fetch? then 2 else if w.phase.Ensure? then 3 else 4)
    ensures ErrorAt(cfg, w.job, looks + [look], |looks|) == TextOf(Answer(w, look.world))
  {
    SamePlace(cfg, w.job, looks, look);
    assert ErrorAt(cfg, w.job, looks, 1).None?;
    assert (looks + [look])[..2] == looks[..2];
  }

  lemma CallFits(cfg: Naming, w: Worker, looks: seq<Look>, now: Time, world: World)
    requires Fits(cfg, w, looks) && (w.phase.Fetch? || w.phase.Ensure? || w.phase.Put?)
    ensures Fits(cfg, Next(cfg, w, now, world), looks + [Look(now, world)])
  {
    var look := Look(now, world);
    SamePlace(cfg, w.job, looks, look);
    CallError(cfg, w, looks, look);
    if Answer(w, world).Err? {
      CallFails(cfg, w, looks, look, Answer(w, world).text);
    } else {
      CallSucceeds(cfg, w, looks, look);
    }
  }

  lemma CallFails(cfg: Naming, w: Worker, looks: seq<Look>, look: Look, text: ErrorText)
    requires Fits(cfg, w, looks) && (w.phase.Fetch? || w.phase.Ensure? || w.phase.Put?)
    requires ErrorAt(cfg, w.job, looks + [look], |looks|) == Some(text)
    requires Well(cfg, w.job, looks + [look], 2)
    requires ChosenPlace(cfg, w.job, looks + [look]) == ChosenPlace(cfg, w.job, looks)
    ensures Fits(cfg, Fail(w, text, look.now), looks + [look])
  {
    WellLonger(cfg, w.job, looks, look, |looks|);
    CallsLonger(cfg, w.job, looks, look);
  }

  /** Only a look at the bucket or at the object adds a store call. */
  lemma CallsLonger(cfg: Naming, job: Job, looks: seq<Look>, look: Look)
    requires 2 <= |looks| && Well(cfg, job, looks, |looks|) && Well(cfg, job, looks + [look], 2)
    requires ChosenPlace(cfg, job, looks + [look]) == ChosenPlace(cfg, job, looks)
    ensures var n, place := |looks|, ChosenPlace(cfg, job, looks);
            CallsOf(cfg, job, looks + [look]) == CallsOf(cfg, job, looks) +
              if !(3 <= n <= 4 && Well(cfg, job, looks + [look], n + 1)) then []
              else if n == 3 then [Ensured(job.id, place.bucket)]
              else [Stored(job.id, place.bucket, place.objectKey, CONTENT_TYPE)]
  {
    WellLonger(cfg, job, looks, look, |looks|);
    if |looks| >= 4 { WellLonger(cfg, job, looks, look, 4); }
    if |looks| >= 5 { WellLonger(cfg, job, looks, look, 5); }
  }

  lemma CallSucceeds(cfg: Naming, w: Worker, looks: seq<Look>, look: Look)
    requires Fits(cfg, w, looks) && (w.phase.Fetch? || w.phase.Ensure? || w.phase.Put?)
    requires Answer(w, look.world).Ok? && ErrorAt(cfg, w.job, looks + [look], |looks|).None?
    requires Well(cfg, w.job, looks + [look], 2)
    requires ChosenPlace(cfg, w.job, looks + [look]) == ChosenPlace(cfg, w.job, looks)
    requires DocumentFor(cfg, w.job, looks + [look]) == DocumentFor(cfg, w.job, looks)
    ensures Fits(cfg, Next(cfg, w, look.now, look.world), looks + [look])
  {
    WellLonger(cfg, w.job, looks, look, |looks|);
    CallsLonger(cfg, w.job, looks, look);
  }

  // ---------- `executeRecord` ----------

  /** When one world answers throughout: the first error, and how many steps are left when it is met. */
  function FirstError(cfg: Naming, job: Job, startedAt: Time, world: World): Option<(ErrorText, nat)>
  {
    var place := PlaceFor(cfg, job, startedAt, world.info(job.mac));
    if place.Err? then Some((place.text, 5))
    else
      var Place(bucket, objectKey, filename) := place.value;
      var fetched := world.fetch(job.camId, WholeSeconds(job.duration), filename);
      if fetched.Err? then Some((fetched.text, 4))
      else if world.ensure(bucket).Err? then Some((world.ensure(bucket).text, 3))
      else if world.put(bucket, objectKey, CONTENT_TYPE).Err? then
        Some((world.put(bucket, objectKey, CONTENT_TYPE).text, 2))
      else None
  }

  /** What is sent and stored when one world answers throughout. */
  predicate Executed(cfg: Naming, job: Job, world: World, clock: nat -> Time, sent: seq<Letter>, events: seq<Event>)
  {
    && |sent| == 2 && sent[0] == JobRunning(job.id, clock(7))
    && match FirstError(cfg, job, clock(7), world)
       case Some((text, left)) =>
         && sent[1] == JobFailed(job.id, text, clock(left))
         && |events| == (if left == 2 then 1 else 0)
       case None =>
         var info := world.info(job.mac).value;
         var bucket := cfg.bucketOf(info.process).value;
         var key := Build(info.site, info.group, job.camId, job.recordType, cfg.utc(clock(7))).value.objectKey;
         && sent[1] == JobCompleted(job.id, bucket, key, CONTENT_TYPE, clock(2))
         && events == [Ensured(job.id, bucket), Stored(job.id, bucket, key, CONTENT_TYPE)]
  }

  /** The looks of a goroutine alone: one world, and the clock at so many steps left. */
  ghost predicate Steady(looks: seq<Look>, clock: nat -> Time, world: World)
  {
    |looks| <= 5 && forall i: nat :: i < |looks| ==> looks[i] == Look(clock(if i == 0 then 7 else 6 - i), world)
  }

  lemma {:induction false} AloneFits(cfg: Naming, w: Worker, looks: seq<Look>, clock: nat -> Time, world: World)
    returns (made: seq<Look>)
    requires Fits(cfg, w, looks) && Steady(looks, clock, world)
    ensures Fits(cfg, Alone(cfg, w, clock, world), made) && Steady(made, clock, world)
    ensures Alone(cfg, w, clock, world).job == w.job
    decreases StepsLeft(w)
  {
    if w.phase == Finished {
      made := looks;
    } else {
      var now := clock(StepsLeft(w));
      NextFits(cfg, w, looks, now, world);
      NextKeepsJob(cfg, w, now, world);
      made := AloneFits(cfg, Next(cfg, w, now, world), LooksAfter(w, looks, now, world), clock, world);
    }
  }

  lemma NextKeepsJob(cfg: Naming, w: Worker, now: Time, world: World)
    requires w.phase != Finished
    ensures Next(cfg, w, now, world).job == w.job && StepsLeft(Next(cfg, w, now, world)) < StepsLeft(w)
  {}

  lemma ExecutedAlone(cfg: Naming, job: Job, world: World, clock: nat -> Time)
    ensures var w := Alone(cfg, Spawned(job), clock, world);
            Executed(cfg, job, world, clock, w.sent, w.events)
  {
    var looks := AloneFits(cfg, Spawned(job), [], clock, world);
    var w := Alone(cfg, Spawned(job), clock, world);
    assert Earned(cfg, job, looks, w.sent[1]);
    SteadyEnd(cfg, job, looks, clock, world, w.sent[1]);
  }

  lemma SteadyEnd(cfg: Naming, job: Job, looks: seq<Look>, clock: nat -> Time, world: World, end: Letter)
    requires Steady(looks, clock, world) && Earned(cfg, job, looks, end)
    ensures Executed(cfg, job, world, clock, [JobRunning(job.id, clock(7)), end], CallsOf(cfg, job, looks))
  {
    if end.JobFailed? {
      FailedEnd(cfg, job, looks, clock, world);
    } else {
      CompletedEnd(cfg, job, looks, clock, world);
    }
  }

  lemma FailedEnd(cfg: Naming, job: Job, looks: seq<Look>, clock: nat -> Time, world: World)
    requires Steady(looks, clock, world) && |looks| > 1
    requires Well(cfg, job, looks, |looks| - 1) && ErrorAt(cfg, job, looks, |looks| - 1).Some?
    ensures var last := |looks| - 1;
            && looks[last].now == clock(6 - last)
            && FirstError(cfg, job, clock(7), world) == Some((ErrorAt(cfg, job, looks, last).value, 6 - last))
            && |CallsOf(cfg, job, looks)| == if last == 4 then 1 else 0
  {
    var last := |looks| - 1;
    assert last > 1 ==> ErrorAt(cfg, job, looks, 1).None?;
    assert last > 2 ==> ErrorAt(cfg, job, looks, 2).None?;
    assert last > 3 ==> ErrorAt(cfg, job, looks, 3).None?;
    assert Well(cfg, job, looks, 4) <==> last == 4;
  }

  lemma CompletedEnd(cfg: Naming, job: Job, looks: seq<Look>, clock: nat -> Time, world: World)
    requires Steady(looks, clock, world) && Well(cfg, job, looks, 5)
    ensures FirstError(cfg, job, clock(7), world).None? && looks[4].now == clock(2)
    ensures var bucket, key := BucketFor(cfg, job, looks), KeyFor(cfg, job, looks);
            CallsOf(cfg, job, looks) == [Ensured(job.id, bucket), Stored(job.id, bucket, key, CONTENT_TYPE)]
  {
    assert ErrorAt(cfg, job, looks, 1).None? && ErrorAt(cfg, job, looks, 2).None?;
    assert ErrorAt(cfg, job, looks, 3).None? && ErrorAt(cfg, job, looks, 4).None?;
    assert Well(cfg, job, looks, 4);
  }

  /** `executeRecord`, under any readings of the clock. */
  method ExecuteRecord(cfg: Naming, job: Job, world: World, clock: nat -> Time)
    returns (sent: seq<Letter>, events: seq<Event>)
    ensures var w := Alone(cfg, Spawned(job), clock, world);
            sent == w.sent && events == w.events
    ensures Executed(cfg, job, world, clock, sent, events)
  {
    ExecutedAlone(cfg, job, world, clock);
    var startedAt := clock(7);
    events := [];
    sent := [JobRunning(job.id, startedAt)];
    ghost var w := Worker(job, LookUp(startedAt), sent, [], None);
    AnnouncedAlone(cfg, job, clock, world);

    var info: Info;
    match world.info(job.mac) {
      case Err(text) =>
        sent := FailRecordJob(sent, job.id, text, clock(5));
        FailedAlone(cfg, w, text, clock(5), clock, world);
        return;
      case Ok(found) => info := found;
    }
    w := w.(info := Some(info));

    var bucket: string;
    match cfg.bucketOf(info.process) {
      case Err(text) =>
        sent := FailRecordJob(sent, job.id, text, clock(5));
        FailedAlone(cfg, w, text, clock(5), clock, world);
        return;
      case Ok(name) => bucket := name;
    }

    var key: Key;
    match Build(info.site, info.group, job.camId, job.recordType, cfg.utc(startedAt)) {
      case Err(text) =>
        sent := FailRecordJob(sent, job.id, text, clock(5));
        FailedAlone(cfg, w, text, clock(5), clock, world);
        return;
      case Ok(built) => key := built;
    }
    w := w.(phase := Fetch(startedAt, bucket, key.objectKey, key.filename));

    var more;
    more, events := FetchAndStore(cfg, job, world, bucket, key, clock, w);
    sent := sent + more;
  }

  /** The second half of `executeRecord`: from the request to go2rtc on; `w` is where the goroutine is by then. */
  method FetchAndStore(cfg: Naming, job: Job, world: World, bucket: string, key: Key, clock: nat -> Time,
                       ghost w: Worker)
    returns (sent: seq<Letter>, events: seq<Event>)
    requires w.job == job && w.phase.Fetch? && w.phase == Fetch(w.phase.startedAt, bucket, key.objectKey, key.filename)
    ensures var end := Alone(cfg, w, clock, world);
            end.sent == w.sent + sent && end.events == w.events + events
    ensures var fetch := world.fetch(job.camId, WholeSeconds(job.duration), key.filename);
            var ensure, put := world.ensure(bucket), world.put(bucket, key.objectKey, CONTENT_TYPE);
            if fetch.Err? then sent == [JobFailed(job.id, fetch.text, clock(4))] && events == []
            else if ensure.Err? then sent == [JobFailed(job.id, ensure.text, clock(3))] && events == []
            else if put.Err? then sent == [JobFailed(job.id, put.text, clock(2))] && events == [Ensured(job.id, bucket)]
            else
              && sent == [JobCompleted(job.id, bucket, key.objectKey, CONTENT_TYPE, clock(2))]
              && events == [Ensured(job.id, bucket), Stored(job.id, bucket, key.objectKey, CONTENT_TYPE)]
  {
    sent, events := [], [];
    match world.fetch(job.camId, WholeSeconds(job.duration), key.filename) {
      case Err(text) =>
        sent := FailRecordJob(sent, job.id, text, clock(4));
        FailedAlone(cfg, w, text, clock(4), clock, world);
        return;
      case Ok(_) =>
    }
    ghost var v := Next(cfg, w, clock(4), world);
    match world.ensure(bucket) {
      case Err(text) =>
        sent := FailRecordJob(sent, job.id, text, clock(3));
        FailedAlone(cfg, v, text, clock(3), clock, world);
        return;
      case Ok(_) =>
    }
    events := events + [Ensured(job.id, bucket)];
    v := Next(cfg, v, clock(3), world);
    assert Alone(cfg, w, clock, world) == Alone(cfg, v, clock, world);
    assert v.sent == w.sent && v.events == w.events + events;
    match world.put(bucket, key.objectKey, CONTENT_TYPE) {
      case Err(text) =>
        sent := FailRecordJob(sent, job.id, text, clock(2));
        FailedAlone(cfg, v, text, clock(2), clock, world);
        return;
      case Ok(_) =>
    }
    events := events + [Stored(job.id, bucket, key.objectKey, CONTENT_TYPE)];
    v := Next(cfg, v, clock(2), world);
    assert Alone(cfg, w, clock, world) == Alone(cfg, v, clock, world);
    assert v.sent == w.sent && v.events == w.events + events;
    ReportedAlone(cfg, v, v.phase.letter, clock, world);
    assert v.(phase := Report(v.phase.letter)) == v;
    sent := sent + [JobCompleted(job.id, bucket, key.objectKey, CONTENT_TYPE, clock(2))];
  }

  method FailRecordJob(sent: seq<Letter>, id: string, text: ErrorText, now: Time) returns (after: seq<Letter>)
    ensures after == sent + [JobFailed(id, text, now)]
  {
    after := sent + [JobFailed(id, text, now)];
  }

  // ---------- what a goroutine keeps ----------

  /** A clock reading: never the zero time, never ahead of the clock. */
  predicate Read(t: Time, now: Time) { ZERO < t <= now }

  /** Bucket and key are the ones derived from the looked-up document and the start time. */
  predicate Derived(cfg: Naming, w: Worker, startedAt: Time, bucket: string, objectKey: string)
  {
    && w.info.Some?
    && cfg.bucketOf(w.info.value.process) == Ok(bucket)
    && var built := Build(w.info.value.site, w.info.value.group, w.job.camId, w.job.recordType, cfg.utc(startedAt));
       built.Ok? && built.value.objectKey == objectKey
  }

  predicate Outcome(cfg: Naming, w: Worker, startedAt: Time, end: Letter, now: Time)
  {
    match end
    case JobCompleted(id, bucket, objectKey, contentType, completedAt) =>
      && id == w.job.id && contentType == CONTENT_TYPE && Read(completedAt, now)
      && Derived(cfg, w, startedAt, bucket, objectKey)
      && w.events == [Ensured(id, bucket), Stored(id, bucket, objectKey, contentType)]
    case JobFailed(id, error, completedAt) =>
      && id == w.job.id && error != "" && Read(completedAt, now)
      && (w.events == [] || (|w.events| == 1 && w.events[0].Ensured?))
    case _ => false
  }

  /** Everything sent and achieved fits the phase: first `running`, then one end, and the store calls in order. */
  predicate WellBehaved(cfg: Naming, w: Worker, now: Time)
  {
    && w.job == NewJob(w.job.id, StartRecord(w.job.recordType, w.job.mac, w.job.camId, w.job.duration))
    && match w.phase
       case Start => w.sent == [] && w.events == []
       case Announce(t) => w.sent == [] && w.events == [] && Read(t, now)
       case LookUp(t) => w.sent == [JobRunning(w.job.id, t)] && w.events == [] && Read(t, now)
       case Fetch(t, bucket, objectKey, _) =>
         w.sent == [JobRunning(w.job.id, t)] && w.events == [] && Read(t, now) && Derived(cfg, w, t, bucket, objectKey)
       case Ensure(t, bucket, objectKey) =>
         w.sent == [JobRunning(w.job.id, t)] && w.events == [] && Read(t, now) && Derived(cfg, w, t, bucket, objectKey)
       case Put(t, bucket, objectKey) =>
         && w.sent == [JobRunning(w.job.id, t)] && w.events == [Ensured(w.job.id, bucket)] && Read(t, now)
         && Derived(cfg, w, t, bucket, objectKey)
       case Report(letter) =>
         && |w.sent| == 1 && w.sent[0].JobRunning? && w.sent == [JobRunning(w.job.id, w.sent[0].startedAt)]
         && Read(w.sent[0].startedAt, now) && Outcome(cfg, w, w.sent[0].startedAt, letter, now)
       case Finished =>
         && |w.sent| == 2 && w.sent[0].JobRunning? && w.sent[0].jobId == w.job.id
         && Read(w.sent[0].startedAt, now) && Outcome(cfg, w, w.sent[0].startedAt, w.sent[1], now)
  }

  /** At most one more element, and that one `fits`. */
  predicate Grown<T(==)>(before: seq<T>, after: seq<T>, fits: T -> bool)
  {
    after == before || (|after| == |before| + 1 && after[..|before|] == before && fits(after[|before|]))
  }

  function LetterOf(id: string): Letter -> bool { (l: Letter) => IsReport(l) && l.jobId == id }

  function EventOf(id: string): Event -> bool { (e: Event) => e.jobId == id }

  lemma PreparedKeeps(w: Worker, startedAt: Time, bucket: Result<string>, key: Result<Key>, now: Time)
    requires w.phase.LookUp?
    ensures var v := Prepared(w, startedAt, bucket, key, now);
            v.job == w.job && v.sent == w.sent && v.events == w.events && StepsLeft(v) < StepsLeft(w)
  {}

  /** A step sends at most one letter and makes at most one store call, both under the job's own id. */
  lemma NextAppends(cfg: Naming, w: Worker, now: Time, world: World)
    requires w.phase != Finished && (w.phase.Report? ==> LetterOf(w.job.id)(w.phase.letter))
    ensures var v := Next(cfg, w, now, world);
            && v.job == w.job && StepsLeft(v) < StepsLeft(w)
            && Grown(w.sent, v.sent, LetterOf(w.job.id)) && Grown(w.events, v.events, EventOf(w.job.id))
  {
    if w.phase.LookUp? && world.info(w.job.mac).Ok? {
      var info := world.info(w.job.mac).value;
      PreparedKeeps(w.(info := Some(info)), w.phase.startedAt, cfg.bucketOf(info.process),
                    Build(info.site, info.group, w.job.camId, w.job.recordType, cfg.utc(w.phase.startedAt)), now);
    }
  }

  lemma PrepareBehaves(cfg: Naming, w: Worker, now: Time, info: Info)
    requires WellBehaved(cfg, w, now) && w.phase.LookUp? && now > ZERO
    ensures WellBehaved(cfg, Prepare(cfg, w.(info := Some(info)), w.phase.startedAt, info, now), now)
  {
    var u := w.(info := Some(info));
    var bucket := cfg.bucketOf(info.process);
    var key := Build(info.site, info.group, w.job.camId, w.job.recordType, cfg.utc(w.phase.startedAt));
    if bucket.Err? {
      FailBehaves(cfg, u, bucket.text, now);
    } else if key.Err? {
      FailBehaves(cfg, u, key.text, now);
    }
  }

  lemma FailBehaves(cfg: Naming, w: Worker, text: ErrorText, now: Time)
    requires WellBehaved(cfg, w, now) && now > ZERO
    requires w.phase.LookUp? || w.phase.Fetch? || w.phase.Ensure? || w.phase.Put?
    ensures WellBehaved(cfg, Fail(w, text, now), now)
  {}

  lemma StoreBehaves(cfg: Naming, w: Worker, now: Time, world: World)
    requires WellBehaved(cfg, w, now) && now > ZERO && (w.phase.Ensure? || w.phase.Put?) && Answer(w, world).Ok?
    ensures WellBehaved(cfg, Next(cfg, w, now, world), now)
  {}

  lemma CallBehaves(cfg: Naming, w: Worker, now: Time, world: World)
    requires WellBehaved(cfg, w, now) && now > ZERO && (w.phase.Fetch? || w.phase.Ensure? || w.phase.Put?)
    ensures WellBehaved(cfg, Next(cfg, w, now, world), now)
  {
    if Answer(w, world).Err? {
      FailBehaves(cfg, w, Answer(w, world).text, now);
    } else if !w.phase.Fetch? {
      StoreBehaves(cfg, w, now, world);
    }
  }

  lemma NextBehaves(cfg: Naming, w: Worker, now: Time, world: World)
    requires WellBehaved(cfg, w, now) && w.phase != Finished && now > ZERO
    ensures WellBehaved(cfg, Next(cfg, w, now, world), now)
  {
    match w.phase
    case LookUp(_) =>
      match world.info(w.job.mac) {
        case Ok(info) => PrepareBehaves(cfg, w, now, info);
        case Err(text) => FailBehaves(cfg, w, text, now);
      }
    case Fetch(_, _, _, _) => CallBehaves(cfg, w, now, world);
    case Ensure(_, _, _) => CallBehaves(cfg, w, now, world);
    case Put(_, _, _) => CallBehaves(cfg, w, now, world);
    case _ =>
  }

  lemma TimePasses(cfg: Naming, w: Worker, now: Time, later: Time)
    requires WellBehaved(cfg, w, now) && now <= later
    ensures WellBehaved(cfg, w, later)
  {}
}
