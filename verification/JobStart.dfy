/** Starting and retiring a queue Job: executors against an API server whose writes
    are fenced by resource version, with anyone else writing in between. */
module JobStart {

  import opened Model

  /** Whose claim a Job carries; an empty fingerprint proves none. */
  datatype Claim = Claim(runId: string, runner: string, fingerprint: string)

  datatype Job = Job(
    name: string,
    uid: nat,
    version: nat,
    generation: nat,
    suspended: bool,
    attempted: bool,
    deleting: bool,
    labelled: bool,
    claim: Claim)

  /** The immutable run credential: whose Job owns it, and the token's fingerprint. */
  datatype Secret = Secret(ownerUid: nat, ownerName: string, immutable: bool, tokenFingerprint: Option<string>)

  /** An executor's last read, and whether it saw that read's claim settled. */
  datatype View = View(job: Job, sawSettled: bool)

  /** A write that unsuspended a Job: an executor's resume, or anyone else's. */
  datatype Unsuspension = Unsuspension(uid: nat, byExecutor: bool)

  /** `log` and `retired` record the unsuspending writes and the deletes, by uid. */
  datatype Cluster = Cluster(
    jobs: map<string, Job>,
    nextUid: nat,
    nextVersion: nat,
    views: map<nat, View>,
    settled: set<Claim>,
    log: seq<Unsuspension>,
    retired: set<nat>)

  function Empty(): Cluster {
    Cluster(map[], 1, 1, map[], {}, [], {})
  }

  /** The run's digest names its Job; the digest is taken to be the run id itself. */
  function JobName(runId: string): string {
    "lcars-work-" + runId
  }

  // -------------------------------------------------------------------------- guards

  /** The evidence a resume gathers between its read and its update. */
  datatype Evidence = Evidence(ownsPods: bool, secret: Option<Secret>, verified: bool)

  predicate SameIdentity(target: Job, current: Job) {
    && current.uid == target.uid && target.claim.runId != []
    && current.name == JobName(target.claim.runId) && current.labelled && current.claim == target.claim
  }

  predicate OwnsSecret(current: Job, secret: Option<Secret>) {
    && secret.Some? && secret.value.ownerUid == current.uid && secret.value.ownerName == current.name
    && secret.value.immutable && secret.value.tokenFingerprint.Some?
    && (current.claim.fingerprint != [] ==> current.claim.fingerprint == secret.value.tokenFingerprint.value)
  }

  datatype Verdict = Conflicts | Nothing | Unsuspend

  /** What a resume does with the Job it just read. */
  function ResumeVerdict(target: Job, current: Job, evidence: Evidence): Verdict {
    if !SameIdentity(target, current) then Conflicts
    else if current.deleting || !current.suspended || current.attempted then Nothing
    else if current.generation != 1 then Conflicts
    else if evidence.ownsPods then Nothing
    else if !OwnsSecret(current, evidence.secret) || !evidence.verified then Conflicts
    else Unsuspend
  }

  /** May the claim of this Job be retired, once it is known settled? */
  predicate Retirable(job: Job) {
    && !job.deleting && job.claim.runId != [] && job.claim.runner != []
    && job.name == JobName(job.claim.runId) && job.labelled
    && (if job.suspended then job.generation == 1 && !job.attempted else job.generation == 2)
    && job.claim.fingerprint != []
  }

  // --------------------------------------------------------------------------- steps

  datatype Event =
    | Create(name: string, claim: Claim)
    | Read(executor: nat, name: string)
    | Resume(executor: nat, target: Job, evidence: Evidence)
    | AskSettled(executor: nat)
    | Retire(executor: nat)
    | ClaimSettles(settledClaim: Claim)
    | StatusWritten(name: string, attempted: bool)
    | SpecWritten(name: string, suspended: bool)
    | MetadataWritten(name: string, newClaim: Claim, newLabel: bool)
    | DeletionRequested(name: string)
    | Removed(name: string)

  /** A write gives the Job a version no Job ever had. */
  function Put(c: Cluster, job: Job): Cluster {
    c.(jobs := c.jobs[job.name := job.(version := c.nextVersion)], nextVersion := c.nextVersion + 1)
  }

  /** An update of what was read succeeds only on that exact version. */
  predicate Current(c: Cluster, job: Job) {
    job.name in c.jobs && c.jobs[job.name].uid == job.uid && c.jobs[job.name].version == job.version
  }

  function ResumeStep(c: Cluster, executor: nat, target: Job, evidence: Evidence): Cluster {
    if executor !in c.views then c
    else
      var current := c.views[executor].job;
      if !ResumeVerdict(target, current, evidence).Unsuspend? || !Current(c, current) then c
      else Put(c, current.(suspended := false, generation := current.generation + 1))
           .(log := c.log + [Unsuspension(current.uid, true)])
  }

  function RetireStep(c: Cluster, executor: nat): Cluster {
    if executor !in c.views then c
    else
      var view := c.views[executor];
      if !Retirable(view.job) || !view.sawSettled || !Current(c, view.job) then c
      else Put(c, view.job.(deleting := true)).(retired := c.retired + {view.job.uid})
  }

  function ServerStep(c: Cluster, event: Event): Cluster {
    match event
    case StatusWritten(name, attempted) => if name !in c.jobs then c else Put(c, c.jobs[name].(attempted := attempted))
    case SpecWritten(name, suspended) =>
      if name !in c.jobs then c
      else
        var job := c.jobs[name];
        Put(c, job.(suspended := suspended, generation := job.generation + 1))
        .(log := if job.suspended && !suspended then c.log + [Unsuspension(job.uid, false)] else c.log)
    case MetadataWritten(name, claim, labelled) =>
      if name !in c.jobs then c else Put(c, c.jobs[name].(claim := claim, labelled := labelled))
    case DeletionRequested(name) => if name !in c.jobs then c else Put(c, c.jobs[name].(deleting := true))
    case Removed(name) => c.(jobs := c.jobs - {name})
    case _ => c
  }

  function Step(c: Cluster, event: Event): Cluster {
    match event
    case Create(name, claim) =>
      if name in c.jobs then c
      else Put(c, Job(name, c.nextUid, 0, 1, true, false, false, true, claim)).(nextUid := c.nextUid + 1)
    case Read(executor, name) =>
      if name !in c.jobs then c else c.(views := c.views[executor := View(c.jobs[name], false)])
    case Resume(executor, target, evidence) => ResumeStep(c, executor, target, evidence)
    case AskSettled(executor) =>
      if executor !in c.views then c
      else
        var view := c.views[executor];
        c.(views := c.views[executor := view.(sawSettled := view.job.claim in c.settled)])
    case Retire(executor) => RetireStep(c, executor)
    case ClaimSettles(claim) => c.(settled := c.settled + {claim})
    case _ => ServerStep(c, event)
  }

  function Exec(c: Cluster, events: seq<Event>): Cluster
    decreases |events|
  {
    if events == [] then c else Exec(Step(c, events[0]), events[1..])
  }

  // ----------------------------------------------------------------------- invariant

  predicate Unsuspended(log: seq<Unsuspension>, uid: nat) {
    exists i | 0 <= i < |log| :: log[i].uid == uid
  }

  /** An executor's write is the first to unsuspend its Job: nothing did before it. */
  ghost predicate ExecutorFirst(log: seq<Unsuspension>) {
    forall i, j | 0 <= i < j < |log| && log[j].byExecutor :: log[i].uid != log[j].uid
  }

  /** No Job was unsuspended twice. */
  ghost predicate Unique(log: seq<Unsuspension>) {
    forall i, j | 0 <= i < j < |log| :: log[i].uid != log[j].uid
  }

  /** A stored Job is older than every version and uid still to come; once started
      it has left its first generation, and once retired it stays marked. */
  ghost predicate GoodJob(c: Cluster, name: string)
    requires name in c.jobs
  {
    var job := c.jobs[name];
    && job.name == name && job.uid < c.nextUid && job.version < c.nextVersion && 1 <= job.generation
    && (Unsuspended(c.log, job.uid) ==> 2 <= job.generation)
    && (job.uid in c.retired ==> job.deleting)
  }

  /** A read at the current version is the current Job. */
  ghost predicate GoodView(c: Cluster, executor: nat)
    requires executor in c.views
  {
    var view := c.views[executor];
    && view.job.version < c.nextVersion
    && (Current(c, view.job) ==> c.jobs[view.job.name] == view.job)
    && (view.sawSettled ==> view.job.claim in c.settled)
  }

  ghost predicate Inv(c: Cluster) {
    && (forall name | name in c.jobs :: GoodJob(c, name))
    && (forall executor | executor in c.views :: GoodView(c, executor))
    && (forall i | 0 <= i < |c.log| :: c.log[i].uid < c.nextUid)
    && (forall uid | uid in c.retired :: uid < c.nextUid)
    && (forall a, b | a in c.jobs && b in c.jobs && a != b :: c.jobs[a].uid != c.jobs[b].uid)
    && ExecutorFirst(c.log)
  }

  /** Writing a Job that keeps its name, uid and marks keeps the invariant. */
  lemma PutKeeps(c: Cluster, job: Job)
    requires Inv(c) && job.name in c.jobs && job.uid == c.jobs[job.name].uid
    requires c.jobs[job.name].generation <= job.generation && (c.jobs[job.name].deleting ==> job.deleting)
    ensures Inv(Put(c, job))
  {
    var k := Put(c, job);
    forall name | name in k.jobs ensures GoodJob(k, name) { assert GoodJob(c, name); }
    forall executor | executor in k.views ensures GoodView(k, executor) { assert GoodView(c, executor); }
  }

  lemma CreateKeeps(c: Cluster, name: string, claim: Claim)
    requires Inv(c)
    ensures Inv(Step(c, Create(name, claim)))
  {
    var k := Step(c, Create(name, claim));
    forall o | o in k.jobs ensures GoodJob(k, o) { if o in c.jobs { assert GoodJob(c, o); } }
    forall executor | executor in k.views ensures GoodView(k, executor) { assert GoodView(c, executor); }
    forall a, b | a in k.jobs && b in k.jobs && a != b ensures k.jobs[a].uid != k.jobs[b].uid {
      if a in c.jobs { assert GoodJob(c, a); }
      if b in c.jobs { assert GoodJob(c, b); }
    }
  }

  lemma ResumeKeeps(c: Cluster, executor: nat, target: Job, evidence: Evidence)
    requires Inv(c)
    ensures Inv(ResumeStep(c, executor, target, evidence))
  {
    var k := ResumeStep(c, executor, target, evidence);
    if k != c {
      var current := c.views[executor].job;
      assert GoodView(c, executor) && GoodJob(c, current.name);
      var started := current.(suspended := false, generation := current.generation + 1);
      PutKeeps(c, started);
      forall name | name in k.jobs ensures GoodJob(k, name) { assert GoodJob(Put(c, started), name); }
      forall e | e in k.views ensures GoodView(k, e) { assert GoodView(Put(c, started), e); }
      assert !Unsuspended(c.log, current.uid);
    }
  }

  lemma RetireKeeps(c: Cluster, executor: nat)
    requires Inv(c)
    ensures Inv(RetireStep(c, executor))
  {
    var k := RetireStep(c, executor);
    if k != c {
      var job := c.views[executor].job;
      assert GoodView(c, executor) && GoodJob(c, job.name);
      PutKeeps(c, job.(deleting := true));
      forall name | name in k.jobs ensures GoodJob(k, name) { assert GoodJob(Put(c, job.(deleting := true)), name); }
      forall e | e in k.views ensures GoodView(k, e) { assert GoodView(Put(c, job.(deleting := true)), e); }
    }
  }

  lemma RemoveKeeps(c: Cluster, name: string)
    requires Inv(c)
    ensures Inv(c.(jobs := c.jobs - {name}))
  {
    var k := c.(jobs := c.jobs - {name});
    forall o | o in k.jobs ensures GoodJob(k, o) { assert GoodJob(c, o); }
    forall e | e in k.views ensures GoodView(k, e) { assert GoodView(c, e); }
  }

  lemma ServerKeeps(c: Cluster, event: Event)
    requires Inv(c)
    ensures Inv(ServerStep(c, event))
  {
    match event {
      case StatusWritten(name, attempted) =>
        if name in c.jobs { NamedPut(c, name, c.jobs[name].(attempted := attempted)); }
      case SpecWritten(name, suspended) =>
        if name in c.jobs { SpecKeeps(c, name, suspended); }
      case MetadataWritten(name, claim, labelled) =>
        if name in c.jobs { NamedPut(c, name, c.jobs[name].(claim := claim, labelled := labelled)); }
      case DeletionRequested(name) => if name in c.jobs { NamedPut(c, name, c.jobs[name].(deleting := true)); }
      case Removed(name) => RemoveKeeps(c, name);
      case _ =>
    }
  }

  lemma SpecKeeps(c: Cluster, name: string, suspended: bool)
    requires Inv(c) && name in c.jobs
    ensures Inv(ServerStep(c, SpecWritten(name, suspended)))
  {
    var k := ServerStep(c, SpecWritten(name, suspended));
    var job := c.jobs[name].(suspended := suspended, generation := c.jobs[name].generation + 1);
    NamedPut(c, name, job);
    assert GoodJob(c, name);
    forall o | o in k.jobs ensures GoodJob(k, o) { assert GoodJob(Put(c, job), o); }
    forall e | e in k.views ensures GoodView(k, e) { assert GoodView(Put(c, job), e); }
  }

  lemma NamedPut(c: Cluster, name: string, job: Job)
    requires Inv(c) && name in c.jobs && job.name == c.jobs[name].name && job.uid == c.jobs[name].uid
    requires c.jobs[name].generation <= job.generation && (c.jobs[name].deleting ==> job.deleting)
    ensures Inv(Put(c, job))
  {
    assert GoodJob(c, name);
    PutKeeps(c, job);
  }

  lemma ViewKeeps(c: Cluster, executor: nat, view: View)
    requires Inv(c) && view.job.version < c.nextVersion && (view.sawSettled ==> view.job.claim in c.settled)
    requires Current(c, view.job) ==> c.jobs[view.job.name] == view.job
    ensures Inv(c.(views := c.views[executor := view]))
  {
    var k := c.(views := c.views[executor := view]);
    forall name | name in k.jobs ensures GoodJob(k, name) { assert GoodJob(c, name); }
    forall e | e in k.views ensures GoodView(k, e) { if e != executor { assert GoodView(c, e); } }
  }

  lemma SettleKeeps(c: Cluster, claim: Claim)
    requires Inv(c)
    ensures Inv(c.(settled := c.settled + {claim}))
  {
    var k := c.(settled := c.settled + {claim});
    forall name | name in k.jobs ensures GoodJob(k, name) { assert GoodJob(c, name); }
    forall e | e in k.views ensures GoodView(k, e) { assert GoodView(c, e); }
  }

  lemma StepKeeps(c: Cluster, event: Event)
    requires Inv(c)
    ensures Inv(Step(c, event))
  {
    match event {
      case Create(name, claim) => CreateKeeps(c, name, claim);
      case Read(executor, name) =>
        if name in c.jobs {
          assert GoodJob(c, name);
          ViewKeeps(c, executor, View(c.jobs[name], false));
        }
      case Resume(executor, target, evidence) => ResumeKeeps(c, executor, target, evidence);
      case AskSettled(executor) =>
        if executor in c.views {
          assert GoodView(c, executor);
          ViewKeeps(c, executor, c.views[executor].(sawSettled := c.views[executor].job.claim in c.settled));
        }
      case Retire(executor) => RetireKeeps(c, executor);
      case ClaimSettles(claim) => SettleKeeps(c, claim);
      case _ => ServerKeeps(c, event);
    }
  }

  lemma {:induction false} ExecKeeps(c: Cluster, events: seq<Event>)
    requires Inv(c)
    ensures Inv(Exec(c, events))
    decreases |events|
  {
    if events != [] {
      StepKeeps(c, events[0]);
      ExecKeeps(Step(c, events[0]), events[1..]);
    }
  }

  // ------------------------------------------------------------------------ theorems

  /** However launches, recoveries, controller writes, re-suspensions and conflicts
      interleave, an executor unsuspends a Job uid at most once, and never one that
      anyone unsuspended before. */
  lemma StartsAtMostOnce(events: seq<Event>)
    ensures ExecutorFirst(Exec(Empty(), events).log)
  {
    ExecKeeps(Empty(), events);
  }

  /** Nobody but an executor unsuspends a Job. */
  predicate OnlyExecutorsUnsuspend(events: seq<Event>) {
    forall i | 0 <= i < |events| && events[i].SpecWritten? :: events[i].suspended
  }

  lemma {:induction false} LoggedByExecutors(c: Cluster, events: seq<Event>)
    requires OnlyExecutorsUnsuspend(events) && forall i | 0 <= i < |c.log| :: c.log[i].byExecutor
    ensures forall i | 0 <= i < |Exec(c, events).log| :: Exec(c, events).log[i].byExecutor
    decreases |events|
  {
    if events != [] { LoggedByExecutors(Step(c, events[0]), events[1..]); }
  }

  /** If nobody else unsuspends Jobs, no Job is ever unsuspended twice. */
  lemma UnsuspendedAtMostOnce(events: seq<Event>)
    requires OnlyExecutorsUnsuspend(events)
    ensures Unique(Exec(Empty(), events).log)
  {
    StartsAtMostOnce(events);
    LoggedByExecutors(Empty(), events);
  }

  /** An update that starts a Job takes it from its first generation, untouched, to
      its second; it is the very Job that was read. */
  lemma StartsOriginal(c: Cluster, executor: nat, target: Job, evidence: Evidence)
    requires Inv(c) && ResumeStep(c, executor, target, evidence).log != c.log
    ensures var job := c.views[executor].job;
            && job.name in c.jobs && c.jobs[job.name] == job && job.uid == target.uid
            && job.generation == 1 && job.suspended && !job.attempted && !job.deleting
            && OwnsSecret(job, evidence.secret)
            && !Unsuspended(c.log, job.uid) && job.uid !in c.retired
            && ResumeStep(c, executor, target, evidence).jobs[job.name].generation == 2
  {
    var job := c.views[executor].job;
    assert GoodView(c, executor) && GoodJob(c, job.name);
  }

  /** A retirement deletes exactly the Job version whose claim was reported settled;
      a replacement of the same name, or any later version, is left alone. */
  lemma RetiresExactVersion(c: Cluster, executor: nat)
    requires Inv(c)
    ensures var k := RetireStep(c, executor);
            k != c ==>
              var job := c.views[executor].job;
              && c.jobs[job.name] == job && Retirable(job) && job.claim in c.settled
              && k.retired == c.retired + {job.uid} && k.jobs[job.name].deleting
              && forall name | name in c.jobs && name != job.name :: k.jobs[name] == c.jobs[name]
  {
    if RetireStep(c, executor) != c {
      assert GoodView(c, executor);
    }
  }

  /** The resumes of a Job. */
  predicate Resumed(log: seq<Unsuspension>, uid: nat) {
    Unsuspension(uid, true) in log
  }

  lemma StepRetired(c: Cluster, event: Event, uid: nat)
    requires Inv(c) && uid in c.retired && !Resumed(c.log, uid)
    ensures uid in Step(c, event).retired && !Resumed(Step(c, event).log, uid)
  {
    if event.Resume? && Step(c, event).log != c.log {
      StartsOriginal(c, event.executor, event.target, event.evidence);
    }
  }

  /** A Job retired before an executor started it is never started by one. */
  lemma {:induction false} RetiredNeverStarts(c: Cluster, events: seq<Event>, uid: nat)
    requires Inv(c) && uid in c.retired && !Resumed(c.log, uid)
    ensures !Resumed(Exec(c, events).log, uid)
    decreases |events|
  {
    if events != [] {
      StepRetired(c, events[0], uid);
      StepKeeps(c, events[0]);
      RetiredNeverStarts(Step(c, events[0]), events[1..], uid);
    }
  }

  // ------------------------------------------------------------------ undisturbed attempts

  /** The Job under this claim's own name and label. */
  predicate Claimed(job: Job, claim: Claim) {
    claim.runId != [] && job.claim == claim && job.name == "lcars-work-" + claim.runId && job.labelled
  }

  /** What a Job must be like for an executor to start it: the one it launched, in its first
      suspended form, with no Pod, and a verified immutable credential of its own. */
  predicate Startable(job: Job, target: Job, evidence: Evidence) {
    && job.uid == target.uid && Claimed(job, target.claim)
    && job.suspended && job.generation == 1 && !job.attempted && !job.deleting && !evidence.ownsPods
    && evidence.verified && evidence.secret.Some?
    && var secret := evidence.secret.value;
    && secret.ownerUid == job.uid && secret.ownerName == job.name && secret.immutable
    && secret.tokenFingerprint.Some? && job.claim.fingerprint in {"", secret.tokenFingerprint.value}
  }

  /** Read and resumed with nothing in between, a Job is started exactly if it is startable:
      unsuspended in its second form, and so logged; else nothing is written. */
  lemma ResumeStarts(c: Cluster, executor: nat, name: string, target: Job, evidence: Evidence)
    requires Inv(c) && name in c.jobs
    ensures var k := Step(Step(c, Read(executor, name)), Resume(executor, target, evidence));
            if Startable(c.jobs[name], target, evidence)
            then && k.jobs == c.jobs[name := c.jobs[name].(suspended := false, generation := 2,
                                                           version := c.nextVersion)]
                 && k.log == c.log + [Unsuspension(target.uid, true)]
            else k.jobs == c.jobs && k.log == c.log
  {
    assert GoodJob(c, name);
  }

  /** A Job that was created for a claim and left alone is started by its executor's resume,
      on a verified credential of its own. */
  lemma CreatedStarts(c: Cluster, executor: nat, claim: Claim, evidence: Evidence)
    requires Inv(c) && JobName(claim.runId) !in c.jobs && claim.runId != [] && !evidence.ownsPods && evidence.verified
    requires evidence.secret == Some(Secret(c.nextUid, JobName(claim.runId), true, Some(claim.fingerprint)))
    ensures var created := Step(c, Create(JobName(claim.runId), claim));
            && JobName(claim.runId) in created.jobs && created.jobs[JobName(claim.runId)].suspended
            && var job := created.jobs[JobName(claim.runId)];
               var k := Step(Step(created, Read(executor, job.name)), Resume(executor, job, evidence));
               job.uid == c.nextUid && k.log == c.log + [Unsuspension(c.nextUid, true)]
  {
    var name := JobName(claim.runId);
    CreateKeeps(c, name, claim);
    ResumeStarts(Step(c, Create(name, claim)), executor, name, Step(c, Create(name, claim)).jobs[name], evidence);
  }

  /** A resume reports a conflict exactly for a Job that is not the one launched, or that it
      could start but for a later form, or a credential that does not hold. */
  lemma ResumeReports(target: Job, job: Job, evidence: Evidence)
    ensures ResumeVerdict(target, job, evidence).Unsuspend? <==> Startable(job, target, evidence)
    ensures ResumeVerdict(target, job, evidence).Nothing? <==>
              && job.uid == target.uid && Claimed(job, target.claim)
              && (job.deleting || !job.suspended || job.attempted || (job.generation == 1 && evidence.ownsPods))
  {
  }

  /** What a Job must be like to be retired once its claim settled: its executor's own, named
      by a fingerprint, and in a form that executor left it in. */
  predicate Retires(job: Job) {
    && Claimed(job, job.claim) && job.claim.runner != [] && job.claim.fingerprint != [] && !job.deleting
    && (!job.suspended ==> job.generation == 2) && (job.suspended ==> job.generation == 1 && !job.attempted)
  }

  /** Read, asked about and retired with nothing in between, a Job is deleted exactly if its
      claim is known settled and it may be retired; no other Job is written. */
  lemma RetirementDeletes(c: Cluster, executor: nat, name: string)
    requires Inv(c) && name in c.jobs
    ensures var k := Step(Step(Step(c, Read(executor, name)), AskSettled(executor)), Retire(executor));
            if c.jobs[name].claim in c.settled && Retires(c.jobs[name])
            then && k.jobs == c.jobs[name := c.jobs[name].(deleting := true, version := c.nextVersion)]
                 && k.retired == c.retired + {c.jobs[name].uid}
            else k.jobs == c.jobs && k.retired == c.retired
  {
    assert GoodJob(c, name);
  }
}
