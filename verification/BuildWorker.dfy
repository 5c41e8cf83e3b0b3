/** The worker loop of builder/worker.py. Compiler, scanner and signer are seen only through
    how they end; each may also raise, and the two that are awaited may be cancelled. */
module BuildWorkerModel {
  import opened StableOrder
  import opened BuildQueueModel

  datatype Compile = CompileRaised | CompileCancelled | CompileResult(success: bool, hasWheel: bool)
  datatype Scan = ScanRaised | ScanCancelled | ScanResult(clean: bool)
  datatype Sign = SignRaised | Signed

  datatype Submission = Submission(request: Request, now: real)

  /** One poll: what is submitted while the worker sleeps or awaits the build, how the stages of
      the build would end, and the clock when it is settled. */
  datatype Trial = Trial(arrivals: seq<Submission>, compile: Compile, scan: Scan, sign: Sign, now: real)

  predicate Cancelled(t: Trial) {
    t.compile.CompileCancelled? || (t.compile == CompileResult(true, true) && t.scan.ScanCancelled?)
  }

  predicate Succeeds(t: Trial) {
    t.compile == CompileResult(true, true) && t.scan == ScanResult(true) && t.sign == Signed
  }

  function PushedAll(c: Core, rs: seq<Submission>): Core {
    if rs == [] then c else Pushed(PushedAll(c, rs[..|rs| - 1]), rs[|rs| - 1].request, rs[|rs| - 1].now)
  }

  method Arrive(q: BuildQueue, rs: seq<Submission>)
    modifies q
    ensures q.View() == PushedAll(old(q.View()), rs)
  {
    for i := 0 to |rs|
      invariant q.View() == PushedAll(old(q.View()), rs[..i])
    {
      assert rs[..i + 1][..i] == rs[..i];
      q.Push(rs[i].request, rs[i].now);
    }
    assert rs[..|rs|] == rs;
  }

  /** A build is settled exactly once: completed if every stage went well, failed otherwise. Only a
      cancellation passes by the handlers and leaves the job in processing. */
  method ProcessBuild(q: BuildQueue, req: Request, t: Trial) returns (cancelled: bool)
    modifies q
    ensures cancelled <==>
      t.compile == CompileCancelled || (t.compile == CompileResult(true, true) && t.scan == ScanCancelled)
    ensures q.View() ==
      if cancelled then old(q.View())
      else if t.compile == CompileResult(true, true) && t.scan == ScanResult(true) && t.sign == Signed
      then Completed(old(q.View()), req.requestId)
      else Failed(old(q.View()), req.requestId, t.now)
    ensures !cancelled ==> q.processing == old(q.processing) - {req.requestId}
  {
    var raised := false;
    if t.compile.CompileCancelled? {
      return true;
    } else if t.compile.CompileRaised? {
      raised := true;
    } else if t.compile.success && t.compile.hasWheel {
      if t.scan.ScanCancelled? {
        return true;
      } else if t.scan.ScanRaised? {
        raised := true;
      } else if !t.scan.clean {
        q.Fail(req.requestId, t.now);
        return false;
      } else if t.sign.SignRaised? {
        raised := true;
      } else {
        q.Complete(req.requestId);
      }
    } else {
      q.Fail(req.requestId, t.now);
    }
    if raised {
      q.Fail(req.requestId, t.now);
    }
    return false;
  }

  // ---------------------------------------------------------------- a worker's run

  /** The queue, the jobs built, in order, and the job left in processing if the worker was cancelled. */
  datatype Work = Work(core: Core, built: seq<Request>, held: seq<Request>)

  function Polled(w: Work, t: Trial): Work {
    if w.held != [] || w.core.queue == [] then w.(core := PushedAll(w.core, t.arrivals))
    else
      Settled(PushedAll(Popped(w.core), t.arrivals), w.built, w.core.queue[0].req, t)
  }

  /** How the build of `req` ends. */
  function Settled(c: Core, built: seq<Request>, req: Request, t: Trial): Work {
    if Cancelled(t) then Work(c, built, [req])
    else if Succeeds(t) then Work(Completed(c, req.requestId), built + [req], [])
    else Work(Failed(c, req.requestId, t.now), built, [])
  }

  function Worked(c: Core, trials: seq<Trial>): Work {
    if trials == [] then Work(c, [], []) else Polled(Worked(c, trials[..|trials| - 1]), trials[|trials| - 1])
  }

  /** Polls the queue once for each trial, until it is cancelled; others submit meanwhile. */
  method Start(q: BuildQueue, trials: seq<Trial>) returns (built: seq<Request>, held: seq<Request>)
    modifies q
    ensures Work(q.View(), built, held) == Worked(old(q.View()), trials)
  {
    built, held := [], [];
    for i := 0 to |trials|
      invariant Work(q.View(), built, held) == Worked(old(q.View()), trials[..i])
    {
      assert trials[..i + 1][..i] == trials[..i];
      if held != [] {
        Arrive(q, trials[i].arrivals);
      } else {
        var req, found := q.Pop();
        Arrive(q, trials[i].arrivals);
        if found {
          var cancelled := ProcessBuild(q, req, trials[i]);
          if cancelled {
            held := [req];
          } else if Succeeds(trials[i]) {
            built := built + [req];
          }
        }
      }
    }
    assert trials[..|trials|] == trials;
  }

  // ---------------------------------------------------------------- no job is lost

  ghost predicate NoneBeingBuilt(q: seq<Job>, processing: map<string, Request>) {
    forall i :: 0 <= i < |q| ==> q[i].req.requestId !in processing
  }

  lemma {:induction false} InsertKeepsClear(q: seq<Job>, e: Job, processing: map<string, Request>)
    requires NoneBeingBuilt(q, processing) && e.req.requestId !in processing
    ensures NoneBeingBuilt(Insert(q, e), processing)
  {
    if q != [] && !KeyLeq(q[|q| - 1], e) {
      InsertKeepsClear(q[..|q| - 1], e, processing);
    }
  }

  /** Sorting a queue keeps it clear of the table. */
  lemma {:induction false} SortKeepsClear(q: seq<Job>, processing: map<string, Request>)
    requires NoneBeingBuilt(q, processing)
    ensures NoneBeingBuilt(StableSort(q), processing)
  {
    if q != [] {
      var front, e := q[..|q| - 1], q[|q| - 1];
      SortKeepsClear(front, processing);
      InsertKeepsClear(StableSort(front), e, processing);
    }
  }

  function QueuedIds(q: seq<Job>): seq<string> {
    seq(|q|, i requires 0 <= i < |q| => q[i].req.requestId)
  }

  function RequestIds(rs: seq<Request>): seq<string> {
    seq(|rs|, i requires 0 <= i < |rs| => rs[i].requestId)
  }

  function SubmittedIds(rs: seq<Submission>): seq<string> {
    seq(|rs|, i requires 0 <= i < |rs| => rs[i].request.requestId)
  }

  function AllSubmittedIds(trials: seq<Trial>): seq<string> {
    if trials == [] then []
    else AllSubmittedIds(trials[..|trials| - 1]) + SubmittedIds(trials[|trials| - 1].arrivals)
  }

  lemma QueuedIdsJoin(a: seq<Job>, b: seq<Job>)
    ensures QueuedIds(a + b) == QueuedIds(a) + QueuedIds(b)
  {}

  lemma {:induction false} InsertKeepsIds(q: seq<Job>, e: Job)
    ensures multiset(QueuedIds(Insert(q, e))) == multiset(QueuedIds(q)) + multiset{e.req.requestId}
  {
    if q == [] || KeyLeq(q[|q| - 1], e) {
      QueuedIdsJoin(q, [e]);
      assert QueuedIds([e]) == [e.req.requestId];
    } else {
      var front, last := q[..|q| - 1], [q[|q| - 1]];
      InsertKeepsIds(front, e);
      QueuedIdsJoin(Insert(front, e), last);
      QueuedIdsJoin(front, last);
      assert q == front + last;
    }
  }

  lemma {:induction false} SortKeepsIds(q: seq<Job>)
    ensures multiset(QueuedIds(StableSort(q))) == multiset(QueuedIds(q))
  {
    if q != [] {
      var front, last := q[..|q| - 1], [q[|q| - 1]];
      SortKeepsIds(front);
      InsertKeepsIds(StableSort(front), q[|q| - 1]);
      QueuedIdsJoin(front, last);
      assert q == front + last;
      assert QueuedIds(last) == [q[|q| - 1].req.requestId];
    }
  }

  /** A push adds its request to the queue and touches nothing else. */
  lemma PushAddsId(c: Core, r: Request, now: real, others: map<string, Request>)
    requires NoneBeingBuilt(c.queue, others) && r.requestId !in others
    ensures var d := Pushed(c, r, now);
            multiset(QueuedIds(d.queue)) == multiset(QueuedIds(c.queue)) + multiset{r.requestId} &&
            NoneBeingBuilt(d.queue, others) && d.processing == c.processing
  {
    var e := Entry(r.priority, now, r);
    assert NoneBeingBuilt(c.queue + [e], others);
    SortKeepsClear(c.queue + [e], others);
    SortKeepsIds(c.queue + [e]);
    QueuedIdsJoin(c.queue, [e]);
    assert QueuedIds([e]) == [r.requestId];
  }

  predicate NotIn(rs: seq<Submission>, others: map<string, Request>) {
    forall i | 0 <= i < |rs| :: rs[i].request.requestId !in others
  }

  lemma {:induction false} ArrivalsAdd(c: Core, rs: seq<Submission>, others: map<string, Request>)
    requires NoneBeingBuilt(c.queue, others) && NotIn(rs, others)
    ensures var d := PushedAll(c, rs);
            multiset(QueuedIds(d.queue)) == multiset(QueuedIds(c.queue)) + multiset(SubmittedIds(rs)) &&
            NoneBeingBuilt(d.queue, others) && d.processing == c.processing
  {
    if rs != [] {
      var front, last := rs[..|rs| - 1], rs[|rs| - 1];
      ArrivalsAdd(c, front, others);
      PushAddsId(PushedAll(c, front), last.request, last.now, others);
      assert SubmittedIds(rs) == SubmittedIds(front) + [last.request.requestId];
    }
  }

  /** The head, popped and recorded, is one of the queue's jobs. */
  lemma PopTakesId(c: Core, others: map<string, Request>)
    requires c.queue != [] && c.processing == others && NoneBeingBuilt(c.queue, others)
    ensures var d, req := Popped(c), c.queue[0].req;
            multiset(QueuedIds(c.queue)) == multiset(QueuedIds(d.queue)) + multiset{req.requestId} &&
            NoneBeingBuilt(d.queue, others) && d.processing == others[req.requestId := req] &&
            req.requestId !in others
  {
    QueuedIdsJoin([c.queue[0]], c.queue[1..]);
    assert c.queue == [c.queue[0]] + c.queue[1..];
    assert QueuedIds([c.queue[0]]) == [c.queue[0].req.requestId];
  }

  /** A failed build puts its job back and leaves the table to the others. */
  lemma FailReturnsId(c: Core, req: Request, now: real, others: map<string, Request>)
    requires req.requestId !in others && c.processing == others[req.requestId := req]
    requires NoneBeingBuilt(c.queue, others)
    ensures var d := Failed(c, req.requestId, now);
            multiset(QueuedIds(d.queue)) == multiset(QueuedIds(c.queue)) + multiset{req.requestId} &&
            NoneBeingBuilt(d.queue, others) && d.processing == others
  {
    var out := Completed(c, req.requestId);
    assert out.processing == others;
    PushAddsId(out, Demoted(req), now, others);
  }

  function Table(others: map<string, Request>, held: seq<Request>): map<string, Request> {
    if held == [] then others else others[held[0].requestId := held[0]]
  }

  /** Where the jobs are: still queued, built, or held by a cancelled build. */
  function Accounted(w: Work): multiset<string> {
    multiset(QueuedIds(w.core.queue)) + multiset(RequestIds(w.built)) + multiset(RequestIds(w.held))
  }

  ghost predicate WorkOk(w: Work, others: map<string, Request>) {
    |w.held| <= 1 && w.core.processing == Table(others, w.held) && NoneBeingBuilt(w.core.queue, others)
  }

  lemma SettleLosesNoJob(c: Core, built: seq<Request>, req: Request, t: Trial, others: map<string, Request>)
    requires req.requestId !in others && c.processing == others[req.requestId := req]
    requires NoneBeingBuilt(c.queue, others)
    ensures WorkOk(Settled(c, built, req, t), others)
    ensures Accounted(Settled(c, built, req, t)) ==
              multiset(QueuedIds(c.queue)) + multiset(RequestIds(built)) + multiset{req.requestId}
  {
    assert RequestIds([req]) == [req.requestId] && RequestIds([]) == [];
    if Cancelled(t) {
    } else if Succeeds(t) {
      assert RequestIds(built + [req]) == RequestIds(built) + [req.requestId];
      assert Completed(c, req.requestId).processing == others;
    } else {
      FailReturnsId(c, req, t.now, others);
    }
  }

  lemma IdlePollLosesNoJob(w: Work, t: Trial, others: map<string, Request>)
    requires WorkOk(w, others) && NotIn(t.arrivals, others)
    ensures var v := w.(core := PushedAll(w.core, t.arrivals));
            WorkOk(v, others) && Accounted(v) == Accounted(w) + multiset(SubmittedIds(t.arrivals))
  {
    ArrivalsAdd(w.core, t.arrivals, others);
  }

  lemma BuildPollLosesNoJob(w: Work, t: Trial, others: map<string, Request>)
    requires WorkOk(w, others) && NotIn(t.arrivals, others) && w.held == [] && w.core.queue != []
    ensures WorkOk(Polled(w, t), others)
    ensures Accounted(Polled(w, t)) == Accounted(w) + multiset(SubmittedIds(t.arrivals))
  {
    var req, c := w.core.queue[0].req, PushedAll(Popped(w.core), t.arrivals);
    PopTakesId(w.core, others);
    ArrivalsAdd(Popped(w.core), t.arrivals, others);
    SettleLosesNoJob(c, w.built, req, t, others);
    assert RequestIds(w.held) == [];
    assert Polled(w, t) == Settled(c, w.built, req, t);
  }

  lemma PollLosesNoJob(w: Work, t: Trial, others: map<string, Request>)
    requires WorkOk(w, others) && NotIn(t.arrivals, others)
    ensures WorkOk(Polled(w, t), others)
    ensures Accounted(Polled(w, t)) == Accounted(w) + multiset(SubmittedIds(t.arrivals))
  {
    if w.held != [] || w.core.queue == [] {
      IdlePollLosesNoJob(w, t, others);
    } else {
      BuildPollLosesNoJob(w, t, others);
    }
  }

  /**
   * However every build of a whole run ends, and whatever is submitted meanwhile: every job queued or
   * submitted is still queued, was built, or is the one build that was cancelled, each as often as it
   * came in; and the processing table ends as it began but for that one.
   */
  lemma {:induction false} WorkLosesNoJob(c: Core, trials: seq<Trial>)
    requires NoneBeingBuilt(c.queue, c.processing)
    requires forall i | 0 <= i < |trials| :: NotIn(trials[i].arrivals, c.processing)
    ensures var w := Worked(c, trials);
            WorkOk(w, c.processing) &&
            Accounted(w) == multiset(QueuedIds(c.queue)) + multiset(AllSubmittedIds(trials))
  {
    if trials != [] {
      var front := trials[..|trials| - 1];
      WorkLosesNoJob(c, front);
      PollLosesNoJob(Worked(c, front), trials[|trials| - 1], c.processing);
    }
  }

  // ---------------------------------------------------------------- what is built

  /** The poll builds the request: the worker is free, the request is the queue's head, it compiles to a
      wheel, the wheel is scanned clean, and it is signed. */
  predicate Builds(w: Work, t: Trial, req: Request) {
    && w.held == [] && w.core.queue != [] && w.core.queue[0].req == req
    && t.compile == CompileResult(true, true) && t.scan == ScanResult(true) && t.sign == Signed
  }

  /** The poll ends in a cancellation with the request in the builder's hands: while it was compiled, or
      while the wheel it compiled to was scanned. */
  predicate Holds(w: Work, t: Trial, req: Request) {
    && w.held == [] && w.core.queue != [] && w.core.queue[0].req == req
    && (t.compile == CompileCancelled || (t.compile == CompileResult(true, true) && t.scan == ScanCancelled))
  }

  predicate BuildsAt(c: Core, trials: seq<Trial>, i: nat, req: Request) {
    i < |trials| && Builds(Worked(c, trials[..i]), trials[i], req)
  }

  predicate HoldsAt(c: Core, trials: seq<Trial>, i: nat, req: Request) {
    i < |trials| && Holds(Worked(c, trials[..i]), trials[i], req)
  }

  lemma PollBuildsIff(w: Work, t: Trial, req: Request)
    ensures req in Polled(w, t).built <==> req in w.built || Builds(w, t, req)
    ensures req in Polled(w, t).held <==> req in w.held || Holds(w, t, req)
  {}

  lemma EarlierPolls(c: Core, trials: seq<Trial>, n: nat, i: nat, req: Request)
    requires i < n <= |trials|
    ensures BuildsAt(c, trials[..n], i, req) <==> BuildsAt(c, trials, i, req)
    ensures HoldsAt(c, trials[..n], i, req) <==> HoldsAt(c, trials, i, req)
  {
    assert trials[..n][..i] == trials[..i];
  }

  /** A request counts as built after a run exactly when some poll of the run builds it, so never without a
      clean scan. */
  lemma {:induction false} BuiltIff(c: Core, trials: seq<Trial>, req: Request)
    ensures req in Worked(c, trials).built <==> exists i: nat :: BuildsAt(c, trials, i, req)
  {
    if trials != [] {
      var n := |trials| - 1;
      BuiltIff(c, trials[..n], req);
      PollBuildsIff(Worked(c, trials[..n]), trials[n], req);
      forall i: nat | i < n ensures BuildsAt(c, trials[..n], i, req) <==> BuildsAt(c, trials, i, req) {
        EarlierPolls(c, trials, n, i, req);
      }
      assert BuildsAt(c, trials, n, req) <==> Builds(Worked(c, trials[..n]), trials[n], req);
    }
  }

  /** A request is held after a run exactly when some poll of the run is cancelled on it. */
  lemma {:induction false} HeldIff(c: Core, trials: seq<Trial>, req: Request)
    ensures req in Worked(c, trials).held <==> exists i: nat :: HoldsAt(c, trials, i, req)
  {
    if trials != [] {
      var n := |trials| - 1;
      HeldIff(c, trials[..n], req);
      PollBuildsIff(Worked(c, trials[..n]), trials[n], req);
      forall i: nat | i < n ensures HoldsAt(c, trials[..n], i, req) <==> HoldsAt(c, trials, i, req) {
        EarlierPolls(c, trials, n, i, req);
      }
      assert HoldsAt(c, trials, n, req) <==> Holds(Worked(c, trials[..n]), trials[n], req);
    }
  }
}
