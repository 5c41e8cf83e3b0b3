/** The parallel download of virtualization/fetcher.py: the loop that plans inclusive byte
    ranges, and the concurrent tasks that fetch them into one preallocated file under a
    semaphore and a lock, as a step system. */
module ChunkDownload {

  type Bytes = seq<bv8>

  /** An inclusive byte range, as a Range header names it. */
  datatype Range = Range(start: nat, end: nat)

  function Size(r: Range): int { r.end - r.start + 1 }

  /** Contiguous ranges from byte 0 to byte total - 1, none empty, none above `size`, all but
      the last exactly `size`. */
  ghost predicate Partitions(plan: seq<Range>, total: nat, size: nat) {
    && (plan == [] <==> total == 0)
    && (plan != [] ==> plan[0].start == 0 && plan[|plan| - 1].end == total - 1)
    && (forall i :: 0 <= i < |plan| ==> 1 <= Size(plan[i]) <= size)
    && Linked(plan)
    && (forall i :: 0 <= i < |plan| - 1 ==> Size(plan[i]) == size)
  }

  /** Each range begins where the one before it ends. */
  ghost predicate Linked(plan: seq<Range>) {
    forall i :: 0 <= i < |plan| - 1 ==> plan[i + 1].start == plan[i].end + 1
  }

  lemma LinkedExtended(plan: seq<Range>, r: Range)
    requires Linked(plan) && (plan != [] ==> plan[|plan| - 1].end + 1 == r.start)
    ensures Linked(plan + [r])
  {}

  lemma Extended(plan: seq<Range>, offset: nat, size: nat, r: Range)
    requires Partitions(plan, offset, size) && r.start == offset && 1 <= Size(r) <= size
    requires forall i :: 0 <= i < |plan| ==> Size(plan[i]) == size
    ensures Partitions(plan + [r], r.end + 1, size)
  {
    LinkedExtended(plan, r);
  }

  method PlanChunks(total: nat, chunkSize: nat) returns (chunks: seq<Range>)
    requires chunkSize >= 1
    ensures Partitions(chunks, total, chunkSize)
  {
    chunks := [];
    var offset := 0;
    while offset < total
      invariant 0 <= offset <= total
      invariant Partitions(chunks, offset, chunkSize)
      invariant offset < total ==> forall i :: 0 <= i < |chunks| ==> Size(chunks[i]) == chunkSize
      decreases total - offset
    {
      var end := if offset + chunkSize - 1 <= total - 1 then offset + chunkSize - 1 else total - 1;
      Extended(chunks, offset, chunkSize, Range(offset, end));
      chunks := chunks + [Range(offset, end)];
      offset := end + 1;
    }
  }

  lemma {:induction false} StartsOrdered(plan: seq<Range>, total: nat, size: nat, i: nat, j: nat)
    requires Partitions(plan, total, size) && i < j < |plan|
    ensures plan[i].end < plan[j].start
    decreases j
  {
    if i < j - 1 { StartsOrdered(plan, total, size, i, j - 1); }
  }

  /** The range that byte `k` falls in. */
  lemma {:induction false} RangeOf(plan: seq<Range>, total: nat, size: nat, k: nat, n: nat) returns (i: nat)
    requires Partitions(plan, total, size) && n < |plan| && k <= plan[n].end
    ensures i <= n && plan[i].start <= k <= plan[i].end
    decreases n
  {
    if k >= plan[n].start { i := n; } else { i := RangeOf(plan, total, size, k, n - 1); }
  }

  /** Every byte is in exactly one planned range, and no range reaches past the end. */
  lemma PlanCoversOnce(plan: seq<Range>, total: nat, size: nat, k: nat)
    requires Partitions(plan, total, size)
    ensures k < total ==> exists i :: 0 <= i < |plan| && plan[i].start <= k <= plan[i].end
    ensures forall i, j :: 0 <= i < j < |plan| ==>
              !(plan[i].start <= k <= plan[i].end && plan[j].start <= k <= plan[j].end)
    ensures k >= total ==> forall i :: 0 <= i < |plan| ==> !(plan[i].start <= k <= plan[i].end)
  {
    if k < total {
      var i := RangeOf(plan, total, size, k, |plan| - 1);
    }
    forall i, j | 0 <= i < j < |plan|
      ensures !(plan[i].start <= k <= plan[i].end && plan[j].start <= k <= plan[j].end)
    {
      StartsOrdered(plan, total, size, i, j);
    }
    forall i | 0 <= i < |plan| ensures plan[i].end < total {
      if i < |plan| - 1 { StartsOrdered(plan, total, size, i, |plan| - 1); }
    }
  }

  // ---------------------------------------------------------------- the tasks

  /** A chunk task: before the semaphore, awaiting the response, awaiting the lock, holding
      the lock, finished, or ended by a request that raised. */
  datatype Phase = Waiting | Fetching | Received(data: Bytes) | Writing(chunk: Bytes) | Done | Failed

  datatype Lock = Free | HeldBy(task: nat)

  datatype Down = Down(phases: seq<Phase>, permits: nat, lock: Lock, file: Bytes, downloaded: nat, progress: seq<nat>)

  /** A failed request gives its permit back and makes the whole download raise, but the other
      tasks go on. */
  datatype Step =
    | Acquire(i: nat)
    | Receive(i: nat, content: Bytes)
    | Fail(i: nat)
    | TakeLock(i: nat)
    | Write(i: nat)

  function Init(plan: seq<Range>, total: nat, maxConcurrent: nat): Down {
    Down(seq(|plan|, _ => Waiting), maxConcurrent, Free, seq(total, _ => 0), 0, [])
  }

  predicate Enabled(d: Down, s: Step) {
    s.i < |d.phases| &&
    match s
    case Acquire(i) => d.phases[i].Waiting? && d.permits > 0
    case Receive(i, _) => d.phases[i].Fetching?
    case Fail(i) => d.phases[i].Fetching?
    case TakeLock(i) => d.phases[i].Received? && d.lock.Free?
    case Write(i) => d.phases[i].Writing?
  }

  /** Seek and write in a file opened for update; a write past the end extends it. */
  function Overwrite(file: Bytes, at: nat, data: Bytes): Bytes
    requires at <= |file|
  {
    file[..at] + data + if at + |data| <= |file| then file[at + |data|..] else []
  }

  function Next(plan: seq<Range>, d: Down, s: Step): Down
    requires |d.phases| == |plan| && Enabled(d, s)
  {
    match s
    case Acquire(i) => d.(phases := d.phases[i := Fetching], permits := d.permits - 1)
    case Receive(i, content) => d.(phases := d.phases[i := Received(content)])
    case Fail(i) => d.(phases := d.phases[i := Failed], permits := d.permits + 1)
    case TakeLock(i) => d.(phases := d.phases[i := Writing(d.phases[i].data)], lock := HeldBy(i))
    case Write(i) =>
      var data, at := d.phases[i].chunk, plan[i].start;
      Down(d.phases[i := Done], d.permits + 1, Free,
           if at <= |d.file| then Overwrite(d.file, at, data) else d.file + seq(at - |d.file|, _ => 0) + data,
           d.downloaded + |data|, d.progress + [d.downloaded + |data|])
  }

  predicate Runs(plan: seq<Range>, d: Down, steps: seq<Step>)
    requires |d.phases| == |plan|
    decreases steps
  {
    steps == [] || (Enabled(d, steps[0]) && Runs(plan, Next(plan, d, steps[0]), steps[1..]))
  }

  function Exec(plan: seq<Range>, d: Down, steps: seq<Step>): (r: Down)
    requires |d.phases| == |plan| && Runs(plan, d, steps)
    ensures |r.phases| == |plan|
    decreases steps
  {
    if steps == [] then d else Exec(plan, Next(plan, d, steps[0]), steps[1..])
  }

  // ---------------------------------------------------------------- control: any server

  predicate Active(p: Phase) { !p.Waiting? && !p.Done? && !p.Failed? }

  function ActiveCount(ps: seq<Phase>): nat {
    if ps == [] then 0 else ActiveCount(ps[..|ps| - 1]) + if Active(ps[|ps| - 1]) then 1 else 0
  }

  /** The steps a task is short of being done; a failed one stays two short. */
  function StepsLeft(p: Phase): nat {
    match p
    case Waiting => 4
    case Fetching => 3
    case Received(_) => 2
    case Failed => 2
    case Writing(_) => 1
    case Done => 0
  }

  predicate Ended(p: Phase) { p.Done? || p.Failed? }

  function Work(ps: seq<Phase>): nat {
    if ps == [] then 0 else Work(ps[..|ps| - 1]) + StepsLeft(ps[|ps| - 1])
  }

  lemma {:induction false} CountsAfterChange(ps: seq<Phase>, i: nat, p: Phase)
    requires i < |ps|
    ensures Work(ps[i := p]) == Work(ps) - StepsLeft(ps[i]) + StepsLeft(p)
    ensures ActiveCount(ps[i := p]) ==
              ActiveCount(ps) - (if Active(ps[i]) then 1 else 0) + if Active(p) then 1 else 0
  {
    var n := |ps| - 1;
    if i == n {
      assert ps[i := p][..n] == ps[..n];
    } else {
      CountsAfterChange(ps[..n], i, p);
      assert ps[i := p][..n] == ps[..n][i := p];
    }
  }

  lemma {:induction false} NoneActive(ps: seq<Phase>)
    requires forall i :: 0 <= i < |ps| ==> !Active(ps[i])
    ensures ActiveCount(ps) == 0
  {
    if ps != [] { NoneActive(ps[..|ps| - 1]); }
  }

  lemma {:induction false} WorkOfWaiting(ps: seq<Phase>)
    requires forall i :: 0 <= i < |ps| ==> ps[i].Waiting?
    ensures Work(ps) == 4 * |ps|
  {
    if ps != [] { WorkOfWaiting(ps[..|ps| - 1]); }
  }

  lemma {:induction false} WorkOfDone(ps: seq<Phase>)
    ensures Work(ps) == 0 <==> forall i :: 0 <= i < |ps| ==> ps[i].Done?
  {
    if ps != [] { WorkOfDone(ps[..|ps| - 1]); }
  }

  ghost predicate ControlInv(d: Down, maxConcurrent: nat) {
    && d.permits + ActiveCount(d.phases) == maxConcurrent
    && (forall i :: 0 <= i < |d.phases| ==> (d.phases[i].Writing? <==> d.lock == HeldBy(i)))
    && (d.lock.HeldBy? ==> d.lock.task < |d.phases|)
  }

  lemma NextKeepsControl(plan: seq<Range>, d: Down, s: Step, maxConcurrent: nat)
    requires |d.phases| == |plan| && Enabled(d, s) && ControlInv(d, maxConcurrent)
    ensures ControlInv(Next(plan, d, s), maxConcurrent)
    ensures Work(Next(plan, d, s).phases) == Work(d.phases) - 1
  {
    CountsAfterChange(d.phases, s.i, Next(plan, d, s).phases[s.i]);
  }

  lemma {:induction false} ExecKeepsControl(plan: seq<Range>, d: Down, steps: seq<Step>, maxConcurrent: nat)
    requires |d.phases| == |plan| && Runs(plan, d, steps) && ControlInv(d, maxConcurrent)
    ensures ControlInv(Exec(plan, d, steps), maxConcurrent)
    ensures Work(Exec(plan, d, steps).phases) == Work(d.phases) - |steps|
    decreases steps
  {
    if steps != [] {
      NextKeepsControl(plan, d, steps[0], maxConcurrent);
      ExecKeepsControl(plan, Next(plan, d, steps[0]), steps[1..], maxConcurrent);
    }
  }

  /** Whatever the server answers and in whatever order: at most `maxConcurrent` tasks are
      between the semaphore and their write, at most one is writing, and every run ends within
      four steps per chunk, taking them all exactly when no request failed. */
  lemma ConcurrencyIsBounded(plan: seq<Range>, total: nat, maxConcurrent: nat, steps: seq<Step>)
    requires Runs(plan, Init(plan, total, maxConcurrent), steps)
    ensures var d := Exec(plan, Init(plan, total, maxConcurrent), steps);
            && ActiveCount(d.phases) <= maxConcurrent
            && (forall i, j :: 0 <= i < j < |plan| ==> !(d.phases[i].Writing? && d.phases[j].Writing?))
            && |steps| <= 4 * |plan|
            && (|steps| == 4 * |plan| <==> forall i :: 0 <= i < |plan| ==> d.phases[i].Done?)
  {
    var d0 := Init(plan, total, maxConcurrent);
    InitControl(plan, total, maxConcurrent);
    ExecKeepsControl(plan, d0, steps, maxConcurrent);
    WorkOfDone(Exec(plan, d0, steps).phases);
  }

  lemma InitControl(plan: seq<Range>, total: nat, maxConcurrent: nat)
    ensures ControlInv(Init(plan, total, maxConcurrent), maxConcurrent)
    ensures Work(Init(plan, total, maxConcurrent).phases) == 4 * |plan|
  {
    NoneActive(Init(plan, total, maxConcurrent).phases);
    WorkOfWaiting(Init(plan, total, maxConcurrent).phases);
  }

  /** The tasks can only get stuck, before each is done or has failed, when the semaphore starts at
      zero. */
  lemma StuckOnlyWithoutPermits(plan: seq<Range>, total: nat, maxConcurrent: nat, steps: seq<Step>)
    requires Runs(plan, Init(plan, total, maxConcurrent), steps)
    ensures var d := Exec(plan, Init(plan, total, maxConcurrent), steps);
            (forall i :: 0 <= i < |plan| ==> Ended(d.phases[i])) || (exists s :: Enabled(d, s)) <==>
            maxConcurrent > 0 || plan == []
  {
    var d0 := Init(plan, total, maxConcurrent);
    InitControl(plan, total, maxConcurrent);
    ExecKeepsControl(plan, d0, steps, maxConcurrent);
    var d := Exec(plan, d0, steps);
    if i :| 0 <= i < |plan| && !Ended(d.phases[i]) {
      if maxConcurrent == 0 {
        NothingStarts(plan, total, steps);
      } else if j :| 0 <= j < |plan| && Active(d.phases[j]) {
        match d.phases[j]
        case Fetching => assert Enabled(d, Receive(j, []));
        case Writing(_) => assert Enabled(d, Write(j));
        case Received(_) =>
          if d.lock.Free? { assert Enabled(d, TakeLock(j)); } else { assert Enabled(d, Write(d.lock.task)); }
      } else {
        NoneActive(d.phases);
        assert Enabled(d, Acquire(i));
      }
    } else if maxConcurrent == 0 && plan != [] {
      NothingStarts(plan, total, steps);
    }
  }

  lemma NothingStarts(plan: seq<Range>, total: nat, steps: seq<Step>)
    requires Runs(plan, Init(plan, total, 0), steps)
    ensures steps == []
    ensures plan != [] ==> Exec(plan, Init(plan, total, 0), steps).phases[0].Waiting?
  {}

  // ---------------------------------------------------------------- data: an exact server

  /** The bytes a range names. */
  function Slice(remote: Bytes, r: Range): Bytes
    requires r.start <= r.end < |remote|
  {
    remote[r.start..r.end + 1]
  }

  /** Each response holds exactly the requested range. */
  predicate Exact(plan: seq<Range>, remote: Bytes, steps: seq<Step>) {
    forall k :: 0 <= k < |steps| && steps[k].Receive? ==>
      && steps[k].i < |plan|
      && var r := plan[steps[k].i];
         r.start <= r.end < |remote| && steps[k].content == Slice(remote, r)
  }

  function DoneBytes(plan: seq<Range>, ps: seq<Phase>): int
    requires |plan| == |ps|
  {
    if ps == [] then 0
    else DoneBytes(plan[..|ps| - 1], ps[..|ps| - 1]) + if ps[|ps| - 1].Done? then Size(plan[|ps| - 1]) else 0
  }

  lemma {:induction false} DoneBytesAfterChange(plan: seq<Range>, ps: seq<Phase>, i: nat, p: Phase)
    requires i < |ps| == |plan| && !ps[i].Done?
    ensures DoneBytes(plan, ps[i := p]) == DoneBytes(plan, ps) + if p.Done? then Size(plan[i]) else 0
  {
    var n := |ps| - 1;
    if i == n {
      assert ps[i := p][..n] == ps[..n];
    } else {
      DoneBytesAfterChange(plan[..n], ps[..n], i, p);
      assert ps[i := p][..n] == ps[..n][i := p];
    }
  }

  lemma {:induction false} DoneBytesOfNone(plan: seq<Range>, ps: seq<Phase>)
    requires |plan| == |ps| && forall i :: 0 <= i < |ps| ==> !ps[i].Done?
    ensures DoneBytes(plan, ps) == 0
  {
    if ps != [] { DoneBytesOfNone(plan[..|ps| - 1], ps[..|ps| - 1]); }
  }

  lemma {:induction false} DoneBytesOfAll(plan: seq<Range>, ps: seq<Phase>, total: nat, size: nat)
    requires |plan| == |ps| && Partitions(plan, total, size)
    requires forall i :: 0 <= i < |ps| ==> ps[i].Done?
    ensures DoneBytes(plan, ps) == total
  {
    if ps != [] {
      var n := |ps| - 1;
      if n > 0 { assert plan[n - 1 + 1].start == plan[n - 1].end + 1; }
      DoneBytesOfAll(plan[..n], ps[..n], plan[n].start, size);
    }
  }

  /** Every finished range holds the remote bytes. */
  ghost predicate Filled(plan: seq<Range>, remote: Bytes, ps: seq<Phase>, file: Bytes)
    requires |ps| == |plan| && |file| == |remote|
  {
    forall i, k :: 0 <= i < |plan| && ps[i].Done? && plan[i].start <= k <= plan[i].end && k < |remote| ==>
      file[k] == remote[k]
  }

  /** Every response under way holds its own range. */
  ghost predicate Carries(plan: seq<Range>, remote: Bytes, ps: seq<Phase>)
    requires |ps| == |plan|
  {
    forall i :: 0 <= i < |plan| ==>
      && plan[i].start <= plan[i].end < |remote|
      && (ps[i].Received? ==> ps[i].data == Slice(remote, plan[i]))
      && (ps[i].Writing? ==> ps[i].chunk == Slice(remote, plan[i]))
  }

  /** Reports rise strictly, and the last one is the count of bytes written. */
  ghost predicate Reports(progress: seq<nat>, downloaded: nat) {
    && (forall a, b :: 0 <= a < b < |progress| ==> progress[a] < progress[b])
    && downloaded == if progress == [] then 0 else progress[|progress| - 1]
  }

  ghost predicate DataInv(plan: seq<Range>, remote: Bytes, d: Down) {
    && |d.phases| == |plan| && |d.file| == |remote|
    && Filled(plan, remote, d.phases, d.file) && Carries(plan, remote, d.phases)
    && Reports(d.progress, d.downloaded)
    && d.downloaded == DoneBytes(plan, d.phases)
  }

  lemma OverwriteBytes(file: Bytes, remote: Bytes, r: Range, k: nat)
    requires |file| == |remote| && r.start <= r.end < |remote| && k < |remote|
    ensures |Overwrite(file, r.start, Slice(remote, r))| == |remote|
    ensures Overwrite(file, r.start, Slice(remote, r))[k] == if r.start <= k <= r.end then remote[k] else file[k]
  {}

  lemma WriteFills(plan: seq<Range>, remote: Bytes, ps: seq<Phase>, file: Bytes, i: nat)
    requires |ps| == |plan| && |file| == |remote| && i < |plan| && Filled(plan, remote, ps, file)
    requires plan[i].start <= plan[i].end < |remote|
    ensures |Overwrite(file, plan[i].start, Slice(remote, plan[i]))| == |remote|
    ensures Filled(plan, remote, ps[i := Done], Overwrite(file, plan[i].start, Slice(remote, plan[i])))
  {
    var file' := Overwrite(file, plan[i].start, Slice(remote, plan[i]));
    OverwriteBytes(file, remote, plan[i], 0);
    forall j, k | 0 <= j < |plan| && ps[i := Done][j].Done? && plan[j].start <= k <= plan[j].end && k < |remote|
      ensures file'[k] == remote[k]
    {
      OverwriteBytes(file, remote, plan[i], k);
    }
  }

  lemma WriteKeepsData(plan: seq<Range>, remote: Bytes, d: Down, i: nat)
    requires DataInv(plan, remote, d) && Enabled(d, Write(i))
    ensures DataInv(plan, remote, Next(plan, d, Write(i)))
  {
    var d' := Next(plan, d, Write(i));
    assert d'.phases == d.phases[i := Done];
    assert d'.file == Overwrite(d.file, plan[i].start, Slice(remote, plan[i]));
    DoneBytesAfterChange(plan, d.phases, i, Done);
    WriteFills(plan, remote, d.phases, d.file, i);
  }

  lemma NextKeepsData(plan: seq<Range>, remote: Bytes, d: Down, s: Step)
    requires DataInv(plan, remote, d) && Enabled(d, s)
    requires Exact(plan, remote, [s])
    ensures DataInv(plan, remote, Next(plan, d, s))
  {
    if s.Write? {
      WriteKeepsData(plan, remote, d, s.i);
    } else {
      assert [s][0] == s;
      DoneBytesAfterChange(plan, d.phases, s.i, Next(plan, d, s).phases[s.i]);
    }
  }

  lemma {:induction false} ExecKeepsData(plan: seq<Range>, remote: Bytes, d: Down, steps: seq<Step>)
    requires DataInv(plan, remote, d) && Runs(plan, d, steps) && Exact(plan, remote, steps)
    ensures DataInv(plan, remote, Exec(plan, d, steps))
    decreases steps
  {
    if steps != [] {
      NextKeepsData(plan, remote, d, steps[0]);
      assert forall k :: 0 <= k < |steps[1..]| ==> steps[1..][k] == steps[k + 1];
      ExecKeepsData(plan, remote, Next(plan, d, steps[0]), steps[1..]);
    }
  }

  lemma InitData(plan: seq<Range>, remote: Bytes, size: nat, maxConcurrent: nat)
    requires Partitions(plan, |remote|, size)
    ensures DataInv(plan, remote, Init(plan, |remote|, maxConcurrent))
  {
    DoneBytesOfNone(plan, Init(plan, |remote|, maxConcurrent).phases);
    forall i | 0 <= i < |plan| ensures plan[i].end < |remote| {
      if i < |plan| - 1 { StartsOrdered(plan, |remote|, size, i, |plan| - 1); }
    }
  }

  lemma AllDone(plan: seq<Range>, remote: Bytes, size: nat, d: Down)
    requires Partitions(plan, |remote|, size) && DataInv(plan, remote, d)
    requires forall i :: 0 <= i < |plan| ==> d.phases[i].Done?
    ensures d.file == remote && d.downloaded == |remote|
  {
    forall k | 0 <= k < |remote| ensures d.file[k] == remote[k] {
      var i := RangeOf(plan, |remote|, size, k, |plan| - 1);
    }
    DoneBytesOfAll(plan, d.phases, |remote|, size);
  }

  /** For every completion order: when all tasks are done the file is the remote content, and
      the progress reports rose strictly to exactly its size. */
  lemma FileIsRemote(plan: seq<Range>, remote: Bytes, size: nat, maxConcurrent: nat, steps: seq<Step>)
    requires Partitions(plan, |remote|, size)
    requires Runs(plan, Init(plan, |remote|, maxConcurrent), steps) && Exact(plan, remote, steps)
    requires forall i :: 0 <= i < |plan| ==> Exec(plan, Init(plan, |remote|, maxConcurrent), steps).phases[i].Done?
    ensures var d := Exec(plan, Init(plan, |remote|, maxConcurrent), steps);
            && d.file == remote && d.downloaded == |remote|
            && (forall a, b :: 0 <= a < b < |d.progress| ==> d.progress[a] < d.progress[b])
            && (remote != [] ==> d.progress != [] && d.progress[|d.progress| - 1] == |remote|)
  {
    var d0 := Init(plan, |remote|, maxConcurrent);
    InitData(plan, remote, size, maxConcurrent);
    ExecKeepsData(plan, remote, d0, steps);
    AllDone(plan, remote, size, Exec(plan, d0, steps));
  }

  // ---------------------------------------------------------------- the hash check

  datatype Outcome = Saved(content: Bytes) | HashMismatch

  /** The check after all tasks; a mismatch deletes the file. */
  function Verified(file: Bytes, expected: string, sha256: Bytes -> string): Outcome {
    if expected != "" && sha256(file) != expected then HashMismatch else Saved(file)
  }

  /** With an expected hash, no server can make the download keep a file of another hash; an
      exact server makes it keep the remote content, if and only if that has the hash. */
  lemma DownloadIsVerified(plan: seq<Range>, remote: Bytes, size: nat, maxConcurrent: nat, steps: seq<Step>,
                           expected: string, sha256: Bytes -> string)
    requires Partitions(plan, |remote|, size)
    requires Runs(plan, Init(plan, |remote|, maxConcurrent), steps)
    requires forall i :: 0 <= i < |plan| ==> Exec(plan, Init(plan, |remote|, maxConcurrent), steps).phases[i].Done?
    ensures var r := Verified(Exec(plan, Init(plan, |remote|, maxConcurrent), steps).file, expected, sha256);
            && (r.Saved? && expected != "" ==> sha256(r.content) == expected)
            && (Exact(plan, remote, steps) ==>
                  (r == Saved(remote) <==> expected == "" || sha256(remote) == expected)
                  && (r == HashMismatch <==> expected != "" && sha256(remote) != expected))
  {
    if Exact(plan, remote, steps) {
      FileIsRemote(plan, remote, size, maxConcurrent, steps);
    }
  }
}
