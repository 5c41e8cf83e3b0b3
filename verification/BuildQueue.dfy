/** The build queue of builder/queue.py: the queue as an object with its four operations, and
    the value-level steps its contracts are stated in. */
module BuildQueueModel {
  import opened StableOrder

  const LOWEST_PRIORITY := 10

  datatype Request = Request(requestId: string, priority: int)

  type Job = Entry<Request>

  /** The queue in order, and the requests handed out and not yet settled. */
  datatype Core = Core(queue: seq<Job>, processing: map<string, Request>)

  function Min(a: int, b: int): int { if a <= b then a else b }

  function Pushed(c: Core, r: Request, now: real): Core {
    c.(queue := StableSort(c.queue + [Entry(r.priority, now, r)]))
  }

  function Popped(c: Core): Core {
    if c.queue == [] then c
    else Core(c.queue[1..], c.processing[c.queue[0].req.requestId := c.queue[0].req])
  }

  function Completed(c: Core, id: string): Core {
    c.(processing := c.processing - {id})
  }

  function Demoted(r: Request): Request {
    r.(priority := Min(r.priority + 1, LOWEST_PRIORITY))
  }

  function Failed(c: Core, id: string, now: real): Core {
    if id in c.processing then Pushed(Completed(c, id), Demoted(c.processing[id]), now) else c
  }

  /** `q'` is `q` with the failed request put in at `n`: one worse in priority, but no worse than 10,
      and timed at the failure. */
  predicate SplicedDemoted(q: seq<Job>, r: Request, now: real, n: nat, q': seq<Job>) {
    var p := if r.priority < 10 then r.priority + 1 else 10;
    n <= |q| && q' == q[..n] + [Entry(p, now, Request(r.requestId, p))] + q[n..]
  }

  /** Failing a request that is being processed takes it out of the table and puts it back in the
      ordered queue, where nothing else changes; within the documented range of priorities it never
      comes back with a better one. */
  lemma FailDemotes(c: Core, id: string, now: real) returns (n: nat)
    requires Sorted(c.queue) && id in c.processing
    ensures var c', r := Failed(c, id, now), c.processing[id];
            && c'.processing == c.processing - {id} && Sorted(c'.queue)
            && SplicedDemoted(c.queue, r, now, n, c'.queue)
            && (r.priority <= 10 ==> r.priority <= c'.queue[n].prio <= 10)
            && (r.priority < 10 ==> c'.queue[n].prio == r.priority + 1)
  {
    var r := Demoted(c.processing[id]);
    var e := Entry(r.priority, now, r);
    SortSorts(c.queue + [e]);
    AppendThenSort(c.queue, e);
    n := InsertPos(c.queue, e);
  }

  class BuildQueue {
    var queue: seq<Job>
    var processing: map<string, Request>

    ghost function View(): Core
      reads this
    {
      Core(queue, processing)
    }

    constructor ()
      ensures View() == Core([], map[])
    {
      queue, processing := [], map[];
    }

    method Push(request: Request, now: real)
      modifies this`queue
      ensures View() == Pushed(old(View()), request, now)
      ensures old(Sorted(queue)) ==>
        exists n :: 0 <= n <= |old(queue)|
          && queue == old(queue)[..n] + [Entry(request.priority, now, request)] + old(queue)[n..]
          && Sorted(queue)
    {
      ghost var q, e := queue, Entry(request.priority, now, request);
      queue := queue + [Entry(request.priority, now, request)];
      queue := StableSort(queue);
      if Sorted(q) {
        SortSorts(q + [e]);
        AppendThenSort(q, e);
      }
    }

    method Pop() returns (req: Request, found: bool)
      modifies this
      ensures View() == Popped(old(View()))
      ensures found <==> old(queue) != []
      ensures if found then
                && queue == old(queue)[1..] && req == old(queue)[0].req
                && processing == old(processing)[req.requestId := req]
              else queue == [] && processing == old(processing)
    {
      if queue == [] {
        return Request("", 0), false;
      }
      req, found := queue[0].req, true;
      queue := queue[1..];
      processing := processing[req.requestId := req];
    }

    method Complete(requestId: string)
      modifies this`processing
      ensures View() == Completed(old(View()), requestId)
      ensures processing == old(processing) - {requestId}
    {
      processing := processing - {requestId};
    }

    method Fail(requestId: string, now: real)
      modifies this
      ensures View() == Failed(old(View()), requestId, now)
      ensures requestId !in old(processing) ==> queue == old(queue) && processing == old(processing)
      ensures requestId in old(processing) && old(Sorted(queue)) ==>
        processing == old(processing) - {requestId} && Sorted(queue) &&
        exists n :: SplicedDemoted(old(queue), old(processing)[requestId], now, n, queue)
    {
      ghost var c := View();
      if requestId in processing {
        var req := processing[requestId];
        processing := processing - {requestId};
        req := req.(priority := Min(req.priority + 1, LOWEST_PRIORITY));
        Push(req, now);
        if Sorted(c.queue) {
          ghost var n := FailDemotes(c, requestId, now);
        }
      }
    }
  }
}
