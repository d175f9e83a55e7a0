/** The process-wide FIFO queue that execution log lines pass through on their
    way to the logs writer, and the function that enqueues one line. */
module ExecutionLogsQueue {
  import opened Wrappers
  import opened Values
  import opened UserContext

  /** A `queue.Queue`: first in, first out; a `maxsize` of 0 means unbounded. */
  class Queue {
    const maxsize: nat
    var items: seq<Dictionary>

    constructor (maxsize: nat)
      ensures this.maxsize == maxsize && items == []
    {
      this.maxsize := maxsize;
      items := [];
    }

    /** `put_nowait` refuses an item exactly when a bounded queue is at capacity. */
    predicate Full()
      reads this
    {
      0 < maxsize <= |items|
    }

    /** `put_nowait(item)`: appends at the back, or raises `queue.Full`
        (here `Failure`) and leaves the queue as it was. */
    method PutNowait(item: Dictionary) returns (r: Result<()>)
      modifies this
      ensures r.Failure? <==> old(Full())
      ensures r.Success? ==> items == old(items) + [item]
      ensures r.Failure? ==> items == old(items)
    {
      if Full() {
        return Failure("queue.Full");
      }
      items := items + [item];
      return Success(());
    }
  }

  /** The singleton holder: the one instance owns the one queue. */
  class JobOutputQueue {
    const queue: Queue

    constructor (maxsize: nat)
      ensures fresh(queue) && queue.maxsize == maxsize && queue.items == []
    {
      queue := new Queue(maxsize);
    }

    /** `get_queue` */
    method GetQueue() returns (q: Queue)
      ensures q == queue
    {
      q := queue;
    }
  }

  /** The module's process-wide state: the class attribute `_instance`, unset
      until the first construction. `capacity` is the `maxsize` the queue is
      created with; the queue of the system is created without one (0). */
  class Process {
    const capacity: nat
    var instance: JobOutputQueue?

    constructor (capacity: nat)
      ensures this.capacity == capacity && instance == null
    {
      this.capacity := capacity;
      instance := null;
    }

    /** The holder, once created, owns a queue of the configured capacity. */
    predicate Valid()
      reads this, instance
    {
      instance != null ==> instance.queue.maxsize == capacity
    }

    /** What the queue currently holds (nothing before the first use). */
    function Pending(): seq<Dictionary>
      reads this, instance, if instance != null then {instance.queue} else {}
    {
      if instance == null then [] else instance.queue.items
    }

    /** `JobOutputQueue()`: the first call creates the instance and its queue;
        every later call returns that same instance and creates nothing. */
    method NewJobOutputQueue() returns (h: JobOutputQueue)
      requires Valid()
      modifies this
      ensures Valid()
      ensures instance == h
      ensures old(instance) != null ==> h == old(instance)
      ensures old(instance) == null ==> fresh(h) && fresh(h.queue) && h.queue.items == []
    {
      if instance == null {
        instance := new JobOutputQueue(capacity);
      }
      h := instance;
    }

    /** `get_job_output_queue()`: always the queue of the one instance. */
    method GetJobOutputQueue() returns (q: Queue)
      requires Valid()
      modifies this
      ensures Valid()
      ensures instance != null && q == instance.queue
      ensures old(instance) != null ==> instance == old(instance) && q == old(instance).queue
      ensures old(instance) == null ==> fresh(q) && q.items == []
    {
      var h := NewJobOutputQueue();
      q := h.GetQueue();
    }

    /** `enqueue_log`: puts one record at the back of the shared queue and
        reports whether it was accepted; a full queue changes nothing. */
    method EnqueueLog(executionId: string, content: string, timestamp: Option<int>,
                      groupContext: Option<GroupContext>, now: int) returns (ok: bool)
      requires Valid()
      modifies this, if instance != null then {instance.queue} else {}
      ensures Valid()
      ensures instance != null
      ensures old(instance) != null ==> instance == old(instance)
      ensures ok <==> capacity == 0 || |old(Pending())| < capacity
      ensures ok ==> Pending() == old(Pending()) + [LogRecord(executionId, content, timestamp, groupContext, now)]
      ensures !ok ==> Pending() == old(Pending())
    {
      var q := GetJobOutputQueue();
      var record := LogRecord(executionId, content, timestamp, groupContext, now);
      var r := q.PutNowait(record);
      ok := r.Success?;
    }
  }

  function OptionalString(s: Option<string>): (v: Value)
    ensures s.None? ==> v == Null
    ensures s.Some? ==> v == Str(s.value)
  {
    match s
    case None => Null
    case Some(x) => Str(x)
  }

  /** The record handed to the logs writer: the job id, the content and the
      timestamp (the supplied one, else the current time); the group fields
      appear exactly when a group context is given. */
  function LogRecord(executionId: string, content: string, timestamp: Option<int>,
                     groupContext: Option<GroupContext>, now: int): (d: Dictionary)
    ensures d.Keys == {"job_id", "content", "timestamp"} + (if groupContext.Some? then {"group_id", "group_email"} else {})
    ensures d["job_id"] == Str(executionId) && d["content"] == Str(content)
    ensures d["timestamp"] == Time(timestamp.GetOr(now))
    ensures groupContext.Some? ==>
              d["group_id"] == OptionalString(groupContext.value.primaryGroupId) &&
              d["group_email"] == OptionalString(groupContext.value.groupEmail)
  {
    var base := map["job_id" := Str(executionId), "content" := Str(content), "timestamp" := Time(timestamp.GetOr(now))];
    match groupContext
    case None => base
    case Some(g) =>
      base["group_id" := OptionalString(g.primaryGroupId)]["group_email" := OptionalString(g.groupEmail)]
  }
}
