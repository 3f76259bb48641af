/** The part of the Sidekiq job store the controller talks to: a job
    descriptor as `Sidekiq::Client.push` receives it, the store of
    submitted entries, and `Sidekiq::Queue.new(name).entries`. */
module Sidekiq {
  import opened Json

  /** The hash given to `Sidekiq::Client.push`: 'class', 'args', 'queue'
      and 'at' (seconds since the epoch). Sidekiq refuses a push whose
      args are not an Array, so every entry's args is a sequence. */
  datatype Job = Job(jobClass: string, args: seq<Value>, queue: string, at: int)

  /** The entries of `entries` that wait in the queue called `queue`,
      in the order they were pushed. A pushed job counts as an entry of its
      queue from the moment it is pushed, whatever its `at`, and no worker
      ever takes it. */
  function Pending(entries: seq<Job>, queue: string): (r: seq<Job>)
    ensures forall j :: j in r <==> j in entries && j.queue == queue
    ensures |r| <= |entries|
  {
    if entries == [] then []
    else (if entries[0].queue == queue then [entries[0]] else []) + Pending(entries[1..], queue)
  }

  /** Pushing a job leaves the earlier entries of every queue pending. */
  lemma {:induction false} PendingAppend(entries: seq<Job>, job: Job, queue: string)
    ensures Pending(entries + [job], queue)
         == Pending(entries, queue) + (if job.queue == queue then [job] else [])
  {
    if entries == [] {
      assert entries + [job] == [job];
    } else {
      assert (entries + [job])[1..] == entries[1..] + [job];
      PendingAppend(entries[1..], job, queue);
    }
  }

  /** The duplicate test of the controller: same class and array-equal
      args; the queue and the time are not part of a job's identity. */
  predicate SameWork(entry: Job, jobClass: string, args: seq<Value>)
    ensures SameWork(entry, jobClass, args) <==> entry == Job(jobClass, args, entry.queue, entry.at)
  {
    entry.jobClass == jobClass && entry.args == args
  }

  /** Some pending entry does the same work. */
  predicate HasDuplicate(pending: seq<Job>, jobClass: string, args: seq<Value>)
    ensures HasDuplicate(pending, jobClass, args) <==> exists j :: j in pending && SameWork(j, jobClass, args)
  {
    exists i :: 0 <= i < |pending| && SameWork(pending[i], jobClass, args)
  }

  /** The job store behind every queue, as a sequence of the entries
      pushed so far. */
  class Store {
    var entries: seq<Job>

    constructor (initial: seq<Job>)
      ensures entries == initial
    {
      entries := initial;
    }

    /** `Sidekiq::Client.push`: the job is appended and nothing else changes. */
    method Push(job: Job)
      modifies this
      ensures entries == old(entries) + [job]
    {
      entries := entries + [job];
    }
  }
}
