/** The bounded FIFO queue the module is given by its host: a push fails on a full or terminated
    queue, a pop on an empty or terminated one. */
module Queues {
  import opened Sums

  datatype Queue<T> = Queue(items: seq<T>, capacity: nat, terminated: bool)

  predicate CanPush<T>(q: Queue<T>) { !q.terminated && |q.items| < q.capacity }

  predicate CanPop<T>(q: Queue<T>) { !q.terminated && q.items != [] }

  function Push<T>(q: Queue<T>, x: T): Queue<T> {
    if CanPush(q) then q.(items := q.items + [x]) else q
  }

  function Pop<T>(q: Queue<T>): Queue<T> {
    if CanPop(q) then q.(items := q.items[1..]) else q
  }

  predicate Distinct<T(==)>(s: seq<T>) {
    forall i, j :: 0 <= i < j < |s| ==> s[i] != s[j]
  }
}
