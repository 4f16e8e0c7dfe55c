/** The one thing the modules above the ring use of it: it is a queue. */
module Queues {

  /** A queue takes one element at its end, or gives up its first, or stays as it is. */
  ghost predicate QueueStep<T(!new)>(q: seq<T>, q': seq<T>) {
    || q' == q
    || (exists x :: q' == q + [x])
    || (q != [] && q' == q[1..])
  }
}
