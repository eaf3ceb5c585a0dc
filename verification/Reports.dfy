/** An option type, shared by every component. */
module Options {
  datatype Option<+T> = None | Some(value: T)
}

/** A law of sequences that proofs over appended logs ask for. */
module Sequences {
  lemma Associates<T>(a: seq<T>, b: seq<T>, c: seq<T>)
    ensures a + (b + c) == (a + b) + c
  {
  }
}

/** The status report an actor publishes (sphactor_report.c). */
module Reports {
  datatype Status = INIT | IDLE | STOP | DESTROY | SOCK | TIME | FDSOCK | API

  datatype Report = Report(status: Status, iterations: nat, recvTime: int, sendTime: int)

  /** q does not go backwards from p in any of its counters. */
  predicate NotOlder(p: Report, q: Report) {
    p.iterations <= q.iterations && p.recvTime <= q.recvTime && p.sendTime <= q.sendTime
  }

  predicate Sorted(log: seq<Report>) {
    forall i, j :: 0 <= i < j < |log| ==> NotOlder(log[i], log[j])
  }
}
