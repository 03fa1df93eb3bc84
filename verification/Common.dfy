/** Vocabulary shared by every module: optional values and the outcome of one API call. */
module Common {

  datatype Option<+T> = None | Some(value: T) {
    function GetOr(default: T): T {
      match this
      case Some(v) => v
      case None => default
    }
  }

  /** What one call to GitLab or to the Kubernetes API can do.
      `LostReply` took effect although the caller sees an error (a timeout after the write);
      `Conflict` is a rejected optimistic-lock write, which has no effect. */
  datatype Reply = Done | Failed | LostReply | Conflict {

    /** The call changed the server. */
    predicate Applied() {
      Done? || LostReply?
    }
  }

  /** The channel to the API servers. Every call may answer anything; `faults` counts the
      answers other than `Done`, so "no fault" is "the counter did not move". */
  class Api {
    var faults: nat

    constructor ()
      ensures faults == 0
    {
      faults := 0;
    }

    method Call() returns (r: Reply)
      modifies this
      ensures faults == old(faults) + (if r.Done? then 0 else 1)
    {
      r := *;
      if !r.Done? {
        faults := faults + 1;
      }
    }
  }

  /** The members of a set, in no particular order. */
  method SetToSeq<T(==)>(xs: set<T>) returns (out: seq<T>)
    ensures forall x :: x in out <==> x in xs
    ensures |out| == |xs|
  {
    out := [];
    var rest := xs;
    while rest != {}
      invariant rest <= xs
      invariant forall x :: x in out <==> x in xs - rest
      invariant |out| + |rest| == |xs|
    {
      var x :| x in rest;
      rest := rest - {x};
      out := out + [x];
    }
  }

  /** Marking one more member leaves fewer to mark. */
  lemma OneLess<T>(all: set<T>, done: set<T>, x: T)
    requires x in all && x !in done
    ensures |all - (done + {x})| < |all - done|
  {
    assert all - (done + {x}) == (all - done) - {x};
  }
}
