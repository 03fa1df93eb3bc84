/** The struct-closure worklist of the release watcher's awk program. */
module Worklist {
  import opened Common

  /** The declarations found in one config.go: the struct names, the capitalised words each
      body mentions, and the toml keys each declares. */
  datatype Source = Source(declared: set<string>, refs: map<string, seq<string>>, keys: map<string, seq<string>>)

  function Words(m: map<string, seq<string>>, x: string): seq<string> {
    if x in m then m[x] else []
  }

  predicate IsRoot(s: Source, x: string) {
    x in s.declared && "Kubernetes" <= x
  }

  /** One reference the closure follows. */
  predicate Edge(s: Source, x: string, y: string) {
    y != "" && y in Words(s.refs, x) && y in s.declared
  }

  /** `path` starts at a root and follows references to declared structs. */
  ghost predicate IsPath(s: Source, path: seq<string>) {
    |path| > 0 && IsRoot(s, path[0])
    && forall i | 0 <= i < |path| - 1 :: Edge(s, path[i], path[i + 1])
  }

  ghost predicate Reachable(s: Source, x: string) {
    exists path :: IsPath(s, path) && path[|path| - 1] == x
  }

  lemma ReachableStep(s: Source, x: string, y: string)
    requires Reachable(s, x) && Edge(s, x, y)
    ensures Reachable(s, y)
  {
    var path :| IsPath(s, path) && path[|path| - 1] == x;
    var longer := path + [y];
    assert IsPath(s, longer) && longer[|longer| - 1] == y;
  }

  /** A set holding the roots and closed under references holds everything reachable. */
  lemma {:induction false} ClosedHoldsReachable(s: Source, done: set<string>, path: seq<string>)
    requires IsPath(s, path)
    requires forall x | IsRoot(s, x) :: x in done
    requires forall x, y | x in done && Edge(s, x, y) :: y in done
    ensures path[|path| - 1] in done
    decreases |path|
  {
    if |path| > 1 {
      var shorter := path[..|path| - 1];
      assert IsPath(s, shorter);
      ClosedHoldsReachable(s, done, shorter);
      assert Edge(s, path[|path| - 2], path[|path| - 1]);
    }
  }

  /** What holds before queue[i] is read: only reachable structs are marked or queued, the
      read part is marked, and every root and every reference out of a marked struct has
      been marked or queued. */
  ghost predicate Inv(s: Source, done: set<string>, queue: seq<string>, i: nat) {
    && i <= |queue|
    && (forall x | x in done :: x in s.declared && Reachable(s, x))
    && (forall x | x in queue :: x in s.declared && Reachable(s, x))
    && (forall x | x in queue[..i] :: x in done)
    && (forall x | IsRoot(s, x) :: x in queue)
    && (forall x, y | x in done && Edge(s, x, y) :: y in done || y in queue)
  }

  lemma Start(s: Source, queue: seq<string>)
    requires forall x :: x in queue <==> IsRoot(s, x)
    ensures Inv(s, {}, queue, 0)
  {
    forall x | x in queue
      ensures Reachable(s, x)
    {
      var path := [x];
      assert IsPath(s, path) && path[|path| - 1] == x;
    }
  }

  lemma Skip(s: Source, done: set<string>, queue: seq<string>, i: nat)
    requires Inv(s, done, queue, i) && i < |queue| && queue[i] in done
    ensures Inv(s, done, queue, i + 1)
  {
  }

  lemma Mark(s: Source, done: set<string>, queue: seq<string>, i: nat, added: seq<string>)
    requires Inv(s, done, queue, i) && i < |queue|
    requires forall x | x in added :: x in s.declared && Reachable(s, x)
    requires forall y | Edge(s, queue[i], y) :: y in done + {queue[i]} || y in added
    ensures Inv(s, done + {queue[i]}, queue + added, i + 1)
  {
    assert (queue + added)[..i + 1] == queue[..i] + [queue[i]];
    assert queue[i] in queue;
  }

  lemma Finish(s: Source, done: set<string>, queue: seq<string>)
    requires Inv(s, done, queue, |queue|)
    ensures forall x :: x in done <==> Reachable(s, x)
    ensures done <= s.declared
  {
    assert queue[..|queue|] == queue;
    forall x | Reachable(s, x)
      ensures x in done
    {
      var path :| IsPath(s, path) && path[|path| - 1] == x;
      ClosedHoldsReachable(s, done, path);
    }
  }

  /** The END block: a queue that may hold duplicates and grows while it is read. Whatever
      order the structs come in, it stops and `done` is exactly the reachable set. */
  method Closure(s: Source) returns (done: set<string>)
    ensures forall x :: x in done <==> Reachable(s, x)
    ensures done <= s.declared
  {
    done := {};
    var queue := SetToSeq(set x | x in s.declared && "Kubernetes" <= x);
    Start(s, queue);
    var i := 0;
    while i < |queue|
      invariant Inv(s, done, queue, i)
      decreases |s.declared - done|, |queue| - i
    {
      var cur := queue[i];
      assert cur in queue;
      if cur in done {
        Skip(s, done, queue, i);
      } else {
        OneLess(s.declared, done, cur);
        var added := Enqueue(s, done + {cur}, cur);
        Mark(s, done, queue, i, added);
        done, queue := done + {cur}, queue + added;
      }
      i := i + 1;
    }
    Finish(s, done, queue);
  }

  /** The words of `cur` that are declared and not yet done, repeats included. */
  method Enqueue(s: Source, done: set<string>, cur: string) returns (added: seq<string>)
    requires Reachable(s, cur)
    ensures forall x | x in added :: x in s.declared && Reachable(s, x)
    ensures forall y | Edge(s, cur, y) :: y in done || y in added
  {
    added := [];
    var words := Words(s.refs, cur);
    for j := 0 to |words|
      invariant forall x | x in added :: x in s.declared && Reachable(s, x)
      invariant forall y | y in words[..j] && y != "" && y in s.declared :: y in done || y in added
    {
      if words[j] != "" && words[j] in s.declared && words[j] !in done {
        assert Edge(s, cur, words[j]);
        ReachableStep(s, cur, words[j]);
        added := added + [words[j]];
      }
    }
    assert words[..|words|] == words;
  }

  /** The watcher's output: a line `Struct.key` for each toml key of each marked struct. */
  method KubeKeys(s: Source) returns (lines: set<(string, string)>)
    ensures forall x, k :: (x, k) in lines <==> Reachable(s, x) && k in Words(s.keys, x) && k != ""
  {
    var done := Closure(s);
    lines := set x, k | x in done && k in Words(s.keys, x) && k != "" :: (x, k);
  }
}
