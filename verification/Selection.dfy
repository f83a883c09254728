/** What it means that a list keeps exactly some of the items of another, in their order. */
module Selection {

  /** Place `k` is among the places `at`. */
  ghost predicate Placed(at: seq<nat>, k: nat) {
    exists i :: 0 <= i < |at| && at[i] == k
  }

  /** The `i`-th kept item comes from its place. */
  predicate HitAt<A, B>(hit: (A, B) -> bool, source: seq<A>, kept: seq<B>, at: seq<nat>, i: nat)
    requires i < |at| == |kept|
  {
    at[i] < |source| && hit(source[at[i]], kept[i])
  }

  /** `kept` comes from the places `at` of `source`, in their order, and at all other places there is a miss. */
  ghost predicate KeepsAt<A, B>(hit: (A, B) -> bool, miss: A -> bool, source: seq<A>, kept: seq<B>, at: seq<nat>) {
    && |at| == |kept|
    && (forall i, j | 0 <= i < j < |at| :: at[i] < at[j])
    && (forall i: nat {:trigger HitAt(hit, source, kept, at, i)} | i < |at| :: HitAt(hit, source, kept, at, i))
    && (forall k: nat {:trigger Placed(at, k)} | k < |source| :: Placed(at, k) || miss(source[k]))
  }

  ghost predicate Keeps<A, B>(hit: (A, B) -> bool, miss: A -> bool, source: seq<A>, kept: seq<B>) {
    exists at: seq<nat> :: KeepsAt(hit, miss, source, kept, at)
  }

  function Shifted(at: seq<nat>): (later: seq<nat>)
    ensures |later| == |at| && forall i | 0 <= i < |at| :: later[i] == at[i] + 1
  {
    seq(|at|, i requires 0 <= i < |at| => at[i] + 1)
  }

  lemma KeepsNone<A, B>(hit: (A, B) -> bool, miss: A -> bool)
    ensures Keeps(hit, miss, [], [])
  {
    assert KeepsAt(hit, miss, [], [], []);
  }

  lemma KeepsMiss<A, B>(hit: (A, B) -> bool, miss: A -> bool, source: seq<A>, kept: seq<B>)
    requires source != [] && miss(source[0]) && Keeps(hit, miss, source[1..], kept)
    ensures Keeps(hit, miss, source, kept)
  {
    var rest: seq<nat> :| KeepsAt(hit, miss, source[1..], kept, rest);
    var at := Shifted(rest);
    forall i: nat | i < |at|
      ensures HitAt(hit, source, kept, at, i)
    {
      assert HitAt(hit, source[1..], kept, rest, i);
    }
    forall k: nat | k < |source|
      ensures Placed(at, k) || miss(source[k])
    {
      if k > 0 && Placed(rest, k - 1) {
        var i :| 0 <= i < |rest| && rest[i] == k - 1;
        assert at[i] == k;
      }
    }
    assert KeepsAt(hit, miss, source, kept, at);
  }

  lemma KeepsHit<A, B>(hit: (A, B) -> bool, miss: A -> bool, source: seq<A>, first: B, kept: seq<B>)
    requires source != [] && hit(source[0], first) && Keeps(hit, miss, source[1..], kept)
    ensures Keeps(hit, miss, source, [first] + kept)
  {
    var rest: seq<nat> :| KeepsAt(hit, miss, source[1..], kept, rest);
    var at := [0] + Shifted(rest);
    forall i: nat | i < |at|
      ensures HitAt(hit, source, [first] + kept, at, i)
    {
      if i > 0 {
        assert HitAt(hit, source[1..], kept, rest, i - 1);
      }
    }
    forall k: nat | k < |source|
      ensures Placed(at, k) || miss(source[k])
    {
      if k == 0 {
        assert at[0] == 0;
      } else if Placed(rest, k - 1) {
        var i :| 0 <= i < |rest| && rest[i] == k - 1;
        assert at[i + 1] == k;
      }
    }
    assert KeepsAt(hit, miss, source, [first] + kept, at);
  }
}
