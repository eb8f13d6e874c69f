/**
 * CollectAllElements: the set of every element that a collector function
 * gathers from any of the given containers.
 */
module InstanceDatabaseUtils {

  /** The union of collector(c) over the containers, built left to right. */
  function UnionOf<E, C>(collector: C -> set<E>, inputs: seq<C>): (out: set<E>)
    ensures forall i :: 0 <= i < |inputs| ==> collector(inputs[i]) <= out
    decreases |inputs|
  {
    if inputs == [] then {}
    else UnionOf(collector, inputs[..|inputs| - 1]) + collector(inputs[|inputs| - 1])
  }

  /** An element is in the union exactly when some container's subset holds it. */
  lemma {:induction false} UnionOfMembership<E, C>(collector: C -> set<E>, inputs: seq<C>, e: E)
    ensures e in UnionOf(collector, inputs) <==> exists i :: 0 <= i < |inputs| && e in collector(inputs[i])
    decreases |inputs|
  {
    if inputs != [] {
      var init := inputs[..|inputs| - 1];
      UnionOfMembership(collector, init, e);
      if e in UnionOf(collector, init) {
        var i :| 0 <= i < |init| && e in collector(init[i]);
        assert inputs[i] == init[i];
      } else if e in UnionOf(collector, inputs) {
        assert e in collector(inputs[|inputs| - 1]);
      } else {
        forall i | 0 <= i < |inputs|
          ensures e !in collector(inputs[i])
        {
          if i < |init| {
            assert inputs[i] == init[i];
          }
        }
      }
    }
  }

  /**
   * The union depends only on which containers occur: reordering the inputs or
   * repeating one of them gives the same set.
   */
  lemma UnionOfIgnoresOrder<E, C>(collector: C -> set<E>, xs: seq<C>, ys: seq<C>)
    requires forall c :: c in xs <==> c in ys
    ensures UnionOf(collector, xs) == UnionOf(collector, ys)
  {
    forall e | e in UnionOf(collector, xs)
      ensures e in UnionOf(collector, ys)
    {
      UnionOfMembership(collector, xs, e);
      var i :| 0 <= i < |xs| && e in collector(xs[i]);
      assert xs[i] in ys;
      var j :| 0 <= j < |ys| && ys[j] == xs[i];
      UnionOfMembership(collector, ys, e);
    }
    forall e | e in UnionOf(collector, ys)
      ensures e in UnionOf(collector, xs)
    {
      UnionOfMembership(collector, ys, e);
      var j :| 0 <= j < |ys| && e in collector(ys[j]);
      assert ys[j] in xs;
      var i :| 0 <= i < |xs| && xs[i] == ys[j];
      UnionOfMembership(collector, xs, e);
    }
  }

  /**
   * CollectAllElements: inserts each container's collected subset into the
   * output. The output holds every collected element and nothing else, so no
   * inputs give the empty set.
   */
  method CollectAllElements<E, C>(collector: C -> set<E>, inputs: seq<C>) returns (output: set<E>)
    ensures output == UnionOf(collector, inputs)
    ensures forall e :: e in output <==> exists i :: 0 <= i < |inputs| && e in collector(inputs[i])
    ensures inputs == [] ==> output == {}
  {
    output := {};
    for k := 0 to |inputs|
      invariant output == UnionOf(collector, inputs[..k])
    {
      var subset := collector(inputs[k]);
      assert inputs[..k + 1][..k] == inputs[..k];
      output := output + subset;
    }
    assert inputs[..|inputs|] == inputs;
    forall e
      ensures e in output <==> exists i :: 0 <= i < |inputs| && e in collector(inputs[i])
    {
      UnionOfMembership(collector, inputs, e);
    }
  }
}
