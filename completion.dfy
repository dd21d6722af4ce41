/**
 * The completed-pickup markers: a list of customer ids that
 * `toggleComplete` adds an id to or removes it from (app.jsx).
 */
module Completion {
  import opened Seqs

  /** `(c) => c !== id` */
  function Other(id: int): int -> bool
  {
    (c: int) => c != id
  }

  /**
   * `completed.includes(id) ? completed.filter((c) => c !== id) : [...completed, id]`.
   * The id is a member afterwards exactly when it was not before, and every
   * other id keeps its membership.
   */
  function Toggle(cs: seq<int>, id: int): (r: seq<int>)
    ensures id in r <==> id !in cs
    ensures forall x :: x != id ==> (x in r <==> x in cs)
  {
    if id in cs then Filter(Other(id), cs) else cs + [id]
  }

  /** Ids other than the toggled one keep their relative order (and their multiplicities). */
  lemma {:induction false} ToggleKeepsOthers(cs: seq<int>, id: int)
    ensures Filter(Other(id), Toggle(cs, id)) == Filter(Other(id), cs)
  {
    if id in cs {
      FilterAll(Other(id), Filter(Other(id), cs));
    } else {
      FilterConcat(Other(id), cs, [id]);
      FilterSingleton(Other(id), id);
      assert Filter(Other(id), cs) + [] == Filter(Other(id), cs);
    }
  }

  /** A list of markers without duplicates has none after a toggle. */
  lemma {:induction false} ToggleKeepsNoDuplicates(cs: seq<int>, id: int)
    requires NoDuplicates(cs)
    ensures NoDuplicates(Toggle(cs, id))
  {
    if id in cs {
      FilterCounts(Other(id), cs);
    } else {
      assert multiset(cs + [id]) == multiset(cs) + multiset{id};
    }
  }

  /** Toggling an absent id twice gives back exactly the original list. */
  lemma {:induction false} ToggleTwiceAbsent(cs: seq<int>, id: int)
    requires id !in cs
    ensures Toggle(Toggle(cs, id), id) == cs
  {
    assert id in cs + [id];
    FilterConcat(Other(id), cs, [id]);
    FilterSingleton(Other(id), id);
    FilterAll(Other(id), cs);
    assert cs + [] == cs;
  }

  /**
   * Toggling a present id twice keeps the same members, but the id moves to
   * the end (and any duplicates of it collapse into one).
   */
  lemma {:induction false} ToggleTwicePresent(cs: seq<int>, id: int)
    requires id in cs
    ensures Toggle(Toggle(cs, id), id) == Filter(Other(id), cs) + [id]
    ensures forall x :: x in Toggle(Toggle(cs, id), id) <==> x in cs
  {
  }
}
