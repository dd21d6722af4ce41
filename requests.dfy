/**
 * Approving a pending request: `find` picks the record to append to the
 * customers and `filter` drops every record with that id from the queue
 * (app.jsx, `approveCustomer`).
 */
module Requests {
  import opened Wrappers
  import opened Seqs
  import opened Forms

  /** `(p) => p.id === id` */
  function HasId(id: int): Record -> bool
  {
    (r: Record) => r.id == id
  }

  /** `(p) => p.id !== id` */
  function NotId(id: int): Record -> bool
  {
    Not(HasId(id))
  }

  /** The record at position `i` is the only one with `id`; other ids may repeat. */
  ghost predicate OnlyAt(ps: seq<Record>, id: int, i: nat)
  {
    i < |ps| && ps[i].id == id && forall j :: 0 <= j < |ps| && j != i ==> ps[j].id != id
  }

  /**
   * With `id` in the queue, approval appends the first record with that id,
   * unchanged, to the customers; no record with that id stays in the queue,
   * and the others stay in their original order with their multiplicities.
   */
  lemma {:induction false} ApprovePresent(ps: seq<Record>, id: int, i: nat)
    requires i < |ps| && ps[i].id == id
    requires forall j :: 0 <= j < i ==> ps[j].id != id
    ensures Find(HasId(id), ps) == Some(ps[i])
    ensures forall r :: r in Filter(NotId(id), ps) ==> r.id != id
    ensures IsSubsequence(Filter(NotId(id), ps), ps)
    ensures forall r: Record :: r.id != id ==> multiset(Filter(NotId(id), ps))[r] == multiset(ps)[r]
  {
    FindFirst(HasId(id), ps, i);
    FilterIsSubsequence(NotId(id), ps);
    FilterCounts(NotId(id), ps);
  }

  /**
   * With `id` absent, the queue is left as it is and `find` yields
   * `undefined`, which is still appended to the customers.
   */
  lemma {:induction false} ApproveAbsent(ps: seq<Record>, id: int)
    ensures (forall r :: r in ps ==> r.id != id) ==> Find(HasId(id), ps) == None
    ensures (forall r :: r in ps ==> r.id != id) ==> Filter(NotId(id), ps) == ps
  {
    if forall r :: r in ps ==> r.id != id {
      FilterAll(NotId(id), ps);
    }
  }

  /**
   * When exactly one request has `id` (as when ids are unique), approval is a
   * move: the record at position `i` leaves the queue and nothing else does.
   */
  lemma {:induction false} ApproveMoves(ps: seq<Record>, id: int, i: nat)
    requires OnlyAt(ps, id, i)
    ensures Find(HasId(id), ps) == Some(ps[i])
    ensures Filter(NotId(id), ps) == ps[..i] + ps[i + 1..]
    ensures multiset(Filter(NotId(id), ps)) + multiset{ps[i]} == multiset(ps)
  {
    FindFirst(HasId(id), ps, i);
    OthersHaveOtherIds(ps, id, i);
    SplitAt(ps, i);
    FilterDropsOne(NotId(id), ps[..i], ps[i], ps[i + 1..]);
  }

  /** When only position `i` has `id`, every record before and after it has a different id. */
  lemma {:induction false} OthersHaveOtherIds(ps: seq<Record>, id: int, i: nat)
    requires OnlyAt(ps, id, i)
    ensures forall x :: x in ps[..i] ==> NotId(id)(x)
    ensures forall x :: x in ps[i + 1..] ==> NotId(id)(x)
  {
    forall x | x in ps[..i] ensures NotId(id)(x) {
      var j :| 0 <= j < i && ps[..i][j] == x;
      assert ps[j] == x;
    }
    forall x | x in ps[i + 1..] ensures NotId(id)(x) {
      var j :| 0 <= j < |ps| - i - 1 && ps[i + 1..][j] == x;
      assert ps[i + 1 + j] == x;
    }
  }

  /**
   * Every record with `id` leaves the queue but only the first reaches the
   * customers: with k such records, k - 1 of them are lost from both lists.
   */
  lemma {:induction false} ApproveDropsDuplicates(ps: seq<Record>, id: int)
    ensures Find(HasId(id), ps) == if Filter(HasId(id), ps) == [] then None else Some(Filter(HasId(id), ps)[0])
    ensures |Filter(NotId(id), ps)| == |ps| - |Filter(HasId(id), ps)|
  {
    FindIsHeadOfFilter(HasId(id), ps);
    FilterSplit(HasId(id), ps);
  }

  /**
   * A public submission followed by the approval of its id (when no other
   * pending request has that id) puts the submitted draft into the customers
   * and leaves the queue as it was before the submission.
   */
  lemma {:induction false} SubmitThenApprove(ps: seq<Record>, f: Form, id: int)
    requires forall r :: r in ps ==> r.id != id
    ensures Find(HasId(id), ps + [Record(f, id)]) == Some(Record(f, id))
    ensures Filter(NotId(id), ps + [Record(f, id)]) == ps
  {
    FindFirst(HasId(id), ps + [Record(f, id)], |ps|);
    FilterConcat(NotId(id), ps, [Record(f, id)]);
    FilterAll(NotId(id), ps);
    FilterSingleton(NotId(id), Record(f, id));
  }
}
