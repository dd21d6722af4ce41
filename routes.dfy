/**
 * The `grouped` value: the customers split into one route per schedule, in
 * the fixed order Weekly, Bi-Weekly, Monthly, On Call (app.jsx).
 *
 * `grouped` is recomputed on every render, and each bucket reads
 * `c.schedule` of every entry. An `undefined` entry among the customers
 * (which approving an unknown id puts there) makes that read throw, so the
 * grouping is None in that case.
 */
module Routes {
  import opened Wrappers
  import opened Seqs
  import opened Forms

  /** The four buckets of `grouped`, one per key. */
  datatype Buckets = Buckets(weekly: seq<Record>, biWeekly: seq<Record>, monthly: seq<Record>, onCall: seq<Record>)

  /** `(c) => c.schedule === schedule` */
  function OnSchedule(schedule: string): Record -> bool
  {
    (c: Record) => c.form.schedule == schedule
  }

  /** The customers whose schedule is one of the four that have a route. */
  function Scheduled(): Record -> bool
  {
    (c: Record) => c.form.schedule in Schedules
  }

  /**
   * `grouped[key]` for the object's own keys: the bucket for each of the four
   * schedules, and None for any other key. Inherited properties are not
   * modelled; the routes view looks up only `Object.keys(grouped)`.
   */
  function Route(b: Buckets, key: string): (r: Option<seq<Record>>)
    ensures r.Some? <==> key in Schedules
  {
    if key == Weekly then Some(b.weekly)
    else if key == BiWeekly then Some(b.biWeekly)
    else if key == Monthly then Some(b.monthly)
    else if key == OnCall then Some(b.onCall)
    else None
  }

  /** The four `filter` calls of `grouped`, or None when one of them throws on an `undefined` customer. */
  function Group(customers: seq<Option<Record>>): (g: Option<Buckets>)
    ensures g.Some? <==> forall i :: 0 <= i < |customers| ==> customers[i].Some?
  {
    match Present(customers)
    case None => None
    case Some(cs) =>
      Some(Buckets(Filter(OnSchedule(Weekly), cs), Filter(OnSchedule(BiWeekly), cs),
                   Filter(OnSchedule(Monthly), cs), Filter(OnSchedule(OnCall), cs)))
  }

  /** The bucket `grouped[key]` of a schedule that has a route is the `filter` for that schedule. */
  lemma {:induction false} GroupRoute(customers: seq<Option<Record>>, key: string)
    requires forall i :: 0 <= i < |customers| ==> customers[i].Some?
    requires key in Schedules
    ensures Group(customers).Some?
    ensures Route(Group(customers).value, key) == Some(Filter(OnSchedule(key), Present(customers).value))
  {
    var cs := Present(customers).value;
    var b := Buckets(Filter(OnSchedule(Weekly), cs), Filter(OnSchedule(BiWeekly), cs),
                   Filter(OnSchedule(Monthly), cs), Filter(OnSchedule(OnCall), cs));
    assert Group(customers) == Some(b);
    if key == Weekly {
      assert Route(b, key) == Some(b.weekly);
    } else if key == BiWeekly {
      assert Route(b, key) == Some(b.biWeekly);
    } else if key == Monthly {
      assert Route(b, key) == Some(b.monthly);
    } else {
      assert key == OnCall;
      assert Route(b, key) == Some(b.onCall);
    }
  }

  /** The route for `key` is the customers on that schedule, with their multiplicities, in their original order. */
  lemma {:induction false} RouteContents(cs: seq<Record>, key: string)
    ensures forall c :: c in Filter(OnSchedule(key), cs) <==> c in cs && c.form.schedule == key
    ensures forall c: Record :: c.form.schedule == key ==> multiset(Filter(OnSchedule(key), cs))[c] == multiset(cs)[c]
    ensures IsSubsequence(Filter(OnSchedule(key), cs), cs)
  {
    FilterIsSubsequence(OnSchedule(key), cs);
    FilterCounts(OnSchedule(key), cs);
  }

  /**
   * Each route holds exactly the customers on its schedule, with their
   * multiplicities and in their original order; a customer is in at most
   * one route, and one whose schedule has no route is in none.
   */
  lemma {:induction false} RoutesPartition(customers: seq<Option<Record>>)
    requires forall i :: 0 <= i < |customers| ==> customers[i].Some?
    ensures Present(customers).Some? && Group(customers).Some?
    ensures var cs, b := Present(customers).value, Group(customers).value;
      && (forall key, c :: key in Schedules ==> (c in Route(b, key).value <==> c in cs && c.form.schedule == key))
      && (forall key, c: Record :: key in Schedules && c.form.schedule == key ==> multiset(Route(b, key).value)[c] == multiset(cs)[c])
      && (forall key :: key in Schedules ==> IsSubsequence(Route(b, key).value, cs))
      && (forall key, other, c :: key in Schedules && other in Schedules && key != other && c in Route(b, key).value ==> c !in Route(b, other).value)
      && (forall key, c: Record :: key in Schedules && c.form.schedule !in Schedules ==> c !in Route(b, key).value)
  {
    var cs, b := Present(customers).value, Group(customers).value;
    forall key | key in Schedules
      ensures Route(b, key) == Some(Filter(OnSchedule(key), cs))
    {
      GroupRoute(customers, key);
    }
    forall key | key in Schedules
      ensures forall c :: c in Filter(OnSchedule(key), cs) <==> c in cs && c.form.schedule == key
      ensures forall c: Record :: c.form.schedule == key ==> multiset(Filter(OnSchedule(key), cs))[c] == multiset(cs)[c]
      ensures IsSubsequence(Filter(OnSchedule(key), cs), cs)
    {
      RouteContents(cs, key);
    }
  }

  /** The route sizes add up to the number of customers whose schedule has a route. */
  lemma {:induction false} RouteSizes(cs: seq<Record>)
    ensures |Filter(OnSchedule(Weekly), cs)| + |Filter(OnSchedule(BiWeekly), cs)|
          + |Filter(OnSchedule(Monthly), cs)| + |Filter(OnSchedule(OnCall), cs)|
         == |Filter(Scheduled(), cs)|
  {
    if cs != [] {
      RouteSizes(cs[1..]);
    }
  }

  /** For customers that are all defined, the route sizes add up to the number with a known schedule. */
  lemma {:induction false} GroupSizes(customers: seq<Option<Record>>)
    requires forall i :: 0 <= i < |customers| ==> customers[i].Some?
    ensures var b := Group(customers).value;
      |b.weekly| + |b.biWeekly| + |b.monthly| + |b.onCall| == |Filter(Scheduled(), Present(customers).value)|
  {
    RouteSizes(Present(customers).value);
  }

  /** One `undefined` customer, wherever it is, makes the grouping (and so every render) fail. */
  lemma {:induction false} UndefinedCustomerBreaksGrouping(before: seq<Option<Record>>, after: seq<Option<Record>>)
    ensures Group(before + [None] + after) == None
  {
    assert (before + [None] + after)[|before|] == None;
  }
}
