/**
 * The state of the `App` component and its handlers (app.jsx). Each handler
 * is one atomic update of the state; ids are supplied by the caller, where
 * the component stamps `Date.now()`.
 */
module Application {
  import opened Wrappers
  import opened Seqs
  import opened Forms
  import opened Requests
  import opened Completion
  import opened Routes

  /** The public signup page or the admin console. */
  datatype Mode = Public | Admin

  /** The admin console's tab: the route list, the add-customer form or the request queue. */
  datatype View = RouteList | AddCustomer | RequestQueue

  class App {
    var mode: Mode
    var view: View
    /** Active customers; an entry is None where approval appended `undefined`. */
    var customers: seq<Option<Record>>
    /** Public requests awaiting approval. */
    var pending: seq<Record>
    /** Ids whose pickup is marked done. */
    var completed: seq<int>
    /** The draft the signup form edits. */
    var form: Form

    /** The state on first render: public page, route tab, empty lists, default draft. */
    constructor ()
      ensures mode == Public && view == RouteList
      ensures customers == [] && pending == [] && completed == []
      ensures form == DefaultForm
    {
      mode := Public;
      view := RouteList;
      customers := [];
      pending := [];
      completed := [];
      form := DefaultForm;
    }

    /** `handleChange`: one input of the form changes; the rest of the draft and the state stay. */
    method HandleChange(field: Field, value: string)
      modifies this
      ensures form == SetField(old(form), field, value)
      ensures Get(form, field) == value
      ensures forall k :: k != field ==> Get(form, k) == Get(old(form), k)
      ensures customers == old(customers) && pending == old(pending) && completed == old(completed)
      ensures mode == old(mode) && view == old(view)
    {
      form := SetField(form, field, value);
    }

    /** `handlePublicSubmit`: the draft, stamped with `id`, joins the end of the queue; the draft is reset. */
    method HandlePublicSubmit(id: int)
      modifies this
      ensures pending == old(pending) + [Record(old(form), id)]
      ensures form == DefaultForm
      ensures customers == old(customers) && completed == old(completed)
      ensures mode == old(mode) && view == old(view)
    {
      pending := pending + [Record(form, id)];
      form := DefaultForm;
    }

    /** `handleAdminSubmit`: the draft, stamped with `id`, joins the end of the customers; back to the route list. */
    method HandleAdminSubmit(id: int)
      modifies this
      ensures customers == old(customers) + [Some(Record(old(form), id))]
      ensures view == RouteList
      ensures form == DefaultForm
      ensures pending == old(pending) && completed == old(completed)
      ensures mode == old(mode)
    {
      customers := customers + [Some(Record(form, id))];
      view := RouteList;
      form := DefaultForm;
    }

    /**
     * `approveCustomer`: `find` result appended to the customers (None when
     * no request has `id`), every request with `id` dropped from the queue.
     */
    method ApproveCustomer(id: int)
      modifies this
      ensures customers == old(customers) + [Find(HasId(id), old(pending))]
      ensures pending == Filter(NotId(id), old(pending))
      ensures forall r :: r in pending ==> r.id != id
      ensures (forall r :: r in old(pending) ==> r.id != id) ==> pending == old(pending) && customers[|customers| - 1] == None
      ensures completed == old(completed) && form == old(form)
      ensures mode == old(mode) && view == old(view)
    {
      ApproveAbsent(pending, id);
      var c := Find(HasId(id), pending);
      customers := customers + [c];
      pending := Filter(NotId(id), pending);
    }

    /** `toggleComplete`: `id` leaves the markers if it is there and joins them at the end otherwise. */
    method ToggleComplete(id: int)
      modifies this
      ensures completed == Toggle(old(completed), id)
      ensures id in completed <==> id !in old(completed)
      ensures customers == old(customers) && pending == old(pending) && form == old(form)
      ensures mode == old(mode) && view == old(view)
    {
      completed := Toggle(completed, id);
    }

    /** `setMode`: the "Admin Login" and "Switch to Public Page" buttons. No credential is checked. */
    method SetMode(m: Mode)
      modifies this
      ensures mode == m
      ensures view == old(view) && customers == old(customers) && pending == old(pending)
      ensures completed == old(completed) && form == old(form)
    {
      mode := m;
    }

    /** `setView`: the Routes, Add and Requests tabs of the admin console (`RequestQueue` is the "pending" tab). */
    method SetView(v: View)
      modifies this
      ensures view == v
      ensures mode == old(mode) && customers == old(customers) && pending == old(pending)
      ensures completed == old(completed) && form == old(form)
    {
      view := v;
    }
  }

  /**
   * A public request for a weekly pickup, then its approval: the queue is
   * empty again and the customer is the one entry of the Weekly route.
   */
  method PublicRequestThenApproval(id: int)
  {
    var app := new App();
    app.HandleChange(Name, "Jane Doe");
    app.HandleChange(Address, "1 Main St");
    app.HandleChange(Schedule, Weekly);
    var draft := app.form;
    assert draft.schedule == Weekly;
    app.HandlePublicSubmit(id);
    assert |app.pending| == 1;
    app.ApproveCustomer(id);
    SubmitThenApprove([], draft, id);
    assert app.pending == [];
    assert app.customers == [Some(Record(draft, id))];
    var b := Group(app.customers);
    FilterSingleton(OnSchedule(Weekly), Record(draft, id));
    assert b.value.weekly == [Record(draft, id)];
  }

  /** A customer added by the admin with the On Call schedule appears only in that route, and the view is the route list. */
  method AdminAddOnCall(id: int)
  {
    var app := new App();
    app.SetMode(Admin);
    app.SetView(AddCustomer);
    app.HandleChange(Schedule, OnCall);
    var draft := app.form;
    app.HandleAdminSubmit(id);
    assert app.view == RouteList && |app.customers| == 1;
    var b := Group(app.customers).value;
    FilterSingleton(OnSchedule(OnCall), Record(draft, id));
    FilterSingleton(OnSchedule(Weekly), Record(draft, id));
    FilterSingleton(OnSchedule(BiWeekly), Record(draft, id));
    FilterSingleton(OnSchedule(Monthly), Record(draft, id));
    assert b.onCall == [Record(draft, id)];
    assert b.weekly == [] && b.biWeekly == [] && b.monthly == [];
  }

  /** Marking an id that belongs to no customer still adds it to the markers. */
  method ToggleUnknownId(id: int)
  {
    var app := new App();
    app.ToggleComplete(id);
    assert app.customers == [] && app.completed == [id];
  }
}
