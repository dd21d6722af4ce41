# 828 Convenient Recycling: application state, in Dafny

This project models the state logic of the single `App` component of the
recycling-pickup web app (app.jsx). The component holds:

- the active customers (`customers`);
- the public pickup requests waiting for approval (`pending`);
- the ids of customers whose pickup is marked done (`completed`);
- the page mode (public signup page or admin console);
- the admin tab (route list, add form, request queue);
- the draft record the signup form edits (`form`).

The handlers change that state:

- `handleChange` edits one field of the draft.
- `handlePublicSubmit` queues the draft as a request.
- `handleAdminSubmit` adds the draft straight to the customers.
- `approveCustomer` moves a request into the customers.
- `toggleComplete` flips a completion marker.
- The mode and tab buttons set `mode` and `view`.

The derived value `grouped` splits the customers into four routes by
schedule (Weekly, Bi-Weekly, Monthly, On Call).

Layout:

- `wrappers.dfy`: `Option`, standing for a value that may be `undefined`.
- `seqs.dfy`: JavaScript's `filter` and `find` as functions on sequences, with their laws.
- `forms.dfy`: the draft, the customer record (`{ ...form, id }`), the default draft, `handleChange`'s field update.
- `requests.dfy`: what approval does to the queue and the customers.
- `completion.dfy`: the toggle on the completion markers.
- `routes.dfy`: the `grouped` derivation.
- `maplink.dfy`: the URL `openMap` opens.
- `app.dfy`: the component state as class `App`; each handler is a method. This file also holds three client scenarios.

Behaviour the model keeps from the code:

- **Approving an unknown id.** `find` returns `undefined` and the code still appends it to the customers. Customers are therefore `seq<Option<Record>>`, and the appended entry is `None`. One might expect approving an unknown id to do nothing; the code appends `undefined` instead, and the model follows the code. `grouped` is computed on every render and reads `.schedule` of each customer. After such an approval that read throws, so `Group` returns `None` (`Routes.UndefinedCustomerBreaksGrouping`).
- **Duplicate ids in the queue.** `find` takes the first record with the id, but `filter` removes all of them. Every record after the first is lost from both lists (`Requests.ApproveDropsDuplicates`).
- **Toggling twice.** The markers are a list. As a list, a double toggle is the identity when the id starts out absent. From present, it gives the other ids in order followed by one copy of the id (`Completion.ToggleTwicePresent`), so it is the identity only when the id occurs once and last. As a set of members, a double toggle always restores the original.
- **Schedules are free strings.** A customer whose schedule is none of the four appears in no route.

## Model

| member | source | states |
|---|---|---|
| `Forms.SetField` | app.jsx:49-51 | the named field takes the new value; every other field of the draft is unchanged |
| `Forms.SetFieldLaws` | app.jsx:49-51 | writing a field's own value back changes nothing; a second write to the same field overrides the first |
| `Seqs.Filter` | app.jsx:86 | the result has no more elements than the input, and `x` is in it exactly when `x` is in the input and satisfies the predicate |
| `Seqs.FilterIsSubsequence` | app.jsx:86 | `filter` keeps the relative order of the elements it keeps |
| `Seqs.FilterCounts` | app.jsx:86 | `filter` keeps every occurrence of a satisfying element and no occurrence of any other |
| `Seqs.Find` | app.jsx:84 | `find` yields `undefined` exactly when no element satisfies the predicate, and otherwise an element of the input that satisfies it |
| `Seqs.FindFirst` | app.jsx:84 | `find` returns the element at the first position that satisfies the predicate |
| `Seqs.FindIsHeadOfFilter` | app.jsx:84-86 | `find` returns the first element `filter` would keep, and `undefined` when `filter` keeps nothing |
| `Seqs.Present` | app.jsx:102-107 | a list of possibly-undefined customers is readable exactly when every entry is defined, and then the values come in the same order |
| `Requests.ApprovePresent` | app.jsx:83-87 | with the id in the queue: the first record with it is what reaches the customers; no record with the id is left in the queue; the other records keep their order and their multiplicities |
| `Requests.ApproveAbsent` | app.jsx:83-87 | with the id absent: `find` yields `undefined`, and the queue is left as it was |
| `Requests.ApproveMoves` | app.jsx:83-87 | when exactly one request has the id (as with unique ids), approval moves that record: only its position leaves the queue, and the queue plus the moved record is the old queue as a multiset |
| `Requests.ApproveDropsDuplicates` | app.jsx:84-86 | the appended value is the first of the records with the id; the queue shrinks by the number of records with the id, so several records with one id lose all but the first |
| `Requests.SubmitThenApprove` | app.jsx:83-87 | approving a freshly submitted request (its id not in the queue before) appends exactly the submitted draft with its id and restores the queue |
| `Completion.Toggle` | app.jsx:94-99 | the id is a member afterwards exactly when it was not before; every other id keeps its membership |
| `Completion.ToggleKeepsOthers` | app.jsx:94-99 | the ids other than the toggled one are the same list, in the same order, before and after |
| `Completion.ToggleKeepsNoDuplicates` | app.jsx:94-99 | a marker list without duplicates has none after a toggle |
| `Completion.ToggleTwiceAbsent` | app.jsx:94-99 | toggling an absent id twice gives back exactly the original list |
| `Completion.ToggleTwicePresent` | app.jsx:94-99 | toggling a present id twice gives the other ids in order followed by the id, with the same members as before |
| `Routes.Route` | app.jsx:102-107 | the own keys of `grouped` are exactly the four schedules, in the order Weekly, Bi-Weekly, Monthly, On Call; each gives its bucket |
| `Routes.Group` | app.jsx:102-107 | the grouping succeeds exactly when no customer entry is undefined |
| `Routes.GroupRoute` | app.jsx:102-107 | the bucket for each of the four keys is the customers' `filter` on that schedule |
| `Routes.RouteContents` | app.jsx:103-106 | a bucket holds exactly the customers with that schedule, with their multiplicities, in their original order |
| `Routes.RoutesPartition` | app.jsx:102-107 | each route holds exactly the customers on its schedule, with multiplicities and order; no customer is in two routes; a customer with another schedule is in none |
| `Routes.RouteSizes` | app.jsx:102-107 | the four route sizes add up to the number of customers whose schedule is one of the four |
| `Routes.GroupSizes` | app.jsx:102-107 | the same sum for the buckets that `Group` returns |
| `Routes.UndefinedCustomerBreaksGrouping` | app.jsx:102-107 | one undefined customer anywhere in the list makes the grouping fail |
| `MapLink.MapUrl` | app.jsx:89-92 | the URL is the fixed map-search prefix followed by the encoded address as its query |
| `MapLink.MapUrlDeterminesQuery` | app.jsx:90 | two addresses give the same URL exactly when they encode to the same query |
| `Application.App.constructor` | app.jsx:12-25 | first render: public mode, routes tab, empty lists, the default draft `Forms.DefaultForm` (empty text fields, "55 Gallon", "Weekly") |
| `Application.App.HandleChange` | app.jsx:49-51 | the draft changes in the named field only; the lists, mode and view are unchanged |
| `Application.App.HandlePublicSubmit` | app.jsx:54-66 | the queue gains exactly the old draft with the given id at its end; the draft is reset to `Forms.DefaultForm` (app.jsx:57-64); customers, markers, mode and view are unchanged |
| `Application.App.HandleAdminSubmit` | app.jsx:69-81 | the customers gain exactly the old draft with the given id at their end; the view becomes the route list; the draft is reset to `Forms.DefaultForm` (app.jsx:73-80); queue, markers and mode are unchanged |
| `Application.App.ApproveCustomer` | app.jsx:83-87 | the customers gain the `find` result (undefined for an unknown id); the queue becomes the `filter` result and holds no record with the id; with the id absent the queue is unchanged and the new entry is undefined; everything else is unchanged |
| `Application.App.ToggleComplete` | app.jsx:94-100 | the markers become the toggle of the old markers, so the id is in them exactly when it was not before; everything else is unchanged |
| `Application.App.SetMode` | app.jsx:258 | the mode is set, with no credential check, by the "Admin Login" button (app.jsx:258) and the "Switch to Public Page" button (app.jsx:288); nothing else changes |
| `Application.App.SetView` | app.jsx:272-278 | the admin tab is set; nothing else changes |

## Left out

- Rendering (`CustomerCard`, `SignupForm`, `AdminPending`, `RoutesView` and the two page bodies, app.jsx:109-293): these only display state and call the handlers.
- `localStorage` load and save, and `JSON.parse`/`JSON.stringify` (app.jsx:27-47): this is I/O. After an approval of an unknown id the next render throws (see above), so that state is never saved and storage keeps the customers from before.
- `alert` after a public submission (app.jsx:65), `window.open` in `openMap` (app.jsx:91) and `e.preventDefault()`: these are browser side effects.
- `encodeURIComponent` is a browser function; `MapLink.MapUrl` takes the encoder as a parameter.
- `Date.now()` ids: each submit method takes the id as a parameter, so the clock is not modelled.
- React's scheduling of state updates: each handler is one atomic update of the current state.
- `Application.App.HandleChange`: `[e.target.name]` could name any key; the model allows only the six inputs the form renders.
