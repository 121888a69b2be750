# Expense-splitting ledger — a Dafny model

This project models the logic of a small React application that tracks what
a user and their friends owe each other. Under the view code it has three
state machines:

- the **ledger** of `src/App.js`: the friend list, the selected friend, the
  friend waiting to be deleted, the confirmation dialog flag and the
  add-friend form flag, changed by seven handlers;
- the **split-bill form** of `src/components/SplitBill.js`: the bill, the
  user's own share and who pays, the friend's share derived from them, and
  the signed value a submit hands to the ledger;
- the **add-friend form** of `src/components/FormAddFriend.js`: the name and
  image inputs, the validation of a submit, the new friend record and the
  reset of the inputs.

A friend's balance is negative when the user owes the friend, positive when
the friend owes the user, and zero when they are settled.

Files:

- `options.dfy` — `Option`, which stands for the source's `null` fields.
- `friends.dfy` — module `Friends`: the `Friend` record and its `Id`, the
  two list functions the handlers build new lists with (`map` with a balance
  update, `filter` by id) and their lemmas (ids kept, totals, exact removal,
  order kept, uniqueness kept), plus lemmas about appending with `fs + [f]`.
- `split_bill.dfy` — module `SplitBill`: the pure rules (friend's share,
  submitted value, own-share edit rule) and the class `SplitBillForm` whose
  methods are the input handlers and the submit.
- `form_add_friend.dfy` — module `FormAddFriend`: the pure
  validation and construction (`Submission`) and the class `AddFriendForm`.
- `app.dfy` — module `App`: the seed list, the class `Ledger` with one method
  per handler, the methods that pass a form's submit to its handler, and
  end-to-end scenarios.

Modelling decisions:

- Ids are `Num(n)` for the numeric seed ids and `Uuid(s)` for generated ones.
  JavaScript's `===` never equates a number with a string, and neither does
  the datatype.
- `selectedFriend` and `friendToDelete` are `Option<Friend>`. They hold a
  copy of the friend record, as the source does. Every comparison uses only
  the `id`, as the source does.
- Amounts and balances are `int`. An amount input that was never typed into
  is `""` in the source. Everywhere the source uses it (subtraction, the `>`
  comparison, the falsy test), `""` behaves as `0`, so the model uses `0`.
- The id generator is a parameter of `FormAddFriend.AddFriendForm.Submit`.
  Freshness of the id is a hypothesis of the uniqueness results, not a
  precondition.
- Each handler is one atomic transition of the class's fields.

In these places the model follows the code, not what one might expect of such an app:

- The handlers never check that a friend exists: there is no "not found"
  error. `Consistent()` records when the list invariants hold. It is kept as
  long as the handlers get friends from the list and the new id is fresh.
- `handleSplitBill` takes only the value and settles the friend currently
  selected. It is reachable only while a friend is selected, because the
  split form is shown only then (src/App.js:171); with no selection and a
  non-empty list it would dereference `null`. `handleConfirmDeleteFriend`
  with nothing pending would dereference `null` too, and is reachable only
  through the dialog, which is open only while a deletion is pending. The
  model therefore requires a selection, or a pending friend, instead of
  treating these as no-ops.
- The own share is kept at or below the bill only when the share is edited.
  Lowering the bill afterwards is accepted. The share can then exceed the
  bill, and a submit where the user pays hands on a negative value
  (`SplitBill.LoweredBillScenario`).
- Negative amounts are accepted as typed.

## Model

| member | source | states |
|---|---|---|
| Friends.SplitBalance | src/App.js:78-84 | same length; each entry keeps its id, name and image; an entry whose id matches gains `value`, every other balance is unchanged |
| Friends.SplitKeepsIds | src/App.js:78-84 | settling leaves the id sequence (so order and uniqueness) unchanged |
| Friends.SplitTotal | src/App.js:78-84 | the total balance grows by `value` times the number of entries carrying the id |
| Friends.SplitTotalUnique | src/App.js:78-84 | with unique ids and the id present, the total balance grows by exactly `value` |
| Friends.RemoveFriend | src/App.js:100-102 | the length drops by the number of entries carrying the deleted id |
| Friends.RemoveMembers | src/App.js:100-102 | every survivor was in the list and has another id; every entry with another id survives |
| Friends.RemoveConcat | src/App.js:100-102 | filtering distributes over concatenation, so survivors keep their relative order |
| Friends.RemoveAt | src/App.js:100-102 | with unique ids, deleting the id at position k yields the list with exactly position k cut out |
| Friends.RemoveKeepsUnique | src/App.js:100-102 | deletion keeps ids unique |
| Friends.RemoveKeepsOtherIds | src/App.js:100-102 | any other id is present after the deletion if and only if it was present before |
| Friends.RemoveDropsId | src/App.js:101 | the deleted id is absent afterwards |
| Friends.AppendIds | src/App.js:63 | appending keeps the old ids in place and adds the new id last |
| Friends.AppendKeepsUnique | src/App.js:63 | appending a friend with a fresh id keeps ids unique |
| App.InitialFriendsShape | src/App.js:11-30 | the seed list has three distinct ids with balances -7, 20 and 0 (total 13) |
| App.Toggled | src/App.js:70-72 | the selection becomes empty exactly when the clicked friend has the selected id, otherwise it becomes the clicked friend |
| App.ToggleTwice | src/App.js:71 | two clicks on the same friend from no selection, or from another selection, end with no selection; from that friend selected, they end with it selected |
| App.SelectionAfterDelete | src/App.js:103-105 | the selection is cleared exactly when it had the deleted id, otherwise it is unchanged |
| App.Ledger.constructor | src/App.js:36-51 | seed list, no selection, nothing pending, dialog and add form closed; both invariants hold |
| App.Ledger.ShowAddFriend | src/App.js:55-57 | flips the add-form flag and changes nothing else |
| App.Ledger.AddFriend | src/App.js:62-65 | the new list is the old list with the friend appended; add form hidden; selection and pending deletion untouched; a fresh id keeps the invariants |
| App.Ledger.SelectFriend | src/App.js:70-72 | the selection becomes `Toggled(old selection, friend)`; nothing else changes; clicking a list entry keeps the selection a list entry |
| App.Ledger.SplitBill | src/App.js:77-86 | the list becomes `SplitBalance` of the old list for the selected id; selection cleared; nothing else changes; under the invariants the total grows by exactly `value` |
| App.Ledger.DeleteFriend | src/App.js:90-93 | marks the friend pending and opens the dialog; list and selection untouched |
| App.Ledger.ConfirmDeleteFriend | src/App.js:99-108 | the list loses exactly the entries with the pending id; selection cleared only if it had that id; pending cleared and dialog closed; invariants kept |
| App.Ledger.CancelDelete | src/App.js:112-115 | clears the pending friend and closes the dialog; list and selection untouched |
| App.SubmitSplit | src/App.js:171-176 | a rejected split submit leaves the ledger unchanged; an accepted one settles the selected id by the submitted value and clears the selection; the dialog flag stays tied to the pending friend |
| App.SubmitAddFriend | src/App.js:163 | a rejected add submit changes neither ledger nor form; an accepted one appends the built friend, hides the form and resets its inputs; a fresh id keeps ids unique |
| App.RequestThenCancel | src/App.js:90-115 | request followed by cancel leaves the list and the selection unchanged and the dialog closed |
| App.RequestThenConfirm | src/App.js:90-108 | request followed by confirm, for the friend at position k, removes exactly that friend, keeps the rest in order, and deselects it if it was selected |
| App.SplitScenario | src/App.js:77-86 | seed list, friend with balance 20 selected, bill 100, own share 40 (typing 150 refused): the balance ends at 80 when the user pays and at -20 when the friend pays; selection cleared |
| App.EmptyBillScenario | src/components/SplitBill.js:22 | a submit with an empty bill leaves the list and the selection unchanged |
| App.AddScenario | src/components/FormAddFriend.js:16-33 | adding a named friend with id "u1" appends a zero-balance friend with image `https://i.pravatar.cc/48?=u1` and resets the form |
| App.DeleteScenario | src/App.js:99-108 | deleting the selected seed friend leaves the other two in order and clears the selection |
| SplitBill.FriendsBill | src/components/SplitBill.js:15 | absent exactly when the bill is zero/empty; otherwise the friend's share plus the own share is the bill |
| SplitBill.SplitValue | src/components/SplitBill.js:22-26 | no value exactly when the bill or the own share is zero/empty; otherwise `bill - myBill` when the user pays and `-myBill` when the friend pays |
| SplitBill.MyBillAfterEdit | src/components/SplitBill.js:49-54 | a typed share within the bill is taken; one above it is refused and the previous share kept; so an edit never makes the share exceed the bill unless it was already above it |
| SplitBill.EditKeepsShareWithinBill | src/components/SplitBill.js:52 | an own-share edit keeps a share that was within the bill within it |
| SplitBill.ShareWithinBillSplitsNonNegative | src/components/SplitBill.js:15 | while the share is within a nonzero bill, the friend's share is non-negative |
| SplitBill.EmptyBillRefusesShare | src/components/SplitBill.js:52 | while the bill is empty, every positive own share is refused |
| SplitBill.SplitBillForm.constructor | src/components/SplitBill.js:7-11 | both amounts empty and the user pays |
| SplitBill.SplitBillForm.EditBill | src/components/SplitBill.js:42 | sets the bill only; the own share is never touched |
| SplitBill.SplitBillForm.EditMyBill | src/components/SplitBill.js:49-54 | the share becomes `MyBillAfterEdit` of the current bill, old share and typed value; bill and payer untouched |
| SplitBill.SplitBillForm.EditPayer | src/components/SplitBill.js:61-64 | sets the payer, which is one of the two options; amounts untouched |
| SplitBill.SplitBillForm.ShownFriendsBill | src/components/SplitBill.js:58 | the displayed friend's share is `FriendsBill` of the form's bill and own share: absent for an empty bill, otherwise adding up with the own share to the bill |
| SplitBill.SplitBillForm.Submit | src/components/SplitBill.js:18-27 | returns the submitted value `SplitValue(bill, myBill, payer)` |
| SplitBill.RejectedShareScenario | src/components/SplitBill.js:52 | bill 100, share 40, typing 150: the share stays 40 |
| SplitBill.LoweredBillScenario | src/components/SplitBill.js:42 | bill 100, share 40, bill lowered to 30: the share exceeds the bill and a user-pays submit yields -10 |
| FormAddFriend.Submission | src/components/FormAddFriend.js:16-27 | nothing is built exactly when the name or the image is empty; otherwise the friend has the generated id, the name verbatim, balance 0 and image `image + "?=" + id` |
| FormAddFriend.ImageSplitsBack | src/components/FormAddFriend.js:25 | the built image starts with the typed image, then `?=`, and ends with the id |
| FormAddFriend.DistinctIdsDistinctImages | src/components/FormAddFriend.js:25 | the same typed image with different ids yields different images |
| FormAddFriend.AddFriendForm.constructor | src/components/FormAddFriend.js:7-8 | empty name and the default avatar address |
| FormAddFriend.AddFriendForm.EditName | src/components/FormAddFriend.js:44 | sets the name only |
| FormAddFriend.AddFriendForm.EditImage | src/components/FormAddFriend.js:52 | sets the image only |
| FormAddFriend.AddFriendForm.Submit | src/components/FormAddFriend.js:11-34 | returns `Submission` of the inputs; a successful submit resets name to empty and image to the default; a rejected one leaves both inputs as they were |

## Left out

- Rendering, CSS classes and conditional display (`Friend.js`, `FriendList.js`, `Modal.js`, `Button.js` and the JSX of the three core files): view code with no state transitions. The rule that the split form is shown only while a friend is selected becomes the precondition of `App.SubmitSplit`.
- `Header` is imported by `src/App.js` but is not part of this model.
- `crypto.randomUUID()`: a foreign call. Its result is the `id` parameter of the add submit, and its freshness is a hypothesis.
- `Number(...)` parsing of the typed text, `NaN`, and fractional amounts: inputs are already-parsed integers, and `""` is 0.
- Floating-point arithmetic: balances and amounts are unbounded integers.
- React's batching and asynchronous state setters: each handler is one atomic transition.
- Form lifetime: React creates a form's state when the form is shown and discards it when the form is hidden. It keeps the state when the selected friend changes while the split form stays shown. The model creates a fresh form object by its constructor and does not model mounting.
- `preventDefault` and other DOM event details.
- App.Ledger.DeleteFriend: stores the clicked friend's record, like the source. A bill split while the dialog is open changes that friend's balance in the list but not in the stored record; only its id is used, so `Consistent()` ties only the pending id to the list. The selected record, by contrast, is always the list's own entry, because the only handler that changes a balance also clears the selection.
