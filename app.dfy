/**
 * The application state of src/App.js: the seed list, the ledger whose
 * fields the seven handlers update, and the wiring that passes a submitted
 * form to its handler (`onSplitBill`, `onAddFriend`).
 */
module App {
  import opened Options
  import opened Friends
  import SplitBill
  import FormAddFriend

  /** The three friends the application starts with. */
  const InitialFriends: seq<Friend> := [
    Friend(Num(118836), "დათა", "https://i.pravatar.cc/48?u=118836", -7),
    Friend(Num(933372), "ნანა", "https://i.pravatar.cc/48?u=933372", 20),
    Friend(Num(499476), "განა", "https://i.pravatar.cc/48?u=499476", 0)
  ]

  /** The seed list holds three distinct ids with balances -7, 20 and 0. */
  lemma InitialFriendsShape()
    ensures Ids(InitialFriends) == [Num(118836), Num(933372), Num(499476)]
    ensures UniqueIds(InitialFriends)
    ensures InitialFriends[0].balance == -7 && InitialFriends[1].balance == 20 && InitialFriends[2].balance == 0
    ensures TotalBalance(InitialFriends) == 13
  {
  }

  /** The selection after `friend` is clicked: clicking the selected friend deselects it. */
  function Toggled(cur: Option<Friend>, friend: Friend): (r: Option<Friend>)
    ensures r.None? <==> cur.Some? && cur.value.id == friend.id
    ensures r.Some? ==> r.value == friend
  {
    if cur.Some? && cur.value.id == friend.id then None else Some(friend)
  }

  /** Clicking the same friend twice undoes the first click when nothing, or another friend, was selected. */
  lemma ToggleTwice(cur: Option<Friend>, friend: Friend)
    ensures Toggled(Toggled(cur, friend), friend) ==
      if cur.Some? && cur.value.id == friend.id then Some(friend) else None
    ensures Toggled(Toggled(None, friend), friend) == None
  {
  }

  /** The selection after the deletion of `id` is confirmed: cleared exactly when it had that id. */
  function SelectionAfterDelete(sel: Option<Friend>, id: Id): (r: Option<Friend>)
    ensures r.None? <==> sel.None? || sel.value.id == id
    ensures r.Some? ==> r == sel
  {
    if sel.Some? && sel.value.id == id then None else sel
  }

  class Ledger {
    var friends: seq<Friend>
    var selectedFriend: Option<Friend>
    var friendToDelete: Option<Friend>
    var isModalOpen: bool
    var showAddFriend: bool

    /** The confirmation dialog is open exactly while a deletion is pending. */
    ghost predicate Valid()
      reads this
    {
      isModalOpen <==> friendToDelete.Some?
    }

    /**
     * The list's ids are unique, the selected friend is one of the list's own
     * entries and the pending friend's id is in the list. The handlers keep
     * this as long as they are given friends of the list and the new friend's
     * id is fresh.
     */
    ghost predicate Consistent()
      reads this
    {
      UniqueIds(friends) &&
      (selectedFriend.Some? ==> selectedFriend.value in friends) &&
      (friendToDelete.Some? ==> friendToDelete.value.id in Ids(friends))
    }

    constructor ()
      ensures Valid() && Consistent()
      ensures friends == InitialFriends
      ensures selectedFriend == None && friendToDelete == None
      ensures !isModalOpen && !showAddFriend
    {
      friends := InitialFriends;
      selectedFriend, friendToDelete := None, None;
      isModalOpen, showAddFriend := false, false;
      InitialFriendsShape();
    }

    /** `handleShowAddFriend`: flips the visibility of the add-friend form. */
    method ShowAddFriend()
      requires Valid()
      modifies this
      ensures Valid()
      ensures showAddFriend == !old(showAddFriend)
      ensures friends == old(friends) && selectedFriend == old(selectedFriend)
      ensures friendToDelete == old(friendToDelete) && isModalOpen == old(isModalOpen)
      ensures old(Consistent()) ==> Consistent()
    {
      showAddFriend := !showAddFriend;
    }

    /** `handleAddFriend`: appends `friend` and hides the add-friend form. */
    method AddFriend(friend: Friend)
      requires Valid()
      modifies this
      ensures Valid()
      ensures friends == old(friends) + [friend]
      ensures !showAddFriend
      ensures selectedFriend == old(selectedFriend)
      ensures friendToDelete == old(friendToDelete) && isModalOpen == old(isModalOpen)
      ensures old(Consistent()) && friend.id !in Ids(old(friends)) ==> Consistent()
    {
      if Consistent() && friend.id !in Ids(friends) {
        AppendKeepsUnique(friends, friend);
        AppendIds(friends, friend);
      }
      friends := friends + [friend];
      showAddFriend := false;
    }

    /** `handleSelectedFriend`: selects `friend`, or deselects it if it is the selected one. */
    method SelectFriend(friend: Friend)
      requires Valid()
      modifies this
      ensures Valid()
      ensures selectedFriend == Toggled(old(selectedFriend), friend)
      ensures friends == old(friends) && showAddFriend == old(showAddFriend)
      ensures friendToDelete == old(friendToDelete) && isModalOpen == old(isModalOpen)
      ensures old(Consistent()) && friend in friends ==> Consistent()
    {
      selectedFriend := if selectedFriend.Some? && selectedFriend.value.id == friend.id then None else Some(friend);
    }

    /**
     * `handleSplitBill`: adds `value` to the balance of every friend carrying
     * the selected id, then clears the selection. The handler reads the
     * selected friend's id, so it needs a selection.
     */
    method SplitBill(value: int)
      requires Valid()
      requires selectedFriend.Some?
      modifies this
      ensures Valid()
      ensures friends == SplitBalance(old(friends), old(selectedFriend).value.id, value)
      ensures selectedFriend == None
      ensures showAddFriend == old(showAddFriend)
      ensures friendToDelete == old(friendToDelete) && isModalOpen == old(isModalOpen)
      ensures old(Consistent()) ==> Consistent()
      ensures old(Consistent()) ==> TotalBalance(friends) == TotalBalance(old(friends)) + value
    {
      var id := selectedFriend.value.id;
      SplitKeepsIds(friends, id, value);
      if UniqueIds(friends) && id in Ids(friends) {
        SplitTotalUnique(friends, id, value);
      }
      friends := SplitBalance(friends, id, value);
      selectedFriend := None;
    }

    /** `handleDeleteFriend`: marks `friend` for deletion and opens the confirmation dialog. */
    method DeleteFriend(friend: Friend)
      requires Valid()
      modifies this
      ensures Valid()
      ensures friendToDelete == Some(friend) && isModalOpen
      ensures friends == old(friends) && selectedFriend == old(selectedFriend)
      ensures showAddFriend == old(showAddFriend)
      ensures old(Consistent()) && friend.id in Ids(friends) ==> Consistent()
    {
      friendToDelete := Some(friend);
      isModalOpen := true;
    }

    /**
     * `handleConfirmDeleteFriend`: removes every friend carrying the pending
     * id, deselects the selected friend if it has that id, and closes the
     * dialog. The handler reads the pending friend's id, so a deletion must
     * be pending.
     */
    method ConfirmDeleteFriend()
      requires Valid()
      requires friendToDelete.Some?
      modifies this
      ensures Valid()
      ensures friends == RemoveFriend(old(friends), old(friendToDelete).value.id)
      ensures selectedFriend == SelectionAfterDelete(old(selectedFriend), old(friendToDelete).value.id)
      ensures friendToDelete == None && !isModalOpen
      ensures showAddFriend == old(showAddFriend)
      ensures old(Consistent()) ==> Consistent()
    {
      var id := friendToDelete.value.id;
      if Consistent() {
        RemoveKeepsUnique(friends, id);
        if selectedFriend.Some? && selectedFriend.value.id != id {
          RemoveMembers(friends, id);
        }
      }
      friends := RemoveFriend(friends, id);
      if selectedFriend.Some? && selectedFriend.value.id == id {
        selectedFriend := None;
      }
      friendToDelete := None;
      isModalOpen := false;
    }

    /** `handleCancelDelete`: forgets the pending deletion and closes the dialog. */
    method CancelDelete()
      requires Valid()
      modifies this
      ensures Valid()
      ensures friendToDelete == None && !isModalOpen
      ensures friends == old(friends) && selectedFriend == old(selectedFriend)
      ensures showAddFriend == old(showAddFriend)
      ensures old(Consistent()) ==> Consistent()
    {
      friendToDelete := None;
      isModalOpen := false;
    }
  }

  // ---------------------------------------------------------------------
  // Forms wired to the ledger

  /**
   * Submitting the split-bill form, which is shown only while a friend is
   * selected: a rejected submit leaves the ledger as it was, an accepted one
   * settles the selected friend's balance and clears the selection.
   */
  method SubmitSplit(ledger: Ledger, form: SplitBill.SplitBillForm) returns (value: Option<int>)
    requires ledger.Valid()
    requires ledger.selectedFriend.Some?
    modifies ledger
    ensures ledger.Valid()
    ensures value == SplitBill.SplitValue(form.bill, form.myBill, form.payer)
    ensures value.None? ==> unchanged(ledger)
    ensures value.Some? ==>
      ledger.friends == SplitBalance(old(ledger.friends), old(ledger.selectedFriend).value.id, value.value) &&
      ledger.selectedFriend == None
    ensures ledger.showAddFriend == old(ledger.showAddFriend)
    ensures ledger.friendToDelete == old(ledger.friendToDelete)
  {
    value := form.Submit();
    if value.Some? {
      ledger.SplitBill(value.value);
    }
  }

  /**
   * Submitting the add-friend form with the generated `id`: a rejected submit
   * changes nothing, an accepted one appends the built friend to the ledger
   * and resets the form. A fresh id keeps the ledger's ids unique.
   */
  method SubmitAddFriend(ledger: Ledger, form: FormAddFriend.AddFriendForm, id: string)
    returns (added: Option<Friend>)
    requires ledger.Valid()
    modifies ledger, form
    ensures ledger.Valid()
    ensures added == FormAddFriend.Submission(old(form.name), old(form.image), id)
    ensures added.None? ==> unchanged(ledger) && form.name == old(form.name) && form.image == old(form.image)
    ensures added.Some? ==>
      ledger.friends == old(ledger.friends) + [added.value] && !ledger.showAddFriend &&
      form.name == "" && form.image == FormAddFriend.DefaultImage
    ensures ledger.selectedFriend == old(ledger.selectedFriend)
    ensures ledger.friendToDelete == old(ledger.friendToDelete)
    ensures old(ledger.Consistent()) && Uuid(id) !in Ids(old(ledger.friends)) ==> ledger.Consistent()
  {
    added := form.Submit(id);
    if added.Some? {
      ledger.AddFriend(added.value);
    }
  }

  /**
   * Asking to delete `friend` and then cancelling leaves the list and the
   * selection as they were.
   */
  method RequestThenCancel(ledger: Ledger, friend: Friend)
    requires ledger.Valid()
    modifies ledger
    ensures ledger.Valid()
    ensures ledger.friends == old(ledger.friends) && ledger.selectedFriend == old(ledger.selectedFriend)
    ensures ledger.friendToDelete == None && !ledger.isModalOpen
    ensures ledger.showAddFriend == old(ledger.showAddFriend)
  {
    ledger.DeleteFriend(friend);
    ledger.CancelDelete();
  }

  /**
   * Asking to delete the friend at position `k` and confirming removes exactly
   * that friend, keeps the others in order, and deselects it if it was selected.
   */
  method RequestThenConfirm(ledger: Ledger, k: nat)
    requires ledger.Valid() && ledger.Consistent()
    requires k < |ledger.friends|
    modifies ledger
    ensures ledger.Valid() && ledger.Consistent()
    ensures ledger.friends == old(ledger.friends[..k] + ledger.friends[k + 1..])
    ensures ledger.selectedFriend == SelectionAfterDelete(old(ledger.selectedFriend), old(ledger.friends[k].id))
    ensures ledger.friendToDelete == None && !ledger.isModalOpen
    ensures ledger.showAddFriend == old(ledger.showAddFriend)
  {
    RemoveAt(ledger.friends, k);
    ledger.DeleteFriend(ledger.friends[k]);
    ledger.ConfirmDeleteFriend();
  }

  // ---------------------------------------------------------------------
  // Scenarios

  /**
   * Starting from the seed list, select the friend with balance 20 and split a
   * bill of 100 with an own share of 40: when the user pays the friend's
   * balance becomes 80, when the friend pays it becomes -20; either way the
   * selection is cleared. An attempt to type 150 as the own share is refused
   * on the way.
   */
  method SplitScenario(payer: SplitBill.Payer) returns (balance: int, selection: Option<Friend>)
    ensures balance == (if payer == SplitBill.User then 80 else -20)
    ensures selection == None
  {
    var ledger := new Ledger();
    ledger.SelectFriend(InitialFriends[1]);
    var form := new SplitBill.SplitBillForm();
    form.EditBill(100);
    form.EditMyBill(40);
    form.EditMyBill(150);
    form.EditPayer(payer);
    var value := SubmitSplit(ledger, form);
    balance := ledger.friends[1].balance;
    selection := ledger.selectedFriend;
  }

  /** Submitting the split-bill form with an empty bill leaves the seed list and the selection untouched. */
  method EmptyBillScenario() returns (friends: seq<Friend>, selection: Option<Friend>)
    ensures friends == InitialFriends
    ensures selection == Some(InitialFriends[1])
  {
    var ledger := new Ledger();
    ledger.SelectFriend(InitialFriends[1]);
    var form := new SplitBill.SplitBillForm();
    form.EditMyBill(-5);
    var value := SubmitSplit(ledger, form);
    friends, selection := ledger.friends, ledger.selectedFriend;
  }

  /** Adding "ლაშა" with the generated id "u1" appends a zero-balance friend whose image carries the id. */
  method AddScenario() returns (friends: seq<Friend>, name: string, image: string)
    ensures friends == InitialFriends + [Friend(Uuid("u1"), "ლაშა", "https://i.pravatar.cc/48?=u1", 0)]
    ensures name == "" && image == FormAddFriend.DefaultImage
  {
    var ledger := new Ledger();
    ledger.ShowAddFriend();
    var form := new FormAddFriend.AddFriendForm();
    form.EditName("ლაშა");
    var added := SubmitAddFriend(ledger, form, "u1");
    assert FormAddFriend.DefaultImage + FormAddFriend.ImageSeparator + "u1" == "https://i.pravatar.cc/48?=u1";
    friends, name, image := ledger.friends, form.name, form.image;
  }

  /** Deleting the selected seed friend with balance 20 leaves the other two in order and clears the selection. */
  method DeleteScenario() returns (friends: seq<Friend>, selection: Option<Friend>)
    ensures friends == [InitialFriends[0], InitialFriends[2]]
    ensures selection == None
  {
    var ledger := new Ledger();
    ledger.SelectFriend(InitialFriends[1]);
    RequestThenConfirm(ledger, 1);
    friends, selection := ledger.friends, ledger.selectedFriend;
  }
}
