/**
 * The bill-split form of src/components/SplitBill.js: its three state fields,
 * their change rules, the derived friend's share and the value the form submits.
 *
 * Amounts are integers. An input that was never typed into holds the empty
 * string in the source; every place that uses it (subtraction, comparison,
 * the falsy test) treats it exactly as the number 0, so the model uses 0.
 */
module SplitBill {
  import opened Options

  /** Who pays the bill: the two options of the payer selector. */
  datatype Payer = User | Friend

  /**
   * The friend's share shown in the form: absent while the bill is empty or
   * zero, otherwise the bill minus the user's own share.
   */
  function FriendsBill(bill: int, myBill: int): (r: Option<int>)
    ensures r.None? <==> bill == 0
    ensures r.Some? ==> r.value + myBill == bill
  {
    if bill != 0 then Some(bill - myBill) else None
  }

  /**
   * The balance change a submit hands to the ledger, or `None` when the submit
   * is rejected because the bill or the own share is empty or zero. When the
   * user pays, the friend now owes the friend's share; when the friend pays,
   * the user now owes their own share.
   */
  function SplitValue(bill: int, myBill: int, payer: Payer): (r: Option<int>)
    ensures r.None? <==> bill == 0 || myBill == 0
    ensures r.Some? && payer == User ==> r.value == bill - myBill
    ensures r.Some? && payer == Friend ==> r.value == -myBill
  {
    if bill == 0 || myBill == 0 then None
    else if payer == User then FriendsBill(bill, myBill)
    else Some(-myBill)
  }

  /**
   * The own share after the user types `n` into its input: a value above the
   * current bill is refused and the previous share is kept.
   */
  function MyBillAfterEdit(bill: int, myBill: int, n: int): (r: int)
    ensures n <= bill ==> r == n
    ensures n > bill ==> r == myBill
    ensures r > bill ==> r == myBill
  {
    if n > bill then myBill else n
  }

  /** An accepted or refused edit of the own share keeps it within a bill it was already within. */
  lemma EditKeepsShareWithinBill(bill: int, myBill: int, n: int)
    requires myBill <= bill
    ensures MyBillAfterEdit(bill, myBill, n) <= bill
  {
  }

  /** While the own share is within the bill, the friend's share is never negative. */
  lemma ShareWithinBillSplitsNonNegative(bill: int, myBill: int)
    requires bill != 0 && myBill <= bill
    ensures FriendsBill(bill, myBill).value >= 0
  {
  }

  class SplitBillForm {
    var bill: int
    var myBill: int
    var payer: Payer

    /** A freshly shown form: both amounts empty, the user pays. */
    constructor ()
      ensures bill == 0 && myBill == 0 && payer == User
    {
      bill, myBill, payer := 0, 0, User;
    }

    /** Typing into the bill input: only the bill changes, even if it drops below the own share. */
    method EditBill(n: int)
      modifies this
      ensures bill == n
      ensures myBill == old(myBill) && payer == old(payer)
    {
      bill := n;
    }

    /** Typing into the own-share input: a value above the current bill is refused. */
    method EditMyBill(n: int)
      modifies this
      ensures myBill == MyBillAfterEdit(old(bill), old(myBill), n)
      ensures bill == old(bill) && payer == old(payer)
    {
      myBill := if n > bill then myBill else n;
    }

    /** Choosing who pays. */
    method EditPayer(p: Payer)
      modifies this
      ensures payer == p
      ensures bill == old(bill) && myBill == old(myBill)
    {
      payer := p;
    }

    /** The friend's share the disabled field displays. */
    method ShownFriendsBill() returns (shown: Option<int>)
      ensures shown == FriendsBill(bill, myBill)
    {
      shown := if bill != 0 then Some(bill - myBill) else None;
    }

    /**
     * Submitting: the value passed to the ledger, or `None` when nothing is
     * passed on. The form's own state does not change.
     */
    method Submit() returns (value: Option<int>)
      ensures value == SplitValue(bill, myBill, payer)
    {
      if bill == 0 || myBill == 0 {
        return None;
      }
      var friendsBill := ShownFriendsBill();
      value := if payer == User then friendsBill else Some(-myBill);
    }
  }

  // ---------------------------------------------------------------------
  // The form's scenarios

  /** With a bill of 100 and an own share of 40, typing 150 is refused and the share stays 40. */
  method RejectedShareScenario() returns (share: int)
    ensures share == 40
  {
    var form := new SplitBillForm();
    form.EditBill(100);
    form.EditMyBill(40);
    form.EditMyBill(150);
    share := form.myBill;
  }

  /**
   * Lowering the bill after entering the own share is not refused: the share
   * then exceeds the bill, and a submit where the user pays hands on a
   * negative friend's share.
   */
  method LoweredBillScenario() returns (share: int, bill: int, value: Option<int>)
    ensures share > bill
    ensures value == Some(-10)
  {
    var form := new SplitBillForm();
    form.EditBill(100);
    form.EditMyBill(40);
    form.EditBill(30);
    share, bill := form.myBill, form.bill;
    value := form.Submit();
  }

  /** While the bill is still empty, any positive own share is refused. */
  lemma EmptyBillRefusesShare(myBill: int, n: int)
    requires n > 0
    ensures MyBillAfterEdit(0, myBill, n) == myBill
  {
  }
}
