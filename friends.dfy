/**
 * The friend record of the ledger, the two list functions the handlers of
 * src/App.js build their new `friends` array with (`map` with a conditional
 * record update for settling a bill, `filter` by id for deleting), and lemmas
 * about appending with `fs + [f]` (for adding).
 *
 * Sign convention of `balance`: negative means the user owes this friend,
 * positive means the friend owes the user, zero means settled.
 */
module Friends {

  /**
   * A friend's id. The seed friends carry numeric ids; friends added through
   * the form carry the string the id generator returned. A number and a string
   * are never strictly equal in JavaScript, which the two constructors keep.
   */
  datatype Id = Num(n: int) | Uuid(s: string)

  datatype Friend = Friend(id: Id, name: string, image: string, balance: int)

  /** The ids of `fs`, position by position. */
  function Ids(fs: seq<Friend>): (r: seq<Id>)
    ensures |r| == |fs|
    ensures forall i :: 0 <= i < |fs| ==> r[i] == fs[i].id
  {
    if fs == [] then [] else [fs[0].id] + Ids(fs[1..])
  }

  /** No two positions of `fs` hold the same id. */
  predicate UniqueIds(fs: seq<Friend>) {
    forall i, j :: 0 <= i < j < |fs| ==> fs[i].id != fs[j].id
  }

  /** How many entries of `fs` carry `id`. */
  function CountId(fs: seq<Friend>, id: Id): nat {
    if fs == [] then 0 else (if fs[0].id == id then 1 else 0) + CountId(fs[1..], id)
  }

  /** The sum of all balances. */
  function TotalBalance(fs: seq<Friend>): int {
    if fs == [] then 0 else fs[0].balance + TotalBalance(fs[1..])
  }

  /**
   * `friends.map(f => f.id === id ? {...f, balance: f.balance + value} : f)`:
   * the list after a bill with `id` was split for `value`.
   */
  function SplitBalance(fs: seq<Friend>, id: Id, value: int): (r: seq<Friend>)
    ensures |r| == |fs|
    ensures forall i :: 0 <= i < |fs| ==>
      r[i].id == fs[i].id && r[i].name == fs[i].name && r[i].image == fs[i].image &&
      r[i].balance == fs[i].balance + (if fs[i].id == id then value else 0)
  {
    if fs == [] then []
    else
      var head := if fs[0].id == id then fs[0].(balance := fs[0].balance + value) else fs[0];
      [head] + SplitBalance(fs[1..], id, value)
  }

  /** `friends.filter(f => f.id !== id)`: the list after the friend with `id` was deleted. */
  function RemoveFriend(fs: seq<Friend>, id: Id): (r: seq<Friend>)
    ensures |r| == |fs| - CountId(fs, id)
  {
    if fs == [] then []
    else if fs[0].id == id then RemoveFriend(fs[1..], id)
    else [fs[0]] + RemoveFriend(fs[1..], id)
  }

  // ---------------------------------------------------------------------
  // Appending

  /** Appending keeps the old entries in place and puts the new one last. */
  lemma AppendIds(fs: seq<Friend>, f: Friend)
    ensures Ids(fs + [f]) == Ids(fs) + [f.id]
  {
  }

  /** Appending a friend whose id is not yet present keeps the ids unique. */
  lemma {:induction false} AppendKeepsUnique(fs: seq<Friend>, f: Friend)
    requires UniqueIds(fs)
    requires f.id !in Ids(fs)
    ensures UniqueIds(fs + [f])
  {
    var r := fs + [f];
    forall i, j | 0 <= i < j < |r| ensures r[i].id != r[j].id {
      if j == |fs| {
        assert Ids(fs)[i] == r[i].id;
      }
    }
  }

  // ---------------------------------------------------------------------
  // Counting ids

  /** An id that is absent is counted zero times. */
  lemma {:induction false} CountAbsent(fs: seq<Friend>, id: Id)
    requires id !in Ids(fs)
    ensures CountId(fs, id) == 0
  {
    if fs != [] {
      assert Ids(fs)[1..] == Ids(fs[1..]);
      CountAbsent(fs[1..], id);
    }
  }

  /** In a list with unique ids, an id that is present is counted exactly once. */
  lemma {:induction false} CountUnique(fs: seq<Friend>, id: Id)
    requires UniqueIds(fs)
    requires id in Ids(fs)
    ensures CountId(fs, id) == 1
  {
    assert Ids(fs)[1..] == Ids(fs[1..]);
    if fs[0].id == id {
      assert id !in Ids(fs[1..]) by {
        forall k | 0 <= k < |fs[1..]| ensures Ids(fs[1..])[k] != id {
          assert fs[1..][k] == fs[k + 1];
        }
      }
      CountAbsent(fs[1..], id);
    } else {
      CountUnique(fs[1..], id);
    }
  }

  // ---------------------------------------------------------------------
  // Splitting a bill

  /** Settling never changes the ids, so it keeps their order and their uniqueness. */
  lemma {:induction false} SplitKeepsIds(fs: seq<Friend>, id: Id, value: int)
    ensures Ids(SplitBalance(fs, id, value)) == Ids(fs)
    ensures UniqueIds(fs) ==> UniqueIds(SplitBalance(fs, id, value))
  {
    var r := SplitBalance(fs, id, value);
    assert forall i :: 0 <= i < |fs| ==> Ids(r)[i] == Ids(fs)[i];
  }

  /** Every entry that carries `id` gains `value`, so the total gains `value` once per such entry. */
  lemma {:induction false} SplitTotal(fs: seq<Friend>, id: Id, value: int)
    ensures TotalBalance(SplitBalance(fs, id, value)) == TotalBalance(fs) + value * CountId(fs, id)
  {
    if fs != [] {
      var r := SplitBalance(fs, id, value);
      assert r[1..] == SplitBalance(fs[1..], id, value);
      SplitTotal(fs[1..], id, value);
      var c := CountId(fs[1..], id);
      if fs[0].id == id {
        assert value * (1 + c) == value + value * c;
      }
    }
  }

  /** With unique ids and the settled friend present, the total balance moves by exactly `value`. */
  lemma SplitTotalUnique(fs: seq<Friend>, id: Id, value: int)
    requires UniqueIds(fs)
    requires id in Ids(fs)
    ensures TotalBalance(SplitBalance(fs, id, value)) == TotalBalance(fs) + value
  {
    SplitTotal(fs, id, value);
    CountUnique(fs, id);
  }

  // ---------------------------------------------------------------------
  // Deleting

  /** The survivors of a deletion are exactly the entries whose id differs from the deleted one. */
  lemma {:induction false} RemoveMembers(fs: seq<Friend>, id: Id)
    ensures forall f :: f in RemoveFriend(fs, id) ==> f in fs && f.id != id
    ensures forall f :: f in fs && f.id != id ==> f in RemoveFriend(fs, id)
  {
    if fs != [] {
      RemoveMembers(fs[1..], id);
      assert forall f :: f in fs <==> f == fs[0] || f in fs[1..];
    }
  }

  /** Filtering distributes over concatenation: the survivors keep their relative order. */
  lemma {:induction false} RemoveConcat(a: seq<Friend>, b: seq<Friend>, id: Id)
    ensures RemoveFriend(a + b, id) == RemoveFriend(a, id) + RemoveFriend(b, id)
  {
    if a == [] {
      assert a + b == b;
    } else {
      assert (a + b)[0] == a[0];
      assert (a + b)[1..] == a[1..] + b;
      RemoveConcat(a[1..], b, id);
    }
  }

  /** Deleting an id that no entry carries changes nothing. */
  lemma {:induction false} RemoveAbsent(fs: seq<Friend>, id: Id)
    requires id !in Ids(fs)
    ensures RemoveFriend(fs, id) == fs
  {
    if fs != [] {
      assert Ids(fs)[1..] == Ids(fs[1..]);
      RemoveAbsent(fs[1..], id);
      assert [fs[0]] + fs[1..] == fs;
    }
  }

  /** With unique ids, the id at position `k` occurs nowhere in `fs[lo..hi]` when `k` lies outside that slice. */
  lemma {:induction false} IdNotInSlice(fs: seq<Friend>, k: nat, lo: nat, hi: nat)
    requires UniqueIds(fs)
    requires k < |fs| && lo <= hi <= |fs|
    requires k < lo || hi <= k
    ensures fs[k].id !in Ids(fs[lo..hi])
  {
    var part := fs[lo..hi];
    forall i | 0 <= i < |part| ensures Ids(part)[i] != fs[k].id {
      assert part[i] == fs[lo + i];
    }
  }

  /** Deleting the id of `x` from `before + [x] + after`, where no other entry has that id, cuts out `x`. */
  lemma {:induction false} RemoveMiddle(before: seq<Friend>, x: Friend, after: seq<Friend>)
    requires x.id !in Ids(before) && x.id !in Ids(after)
    ensures RemoveFriend(before + [x] + after, x.id) == before + after
  {
    var id := x.id;
    assert RemoveFriend(before + [x], id) == before by {
      RemoveConcat(before, [x], id);
      RemoveAbsent(before, id);
      RemoveSingle(x);
    }
    assert RemoveFriend(after, id) == after by {
      RemoveAbsent(after, id);
    }
    RemoveConcat(before + [x], after, id);
  }

  /** Deleting the only entry's id leaves nothing. */
  lemma RemoveSingle(x: Friend)
    ensures RemoveFriend([x], x.id) == []
  {
    assert [x][1..] == [];
  }

  /**
   * With unique ids, deleting the id at position `k` removes exactly that entry
   * and leaves every other entry where it was relative to the rest.
   */
  lemma RemoveAt(fs: seq<Friend>, k: nat)
    requires UniqueIds(fs)
    requires k < |fs|
    ensures RemoveFriend(fs, fs[k].id) == fs[..k] + fs[k + 1..]
  {
    IdNotInSlice(fs, k, 0, k);
    IdNotInSlice(fs, k, k + 1, |fs|);
    assert fs == fs[..k] + [fs[k]] + fs[k + 1..];
    RemoveMiddle(fs[..k], fs[k], fs[k + 1..]);
  }

  /** Deleting keeps ids unique. */
  lemma {:induction false} RemoveKeepsUnique(fs: seq<Friend>, id: Id)
    requires UniqueIds(fs)
    ensures UniqueIds(RemoveFriend(fs, id))
  {
    if fs != [] {
      var tail := fs[1..];
      assert UniqueIds(tail) by {
        forall i, j | 0 <= i < j < |tail| ensures tail[i].id != tail[j].id {
          assert tail[i] == fs[i + 1] && tail[j] == fs[j + 1];
        }
      }
      RemoveKeepsUnique(tail, id);
      RemoveMembers(tail, id);
      if fs[0].id != id {
        var rest := RemoveFriend(tail, id);
        var r := [fs[0]] + rest;
        forall i, j | 0 <= i < j < |r| ensures r[i].id != r[j].id {
          if i == 0 {
            assert r[j] == rest[j - 1];
            assert rest[j - 1] in tail;
            var m :| 0 <= m < |tail| && tail[m] == rest[j - 1];
            assert fs[m + 1] == tail[m];
          } else {
            assert r[i] == rest[i - 1] && r[j] == rest[j - 1];
          }
        }
      }
    }
  }

  /** An id other than the deleted one is still present after the deletion iff it was before. */
  lemma {:induction false} RemoveKeepsOtherIds(fs: seq<Friend>, id: Id, other: Id)
    requires other != id
    ensures other in Ids(RemoveFriend(fs, id)) <==> other in Ids(fs)
  {
    var r := RemoveFriend(fs, id);
    RemoveMembers(fs, id);
    if other in Ids(fs) {
      var i :| 0 <= i < |fs| && Ids(fs)[i] == other;
      assert fs[i] in r;
      var j :| 0 <= j < |r| && r[j] == fs[i];
      assert Ids(r)[j] == other;
    }
    if other in Ids(r) {
      var j :| 0 <= j < |r| && Ids(r)[j] == other;
      assert r[j] in fs;
      var i :| 0 <= i < |fs| && fs[i] == r[j];
      assert Ids(fs)[i] == other;
    }
  }

  /** The deleted id is gone afterwards. */
  lemma {:induction false} RemoveDropsId(fs: seq<Friend>, id: Id)
    ensures id !in Ids(RemoveFriend(fs, id))
  {
    var r := RemoveFriend(fs, id);
    RemoveMembers(fs, id);
    forall j | 0 <= j < |r| ensures Ids(r)[j] != id {
      assert r[j] in r;
    }
  }
}
