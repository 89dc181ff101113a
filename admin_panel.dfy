/** The admin viewer (components/AdminPanel.tsx) without its rendering: the
    static-password gate, the list loaded on login and sorted newest first,
    and delete, which updates both the store and the shown list. */
module AdminPanel {
  import opened BookingTypes
  import opened ListOps
  import opened BookingService

  const AdminPassword := "admin123"

  const InvalidPasswordMessage := "Invalid password"

  /** Newest first: `createdAt` never increases along the list. */
  ghost predicate NewestFirst(bs: seq<Booking>)
  {
    forall i, j :: 0 <= i < j < |bs| ==> bs[i].createdAt >= bs[j].createdAt
  }

  lemma TailNewestFirst(bs: seq<Booking>)
    requires |bs| > 0 && NewestFirst(bs)
    ensures NewestFirst(bs[1..])
  {
    var tail := bs[1..];
    forall i, j | 0 <= i < j < |tail|
      ensures tail[i].createdAt >= tail[j].createdAt
    {
      assert tail[i] == bs[i + 1] && tail[j] == bs[j + 1];
    }
  }

  /** Places `b` before the first record that is not newer than it. */
  function Insert(b: Booking, bs: seq<Booking>): (r: seq<Booking>)
    ensures multiset(r) == multiset(bs) + multiset{b}
  {
    if bs == [] || bs[0].createdAt <= b.createdAt then [b] + bs
    else
      assert bs == [bs[0]] + bs[1..];
      [bs[0]] + Insert(b, bs[1..])
  }

  lemma {:induction false} InsertKeepsNewestFirst(b: Booking, bs: seq<Booking>)
    requires NewestFirst(bs)
    ensures NewestFirst(Insert(b, bs))
  {
    var r := Insert(b, bs);
    if bs == [] || bs[0].createdAt <= b.createdAt {
      forall i, j | 0 <= i < j < |r|
        ensures r[i].createdAt >= r[j].createdAt
      {
        assert r[j] == bs[j - 1];
        if i > 0 {
          assert r[i] == bs[i - 1];
        } else {
          assert bs[0].createdAt >= bs[j - 1].createdAt;
        }
      }
    } else {
      TailNewestFirst(bs);
      InsertKeepsNewestFirst(b, bs[1..]);
      var rest := Insert(b, bs[1..]);
      assert r == [bs[0]] + rest;
      forall k | 0 <= k < |bs[1..]|
        ensures bs[1..][k].createdAt <= bs[0].createdAt
      {
        assert bs[1..][k] == bs[k + 1];
      }
      InsertBelow(b, bs[1..], bs[0].createdAt);
      forall i, j | 0 <= i < j < |r|
        ensures r[i].createdAt >= r[j].createdAt
      {
        assert r[j] == rest[j - 1];
        if i > 0 {
          assert r[i] == rest[i - 1];
        }
      }
    }
  }

  /** Inserting a record no newer than `c` into a list no newer than `c`
      gives a list no newer than `c`. */
  lemma {:induction false} InsertBelow(b: Booking, bs: seq<Booking>, c: int)
    requires b.createdAt <= c
    requires forall k :: 0 <= k < |bs| ==> bs[k].createdAt <= c
    ensures forall k :: 0 <= k < |Insert(b, bs)| ==> Insert(b, bs)[k].createdAt <= c
  {
    if bs != [] && bs[0].createdAt > b.createdAt {
      var tail := bs[1..];
      forall k | 0 <= k < |tail|
        ensures tail[k].createdAt <= c
      {
        assert tail[k] == bs[k + 1];
      }
      InsertBelow(b, tail, c);
      var rest := Insert(b, tail);
      assert Insert(b, bs) == [bs[0]] + rest;
      forall k | 0 <= k < |Insert(b, bs)|
        ensures Insert(b, bs)[k].createdAt <= c
      {
        if k > 0 {
          assert Insert(b, bs)[k] == rest[k - 1];
        }
      }
    }
  }

  /** `bookings.sort((a, b) => b.createdAt - a.createdAt)`: a stable sort
      (as `Array.prototype.sort` is), newest first. */
  function SortNewestFirst(bs: seq<Booking>): (r: seq<Booking>)
    ensures multiset(r) == multiset(bs)
    ensures NewestFirst(r)
  {
    if bs == [] then []
    else
      assert bs == [bs[0]] + bs[1..];
      InsertKeepsNewestFirst(bs[0], SortNewestFirst(bs[1..]));
      Insert(bs[0], SortNewestFirst(bs[1..]))
  }

  /** The predicate `b => b.createdAt === t`. */
  function CreatedAt(t: int): Booking -> bool
  {
    (b: Booking) => b.createdAt == t
  }

  lemma {:induction false} InsertKeepsTies(b: Booking, bs: seq<Booking>, t: int)
    ensures Filter(Insert(b, bs), CreatedAt(t))
         == (if b.createdAt == t then [b] else []) + Filter(bs, CreatedAt(t))
  {
    if bs == [] || bs[0].createdAt <= b.createdAt {
      assert ([b] + bs)[1..] == bs;
    } else {
      InsertKeepsTies(b, bs[1..], t);
      var rest := Insert(b, bs[1..]);
      assert ([bs[0]] + rest)[1..] == rest;
    }
  }

  /** The sort is stable: records with the same `createdAt` keep their
      relative order from the store. */
  lemma {:induction false} SortKeepsTies(bs: seq<Booking>, t: int)
    ensures Filter(SortNewestFirst(bs), CreatedAt(t)) == Filter(bs, CreatedAt(t))
  {
    if bs != [] {
      SortKeepsTies(bs[1..], t);
      InsertKeepsTies(bs[0], SortNewestFirst(bs[1..]), t);
    }
  }

  /** A subsequence of a newest-first list is newest first. */
  lemma SubsequenceKeepsNewestFirst(sub: seq<Booking>, bs: seq<Booking>)
    requires IsSubsequence(sub, bs)
    requires NewestFirst(bs)
    ensures NewestFirst(sub)
  {
    var idx :| Embeds(sub, bs, idx);
    forall i, j | 0 <= i < j < |sub|
      ensures sub[i].createdAt >= sub[j].createdAt
    {
      assert sub[i] == bs[idx[i]] && sub[j] == bs[idx[j]];
    }
  }

  /** Removing an id from the shown list keeps it newest first. */
  lemma DeleteKeepsNewestFirst(bs: seq<Booking>, id: string)
    requires NewestFirst(bs)
    ensures NewestFirst(WithoutId(bs, id))
  {
    FilterIsSubsequence(bs, IdDiffers(id));
    SubsequenceKeepsNewestFirst(WithoutId(bs, id), bs);
  }

  lemma {:induction false} InsertThenDelete(b: Booking, bs: seq<Booking>, id: string)
    requires NewestFirst(bs)
    ensures WithoutId(Insert(b, bs), id)
         == if b.id == id then WithoutId(bs, id) else Insert(b, WithoutId(bs, id))
  {
    var kept := WithoutId(bs, id);
    if bs == [] || bs[0].createdAt <= b.createdAt {
      assert ([b] + bs)[1..] == bs;
      if kept != [] {
        assert kept[0] in bs;
        assert kept[0].createdAt <= bs[0].createdAt;
      }
    } else {
      var tail := bs[1..];
      TailNewestFirst(bs);
      InsertThenDelete(b, tail, id);
      var rest := Insert(b, tail);
      assert ([bs[0]] + rest)[1..] == rest;
    }
  }

  /** Deleting from the sorted list gives what sorting the list left in the
      store gives: after a delete the shown list is what a fresh login
      would show. */
  lemma {:induction false} DeleteCommutesWithSort(bs: seq<Booking>, id: string)
    ensures WithoutId(SortNewestFirst(bs), id) == SortNewestFirst(WithoutId(bs, id))
  {
    if bs != [] {
      DeleteCommutesWithSort(bs[1..], id);
      InsertThenDelete(bs[0], SortNewestFirst(bs[1..]), id);
    }
  }

  /** The admin panel's component state; `store` is the repository it reads. */
  class AdminPanelState {
    const store: BookingStore
    var isLoggedIn: bool
    var password: string
    var bookings: seq<Booking>
    var error: string

    constructor (store: BookingStore)
      ensures this.store == store
      ensures !isLoggedIn && password == "" && bookings == [] && error == ""
    {
      this.store := store;
      isLoggedIn, password, bookings, error := false, "", [], "";
    }

    /** The password input's `onChange`. */
    method SetPassword(value: string)
      modifies this`password
      ensures password == value
    {
      password := value;
    }

    /** `handleLogin`, followed by the effect that runs when `isLoggedIn`
        turns true: the shown list is reloaded from the store, newest first. */
    method Login()
      modifies this`isLoggedIn, this`error, this`bookings
      ensures password == AdminPassword ==> isLoggedIn && error == ""
      ensures password != AdminPassword ==>
        isLoggedIn == old(isLoggedIn) && error == InvalidPasswordMessage && bookings == old(bookings)
      ensures password == AdminPassword && !old(isLoggedIn) ==>
        && multiset(bookings) == multiset(store.stored) && NewestFirst(bookings)
        && bookings == SortNewestFirst(store.stored)
      ensures old(isLoggedIn) ==> bookings == old(bookings)
    {
      var wasLoggedIn := isLoggedIn;
      if password == AdminPassword {
        isLoggedIn := true;
        error := "";
      } else {
        error := InvalidPasswordMessage;
      }
      if isLoggedIn && !wasLoggedIn {
        var stored := store.GetBookings();
        bookings := SortNewestFirst(stored);
      }
    }

    /** `handleDelete`; `confirmed` is the answer to `window.confirm`. */
    method Delete(id: string, confirmed: bool)
      modifies this`bookings, store
      ensures confirmed ==> store.stored == WithoutId(old(store.stored), id)
      ensures confirmed ==> bookings == WithoutId(old(bookings), id)
      ensures !confirmed ==> store.stored == old(store.stored) && bookings == old(bookings)
      ensures NewestFirst(old(bookings)) ==> NewestFirst(bookings)
      ensures old(bookings) == SortNewestFirst(old(store.stored)) ==>
        bookings == SortNewestFirst(store.stored)
      ensures NoDoubleBooking(old(store.stored)) ==> NoDoubleBooking(store.stored)
    {
      if confirmed {
        store.DeleteBooking(id);
        if NewestFirst(bookings) {
          DeleteKeepsNewestFirst(bookings, id);
        }
        DeleteCommutesWithSort(old(store.stored), id);
        bookings := WithoutId(bookings, id);
      }
    }

    /** The logout button. */
    method Logout()
      modifies this`isLoggedIn
      ensures !isLoggedIn
    {
      isLoggedIn := false;
    }
  }
}
