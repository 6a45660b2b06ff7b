/**
 The grouping of a client's fetched bookings into `bookingMap`: a dictionary
 from a booking's `id` to the array of bookings with that id, built in place by
 one pass that appends each booking to its group or starts a new group.

 The key is the booking's own `id`, as the handler is written (not the
 customer's id). A map has no order: the order in which groups are later
 visited (`Object.keys`, ascending for integer-like keys) is not modelled.
 */
module BookingMap {

  /** A reminder-eligible booking. Only `id` is read by the grouping; the other
      fields are carried along unchanged. */
  datatype Booking = Booking(id: int, customerId: int, name: string, phoneNumber: string, date: string)

  /** The ids that occur in a booking list. */
  function Ids(bookings: seq<Booking>): set<int>
  {
    set b | b in bookings :: b.id
  }

  /** A list has ids exactly when it is non-empty, so it yields a group
      exactly when it is non-empty. */
  lemma IdsEmpty(bookings: seq<Booking>)
    ensures Ids(bookings) == {} <==> bookings == []
  {
    if bookings != [] {
      assert bookings[0].id in Ids(bookings);
    }
  }

  /** Reference definition of one group: the bookings whose id is `key`, in
      input order. */
  function WithId(bookings: seq<Booking>, key: int): (group: seq<Booking>)
    ensures |group| <= |bookings|
    ensures forall b | b in group :: b.id == key && b in bookings
  {
    if bookings == [] then []
    else (if bookings[0].id == key then [bookings[0]] else []) + WithId(bookings[1..], key)
  }

  /** Selecting a group commutes with concatenation: appending bookings to the
      list appends the matching ones to the end of the group, so relative input
      order is kept. */
  lemma {:induction false} WithIdConcat(xs: seq<Booking>, ys: seq<Booking>, key: int)
    ensures WithId(xs + ys, key) == WithId(xs, key) + WithId(ys, key)
  {
    if xs == [] {
      assert xs + ys == ys;
    } else {
      assert (xs + ys)[1..] == xs[1..] + ys;
      WithIdConcat(xs[1..], ys, key);
    }
  }

  /** Group membership is decided by the id alone. */
  lemma {:induction false} WithIdMembership(bookings: seq<Booking>, key: int, b: Booking)
    ensures b in WithId(bookings, key) <==> b in bookings && b.id == key
  {
    if bookings != [] {
      WithIdMembership(bookings[1..], key, b);
      assert bookings == [bookings[0]] + bookings[1..];
    }
  }

  /** Every group is non-empty exactly for the ids that occur. */
  lemma WithIdNonEmpty(bookings: seq<Booking>, key: int)
    ensures WithId(bookings, key) != [] <==> key in Ids(bookings)
  {
    if key in Ids(bookings) {
      var b :| b in bookings && b.id == key;
      WithIdMembership(bookings, key, b);
    }
  }

  /** Partition: every occurrence of a booking lands in the group of its id
      (with its multiplicity), and in no other group. */
  lemma {:induction false} WithIdCountsOccurrences(bookings: seq<Booking>, b: Booking)
    ensures multiset(WithId(bookings, b.id))[b] == multiset(bookings)[b]
    ensures forall key | key != b.id :: b !in WithId(bookings, key)
  {
    if bookings != [] {
      WithIdCountsOccurrences(bookings[1..], b);
      assert bookings == [bookings[0]] + bookings[1..];
    }
  }

  /** `bookingMap` holds exactly the groups of `bookings`. */
  ghost predicate IsGrouping(bookingMap: map<int, seq<Booking>>, bookings: seq<Booking>)
  {
    && bookingMap.Keys == Ids(bookings)
    && forall key | key in bookingMap :: bookingMap[key] == WithId(bookings, key)
  }

  /** One step of the `forEach`: adding `booking` to its group (or starting
      the group) turns the grouping of a prefix into that of the longer prefix. */
  lemma GroupingStep(bookingMap: map<int, seq<Booking>>, bookings: seq<Booking>, booking: Booking)
    requires IsGrouping(bookingMap, bookings)
    ensures IsGrouping(bookingMap[booking.id := if booking.id in bookingMap then bookingMap[booking.id] + [booking] else [booking]],
                       bookings + [booking])
  {
    var next := bookingMap[booking.id := if booking.id in bookingMap then bookingMap[booking.id] + [booking] else [booking]];
    assert Ids(bookings + [booking]) == Ids(bookings) + {booking.id};
    forall key | key in next
      ensures next[key] == WithId(bookings + [booking], key)
    {
      WithIdConcat(bookings, [booking], key);
      if key == booking.id && booking.id !in bookingMap {
        WithIdNonEmpty(bookings, key);
      }
    }
  }

  /** The handler's `forEach`: append to an existing group, or start one. */
  method GroupById(bookingList: seq<Booking>) returns (bookingMap: map<int, seq<Booking>>)
    ensures bookingMap.Keys == Ids(bookingList)
    ensures forall key | key in bookingMap :: bookingMap[key] == WithId(bookingList, key)
    ensures forall key | key in bookingMap :: bookingMap[key] != []
  {
    bookingMap := map[];
    for i := 0 to |bookingList|
      invariant IsGrouping(bookingMap, bookingList[..i])
    {
      var booking := bookingList[i];
      assert bookingList[..i + 1] == bookingList[..i] + [booking];
      GroupingStep(bookingMap, bookingList[..i], booking);
      // An array is always truthy, so `if (bookingMap[booking.id])` tests presence.
      if booking.id in bookingMap {
        bookingMap := bookingMap[booking.id := bookingMap[booking.id] + [booking]];
      } else {
        bookingMap := bookingMap[booking.id := [booking]];
      }
    }
    assert bookingList[..|bookingList|] == bookingList;
    forall key | key in bookingMap
      ensures bookingMap[key] != []
    {
      WithIdNonEmpty(bookingList, key);
    }
  }
}
