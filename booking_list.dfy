/** Lookup by id and the "replace the status of the booking with this id"
    update. The server does it with `findByIdAndUpdate` and `save()`; the
    admin dashboard does the same to its local copy with
    `bookings.map(b => b._id === id ? { ...b, status } : b)`. */
module BookingList {
  import opened Wrappers
  import opened BookingSchema

  /** Every id occurs at most once (Mongo `_id`). */
  predicate UniqueIds(s: seq<Booking>) {
    forall i, j :: 0 <= i < j < |s| ==> s[i].id != s[j].id
  }

  /** Unique ids, all drawn before the generator's next value. */
  predicate IdsBelow(s: seq<Booking>, next: nat) {
    UniqueIds(s) && forall i :: 0 <= i < |s| ==> s[i].id < next
  }

  predicate HasId(s: seq<Booking>, id: nat) {
    exists i :: 0 <= i < |s| && s[i].id == id
  }

  /** `findById`: the first booking carrying `id`, if any. */
  function Find(s: seq<Booking>, id: nat): (r: Option<Booking>)
    ensures r.None? <==> !HasId(s, id)
    ensures r.Some? ==> r.value in s && r.value.id == id
  {
    if s == [] then None
    else if s[0].id == id then Some(s[0])
    else
      var r := Find(s[1..], id);
      assert HasId(s, id) ==> s[0].id == id || HasId(s[1..], id) by {
        if HasId(s, id) {
          var i :| 0 <= i < |s| && s[i].id == id;
          if i > 0 { assert s[1..][i - 1].id == id; }
        }
      }
      r
  }

  /** Every booking with id `id` gets status `st`; the rest are kept. */
  function WithStatus(s: seq<Booking>, id: nat, st: Status): (r: seq<Booking>)
    ensures |r| == |s|
    ensures forall i :: 0 <= i < |s| ==> r[i].id == s[i].id
  {
    seq(|s|, i requires 0 <= i < |s| => if s[i].id == id then s[i].(status := st) else s[i])
  }

  /** The update touches only the matching booking, and only its status;
      every other booking keeps its position and its contents. */
  lemma WithStatusFrame(s: seq<Booking>, id: nat, st: Status)
    ensures forall i :: 0 <= i < |s| && s[i].id != id ==> WithStatus(s, id, st)[i] == s[i]
    ensures forall i :: 0 <= i < |s| && s[i].id == id ==>
      WithStatus(s, id, st)[i] == s[i].(status := st)
  {
  }

  /** With no booking carrying `id`, the update is the identity. */
  lemma WithStatusAbsent(s: seq<Booking>, id: nat, st: Status)
    requires !HasId(s, id)
    ensures WithStatus(s, id, st) == s
  {
  }

  /** Looking the booking up after the update finds it with the new status,
      and every other id still finds what it found before. */
  lemma {:induction false} FindWithStatus(s: seq<Booking>, id: nat, st: Status, other: nat)
    ensures Find(WithStatus(s, id, st), id) ==
      (match Find(s, id) case None => None case Some(b) => Some(b.(status := st)))
    ensures other != id ==> Find(WithStatus(s, id, st), other) == Find(s, other)
  {
    if s != [] {
      var t := WithStatus(s, id, st);
      assert t[1..] == WithStatus(s[1..], id, st);
      FindWithStatus(s[1..], id, st, other);
    }
  }

  /** Ids stay unique through the update. */
  lemma WithStatusUniqueIds(s: seq<Booking>, id: nat, st: Status)
    requires UniqueIds(s)
    ensures UniqueIds(WithStatus(s, id, st))
  {
  }
}
