/** Booking lifecycle: a strict status machine. */
module BookingStatus {

  datatype Status = Pending | Confirmed | CheckedIn | CheckedOut | Cancelled | NoShow

  /** A requested status after trimming and lower-casing: one of the six names, or some other text. */
  datatype StatusRequest = To(status: Status) | Unrecognised

  const TERMINAL: set<Status> := {Cancelled, NoShow, CheckedOut}

  /** A booking that is neither cancelled nor a no-show occupies inventory. */
  predicate Occupies(s: Status) {
    s != Cancelled && s != NoShow
  }

  /** Statuses one forward step away. */
  function Next(s: Status): set<Status> {
    match s
    case Pending => {Confirmed, Cancelled}
    case Confirmed => {CheckedIn, Cancelled, NoShow}
    case CheckedIn => {CheckedOut}
    case _ => {}
  }

  /** validate_status_transition: true when the change is accepted. */
  predicate Allowed(from: Status, request: StatusRequest) {
    match request
    case Unrecognised => false
    case To(to) => from == to || (from !in TERMINAL && to in Next(from))
  }

  /** How far along its life a status is; every accepted change of status moves forward. */
  function Stage(s: Status): nat {
    match s
    case Pending => 0
    case Confirmed => 1
    case CheckedIn => 2
    case _ => 3
  }

  /** The table, told by stages: one stage further while the nights stay occupied, or out before the guest is in the house. */
  lemma AllowedExactly(from: Status, next: Status)
    ensures
      Allowed(from, To(next)) <==>
        || next == from
        || (Stage(next) == Stage(from) + 1 && Occupies(next))
        || (next == Cancelled && (from == Pending || from == Confirmed))
        || (next == NoShow && from == Confirmed)
    ensures !Allowed(from, Unrecognised)
  {
  }

  /** A history in which each status follows the one before it by an accepted change. */
  ghost predicate History(h: seq<Status>) {
    forall i :: 0 < i < |h| ==> Allowed(h[i - 1], To(h[i]))
  }

  /** Over any history stages never fall, and equal stages mean the same status throughout. */
  lemma {:induction false} HistoryMovesForward(h: seq<Status>, i: nat, j: nat)
    requires History(h) && i <= j < |h|
    ensures Stage(h[i]) <= Stage(h[j])
    ensures Stage(h[i]) == Stage(h[j]) ==> h[i] == h[j]
    decreases j - i
  {
    if i < j {
      HistoryMovesForward(h, i, j - 1);
      assert Allowed(h[j - 1], To(h[j]));
    }
  }

  /** No history revives a booking that stopped occupying inventory. */
  lemma NeverRevived(h: seq<Status>, i: nat, j: nat)
    requires History(h) && i <= j < |h| && !Occupies(h[i])
    ensures h[j] == h[i]
  {
    HistoryMovesForward(h, i, j);
  }
}
