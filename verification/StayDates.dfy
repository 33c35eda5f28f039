/** Stay night arithmetic over half-open intervals [checkIn, checkOut). */
module StayDates {
  import opened Base

  const MAX_STAY_NIGHTS := 365

  /** The nights of a stay, in order. */
  function Nights(checkIn: Date, checkOut: Date): (nights: seq<Date>)
    requires checkIn <= checkOut
  {
    seq(checkOut - checkIn, i => checkIn + i)
  }

  /** True of the stays the service accepts. */
  predicate ValidStay(checkIn: Date, checkOut: Date) {
    checkIn < checkOut <= checkIn + MAX_STAY_NIGHTS
  }

  method IterStayNights(checkIn: Date, checkOut: Date) returns (nights: Option<seq<Date>>)
    ensures nights.Some? <==> ValidStay(checkIn, checkOut)
    ensures nights.Some? ==> nights.value == Nights(checkIn, checkOut)
  {
    if checkOut <= checkIn {
      return None;
    }
    var out: seq<Date> := [];
    var d := checkIn;
    while d < checkOut
      invariant checkIn <= d <= checkOut
      invariant out == Nights(checkIn, d)
    {
      out := out + [d];
      d := d + 1;
    }
    if |out| > MAX_STAY_NIGHTS {
      return None;
    }
    return Some(out);
  }

  function Earliest(nights: seq<Date>): Date
    requires nights != []
  {
    var last := nights[|nights| - 1];
    if |nights| == 1 then last
    else var rest := Earliest(nights[..|nights| - 1]); if last < rest then last else rest
  }

  function Latest(nights: seq<Date>): Date
    requires nights != []
  {
    var last := nights[|nights| - 1];
    if |nights| == 1 then last
    else var rest := Latest(nights[..|nights| - 1]); if last > rest then last else rest
  }

  /** First night and checkout day of the nights given, whatever their order. */
  method StayBounds(nights: seq<Date>) returns (checkIn: Date, checkOut: Date)
    requires nights != []
    ensures checkIn == Earliest(nights) && checkOut == Latest(nights) + 1
  {
    var first, last := nights[0], nights[0];
    for i := 1 to |nights|
      invariant first == Earliest(nights[..i]) && last == Latest(nights[..i])
    {
      assert nights[..i + 1][..i] == nights[..i];
      if nights[i] < first { first := nights[i]; }
      if nights[i] > last { last := nights[i]; }
    }
    assert nights[..|nights|] == nights;
    return first, last + 1;
  }

  /** Bounds read back from the nights of a stay are the bounds of that stay. */
  lemma {:induction false} BoundsInvertNights(checkIn: Date, checkOut: Date)
    requires checkIn < checkOut
    ensures Earliest(Nights(checkIn, checkOut)) == checkIn
    ensures Latest(Nights(checkIn, checkOut)) + 1 == checkOut
    decreases checkOut - checkIn
  {
    var nights := Nights(checkIn, checkOut);
    if checkIn + 1 < checkOut {
      assert nights[..|nights| - 1] == Nights(checkIn, checkOut - 1);
      BoundsInvertNights(checkIn, checkOut - 1);
    }
  }
}
