/**
 Manual tuning from the button panel: fixed-step jogs and the band ladders.
 Each works on a frequency in hertz read back from the controller and yields
 the new target; nothing is clamped.
 */
module Tuning {

  datatype JogSize = TenKHz | HundredKHz | OneMHz

  function StepHz(size: JogSize): nat {
    match size
    case TenKHz => 10000
    case HundredKHz => 100000
    case OneMHz => 1000000
  }

  /** A jog up moves above the frequency by one of the three fixed steps. */
  function JogUp(f: int, size: JogSize): (r: int)
    ensures r > f && r - f in {10000, 100000, 1000000}
  {
    f + StepHz(size)
  }

  /** A jog down moves below the frequency by one of the three fixed steps. */
  function JogDown(f: int, size: JogSize): (r: int)
    ensures r < f && f - r in {10000, 100000, 1000000}
  {
    f - StepHz(size)
  }

  /** Each jog moves by exactly its step, with no clamping, and down undoes up (and up undoes down). */
  lemma JogsAreInverse(f: int, size: JogSize)
    ensures JogUp(f, size) - f == StepHz(size) && f - JogDown(f, size) == StepHz(size)
    ensures JogDown(JogUp(f, size), size) == f && JogUp(JogDown(f, size), size) == f
  {
  }

  /** Jogging down from below one step goes under zero: nothing is clamped. */
  lemma JogDownIsNotClamped(f: int, size: JogSize)
    requires 0 <= f < StepHz(size)
    ensures JogDown(f, size) < 0
  {
  }

  /** The amateur bands the ladders know, lowest first. */
  datatype Band = M40 | M30 | M20 | M17 | M15 | M12 | M10 | M6

  function Bottom(b: Band): nat {
    match b
    case M40 => 7000000
    case M30 => 10100000
    case M20 => 14000000
    case M17 => 18068000
    case M15 => 21000000
    case M12 => 24890000
    case M10 => 28000000
    case M6 => 50000000
  }

  function Top(b: Band): nat {
    match b
    case M40 => 7300000
    case M30 => 10150000
    case M20 => 14350000
    case M17 => 18168000
    case M15 => 21450000
    case M12 => 24990000
    case M10 => 29700000
    case M6 => 54000000
  }

  /** The next band up, wrapping from 6 m back to 40 m. */
  function Next(b: Band): Band {
    match b
    case M40 => M30
    case M30 => M20
    case M20 => M17
    case M17 => M15
    case M15 => M12
    case M12 => M10
    case M10 => M6
    case M6 => M40
  }

  /** The next band down, wrapping from 40 m up to 6 m. */
  function Prev(b: Band): Band {
    match b
    case M40 => M6
    case M30 => M40
    case M20 => M30
    case M17 => M20
    case M15 => M17
    case M12 => M15
    case M10 => M12
    case M6 => M10
  }

  predicate IsBandBottom(f: int) {
    f in {7000000, 10100000, 14000000, 18068000, 21000000, 24890000, 28000000, 50000000}
  }

  /** The set of band bottoms is exactly the image of `Bottom`. */
  lemma BandBottomsAreThePlan(f: int)
    ensures IsBandBottom(f) <==> exists b: Band :: Bottom(b) == f
  {
    if IsBandBottom(f) {
      var b :=
        if f == 7000000 then M40 else if f == 10100000 then M30
        else if f == 14000000 then M20 else if f == 18068000 then M17
        else if f == 21000000 then M15 else if f == 24890000 then M12
        else if f == 28000000 then M10 else M6;
      assert Bottom(b) == f;
    }
  }

  /**
   The "Band Up" ladder, threshold by threshold. It lands on a band bottom for
   every input up to the top of 6 m and leaves the rest alone.
   */
  function BandUp(f: int): (r: int)
    ensures f < 54000001 ==> IsBandBottom(r)
    ensures f >= 54000001 ==> r == f
  {
    if f < 7300001 then 10100000
    else if f < 10150001 then 14000000
    else if f < 14350001 then 18068000
    else if f < 18168001 then 21000000
    else if f < 21450001 then 24890000
    else if f < 24990001 then 28000000
    else if f < 29700001 then 50000000
    else if f < 54000001 then 7000000
    else f
  }

  /**
   The "Band Dn" ladder, threshold by threshold. It lands on a band bottom for
   every input from the bottom of 40 m up and leaves the rest alone.
   */
  function BandDown(f: int): (r: int)
    ensures f >= 7000000 ==> IsBandBottom(r)
    ensures f < 7000000 ==> r == f
  {
    if f > 49999999 then 28000000
    else if f > 27999999 then 24890000
    else if f > 24889999 then 21000000
    else if f > 20999999 then 18068000
    else if f > 18067999 then 14000000
    else if f > 13999999 then 10100000
    else if f > 10099999 then 7000000
    else if f > 6999999 then 50000000
    else f
  }

  /**
   Band Up in terms of the band plan: from anywhere above the previous band's
   top (from anything below, for 40 m) up to this band's top, it goes to the
   bottom of the next band.
   */
  lemma BandUpGoesToNextBand(b: Band, f: int)
    requires (b == M40 || f > Top(Prev(b))) && f <= Top(b)
    ensures BandUp(f) == Bottom(Next(b))
  {
  }

  /**
   Band Dn in terms of the band plan: from this band's bottom up to just below
   the next band's bottom (without limit, for 6 m), it goes to the bottom of
   the band below.
   */
  lemma BandDownGoesToPrevBand(b: Band, f: int)
    requires Bottom(b) <= f && (b == M6 || f < Bottom(Next(b)))
    ensures BandDown(f) == Bottom(Prev(b))
  {
  }

  /** The two ladders undo each other on every band bottom. */
  lemma BandLaddersAreInverse(b: Band)
    ensures BandUp(Bottom(b)) == Bottom(Next(b)) && BandDown(Bottom(b)) == Bottom(Prev(b))
    ensures BandDown(BandUp(Bottom(b))) == Bottom(b) && BandUp(BandDown(Bottom(b))) == Bottom(b)
  {
    BandUpGoesToNextBand(b, Bottom(b));
    BandDownGoesToPrevBand(b, Bottom(b));
    BandDownGoesToPrevBand(Next(b), Bottom(Next(b)));
    BandUpGoesToNextBand(Prev(b), Bottom(Prev(b)));
  }
}
