/** The business-hours check the three servers define (each copy is the same
    function of the local weekday and hour). */
module Hours {

  /** A local clock reading as `Date.getDay()` (0 is Sunday) and
      `Date.getHours()` give it. */
  datatype LocalTime = LocalTime(day: nat, hour: nat)

  predicate WellFormed(t: LocalTime) {
    t.day < 7 && t.hour < 24
  }

  /** isBusinessHours: Monday to Friday, from 9:00 up to but excluding 17:00. */
  function IsBusinessHours(t: LocalTime): (open: bool)
    requires WellFormed(t)
    ensures open <==> t.day != 0 && t.day != 6 && 9 <= t.hour && t.hour < 17
  {
    var isWeekday := t.day >= 1 && t.day <= 5;
    var isDuringHours := t.hour >= 9 && t.hour < 17;
    isWeekday && isDuringHours
  }

  /** The hours of one day that are business hours. */
  function OpenHoursOf(day: nat, from: nat): (n: nat)
    requires day < 7 && from <= 24
    ensures n <= 24 - from
    decreases 24 - from
  {
    if from == 24 then 0
    else (if IsBusinessHours(LocalTime(day, from)) then 1 else 0) + OpenHoursOf(day, from + 1)
  }

  /** A weekday has eight business hours; Saturday and Sunday have none. */
  lemma {:induction false} OpenHoursPerDay(day: nat, from: nat)
    requires day < 7 && from <= 24
    ensures OpenHoursOf(day, from) ==
      if day == 0 || day == 6 then 0
      else if from <= 9 then 8
      else if from < 17 then 17 - from
      else 0
    decreases 24 - from
  {
    if from < 24 {
      OpenHoursPerDay(day, from + 1);
    }
  }
}
