/** The date-based effect selector (src/utils/eventHandler.ts). The date is
    lifted to parameters: `day` is Date.getDate() and `monthIndex` is the
    0-based Date.getMonth(), so each selection is a function of the date. */
module EventHandler {
  import opened Common
  import opened Particles

  /** The event names 'CHRISTMAS', 'NEWYEAR' and 'NONE'. */
  datatype EventName = Christmas | NewYear | NoEvent

  /** The canvas effects of the repository. The selector only ever picks
      the first two; the confetti effect is never chosen by date. */
  datatype Effect = SnowfallEffect | ParticleEffect(opts: Options) | ConfettiEffect

  /** The 1-based month of a 0-based Date.getMonth() value. */
  function Month(monthIndex: int): int {
    monthIndex + 1
  }

  function GetEventName(day: int, monthIndex: int): (r: EventName)
    ensures r == Christmas <==> Month(monthIndex) == 12 && (day == 24 || day == 25)
    ensures r == NewYear <==> Month(monthIndex) == 1 && day == 1
    ensures r == NoEvent <==> !(monthIndex == 11 && 24 <= day <= 25) && !(monthIndex == 0 && day == 1)
  {
    var month := Month(monthIndex);
    if month == 12 && (day == 24 || day == 25) then Christmas
    else if month == 1 && day == 1 then NewYear
    else NoEvent
  }

  /** The options every non-Christmas date passes to the particle effect:
      dot radii between 0 and 0.4 and a line distance of 100. */
  const EventOptions: Options := NoOptions.(dotSize := Some(Range(0.0, 0.4)), lineDist := Some(100.0))

  function GetEventP5(day: int, monthIndex: int): (r: Effect)
    ensures r == SnowfallEffect <==> GetEventName(day, monthIndex) == Christmas
    ensures r != SnowfallEffect ==> r == ParticleEffect(EventOptions)
    ensures r != ConfettiEffect
  {
    var event := GetEventName(day, monthIndex);
    if event == Christmas then SnowfallEffect
    else ParticleEffect(EventOptions)
  }

  /** Exactly three days of the calendar carry an event: 24 and 25 December
      and 1 January. */
  lemma {:induction false} EventDays()
    ensures (set day: int, monthIndex: int | 1 <= day <= 31 && 0 <= monthIndex <= 11
               && GetEventName(day, monthIndex) != NoEvent :: (day, monthIndex))
         == {(24, 11), (25, 11), (1, 0)}
  {
    var days := set day: int, monthIndex: int | 1 <= day <= 31 && 0 <= monthIndex <= 11
                  && GetEventName(day, monthIndex) != NoEvent :: (day, monthIndex);
    assert GetEventName(24, 11) == Christmas && GetEventName(25, 11) == Christmas;
    assert GetEventName(1, 0) == NewYear;
    assert (24, 11) in days && (25, 11) in days && (1, 0) in days;
    forall p | p in days
      ensures p == (24, 11) || p == (25, 11) || p == (1, 0)
    {
    }
  }

  /** No day of June carries an event: there is no Pride branch. */
  lemma {:induction false} NoEventInJune(day: int)
    ensures GetEventName(day, 5) == NoEvent
    ensures GetEventP5(day, 5) == ParticleEffect(EventOptions)
  {
  }

  /** New Year gets the same particle field as an ordinary day. */
  lemma {:induction false} NewYearIsOrdinary(day: int, monthIndex: int)
    requires GetEventName(day, monthIndex) == NewYear
    ensures GetEventP5(day, monthIndex) == GetEventP5(2, 0)
  {
  }

  /** What the particle field of a non-Christmas date resolves to: the
      configured minimum radius 0 falls through `||` to the default 1, so
      the radius range is [1, 0.4]; every other setting is its default. */
  lemma {:induction false} EventSettings(day: int, monthIndex: int)
    requires GetEventName(day, monthIndex) != Christmas
    ensures GetEventP5(day, monthIndex).ParticleEffect?
    ensures Resolve(GetEventP5(day, monthIndex).opts)
         == Settings(Range(1.0, 0.4), DefaultSpeedX, DefaultSpeedY, 100.0, DefaultLineOpacity, true)
  {
  }
}
