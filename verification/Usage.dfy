/** The account's usage, credited to the workspaces whose requests moved it
    (cli/internal/sandbox/usage.go). Utilizations are real numbers. */
module Usage {
  import opened Common

  /** One window as a response reports it. */
  datatype Window = Window(utilization: real, reset: int)

  /** One response's view of the account; a missing or odd value is not counted. */
  datatype Reading = Reading(fiveHour: Option<Window>, week: Option<Window>)

  datatype Credit = Credit(fiveHour: real, week: real)

  const ZERO := Credit(0.0, 0.0)

  function Plus(a: Credit, b: Credit): Credit {
    Credit(a.fiveHour + b.fiveHour, a.week + b.week)
  }

  /** How far a window moved since the last reading: all of it after a reset, nothing if it fell. */
  function Rise(before: Option<Window>, now: Option<Window>): real {
    if now.None? || before.None? then 0.0
    else if now.value.reset != before.value.reset then now.value.utilization
    else if now.value.utilization > before.value.utilization then now.value.utilization - before.value.utilization
    else 0.0
  }

  /** The last reading of a window. */
  function Latest(before: Option<Window>, now: Option<Window>): Option<Window> {
    if now.None? then before else now
  }

  /* ── the meter ── */

  datatype State = State(fiveHour: Option<Window>, week: Option<Window>, credited: map<string, Credit>)

  const START := State(None, None, map[])

  function CreditOf(credited: map<string, Credit>, id: string): Credit {
    if id in credited then credited[id] else ZERO
  }

  function RiseOf(s: State, r: Reading): Credit {
    Credit(Rise(s.fiveHour, r.fiveHour), Rise(s.week, r.week))
  }

  function Credited(s: State, id: string, r: Reading): State {
    State(Latest(s.fiveHour, r.fiveHour), Latest(s.week, r.week),
          s.credited[id := Plus(CreditOf(s.credited, id), RiseOf(s, r))])
  }

  function Taken(s: State, id: string): State {
    s.(credited := s.credited - {id})
  }

  class Meter {
    var fiveHour: Option<Window>
    var week: Option<Window>
    var credited: map<string, Credit>

    function Now(): State
      reads this
    {
      State(fiveHour, week, credited)
    }

    constructor ()
      ensures Now() == START
    {
      fiveHour, week, credited := None, None, map[];
    }

    /** Moves a window on to its new reading, and says how far it rose. */
    static method MoveOn(last: Option<Window>, now: Option<Window>) returns (rise: real, next: Option<Window>)
      ensures rise == Rise(last, now) && next == Latest(last, now)
    {
      if now.None? { return 0.0, last; }
      next := now;
      if last.None? { return 0.0, next; }
      if now.value.reset != last.value.reset { return now.value.utilization, next; }
      if now.value.utilization > last.value.utilization {
        return now.value.utilization - last.value.utilization, next;
      }
      rise := 0.0;
    }

    /** Records a reading for a workspace. */
    method CreditTo(id: string, reading: Reading)
      modifies this
      ensures Now() == Credited(old(Now()), id, reading)
    {
      if id !in credited {
        credited := credited[id := ZERO];
      }
      var five, seven;
      five, fiveHour := MoveOn(fiveHour, reading.fiveHour);
      seven, week := MoveOn(week, reading.week);
      credited := credited[id := Credit(credited[id].fiveHour + five, credited[id].week + seven)];
    }

    /** Hands back what a workspace was credited and starts it again from zero. */
    method Take(id: string) returns (got: Credit, five: Option<Window>, seven: Option<Window>)
      modifies this
      ensures Now() == Taken(old(Now()), id)
      ensures got == CreditOf(old(credited), id) && five == old(fiveHour) && seven == old(week)
    {
      got := ZERO;
      if id in credited {
        got := credited[id];
        credited := credited - {id};
      }
      five, seven := fiveHour, week;
    }
  }

  /* ── runs ── */

  datatype Event = ACredit(id: string, reading: Reading) | ATake(id: string)

  function Apply(s: State, e: Event): State {
    match e
    case ACredit(id, r) => Credited(s, id, r)
    case ATake(id) => Taken(s, id)
  }

  function After(events: seq<Event>): State {
    if events == [] then START else Apply(After(events[..|events| - 1]), events[|events| - 1])
  }

  /** Everything handed back so far. */
  function TotalTaken(events: seq<Event>): Credit {
    if events == [] then ZERO
    else
      var before, e := events[..|events| - 1], events[|events| - 1];
      if e.ATake? then Plus(TotalTaken(before), CreditOf(After(before).credited, e.id)) else TotalTaken(before)
  }

  /** The sum of the rises between one reading and the next. */
  function TotalRise(events: seq<Event>): Credit {
    if events == [] then ZERO
    else
      var before, e := events[..|events| - 1], events[|events| - 1];
      if e.ACredit? then Plus(TotalRise(before), RiseOf(After(before), e.reading)) else TotalRise(before)
  }

  /** The credits outstanding, over every workspace. */
  ghost function Outstanding(credited: map<string, Credit>): Credit
    decreases |credited|
  {
    if credited == map[] then ZERO
    else
      var id :| id in credited;
      Plus(credited[id], Outstanding(credited - {id}))
  }

  /** Whichever workspace is counted first. */
  lemma {:induction false} CountedFirst(credited: map<string, Credit>, id: string)
    requires id in credited
    ensures Outstanding(credited) == Plus(credited[id], Outstanding(credited - {id}))
    decreases |credited|
  {
    var other :| other in credited && Outstanding(credited) == Plus(credited[other], Outstanding(credited - {other}));
    if other != id {
      CountedFirst(credited - {other}, id);
      CountedFirst(credited - {id}, other);
      var rest := credited - {id} - {other};
      assert credited - {other} - {id} == rest;
      PlusSwaps(credited[other], credited[id], Outstanding(rest));
      PlusSwaps(credited[id], credited[other], Outstanding(rest));
    }
  }

  lemma CreditCounted(credited: map<string, Credit>, id: string, c: Credit)
    ensures Outstanding(credited[id := Plus(CreditOf(credited, id), c)]) == Plus(Outstanding(credited), c)
  {
    var after := credited[id := Plus(CreditOf(credited, id), c)];
    CountedFirst(after, id);
    assert after - {id} == credited - {id};
    if id in credited {
      CountedFirst(credited, id);
    } else {
      assert credited - {id} == credited;
    }
  }

  lemma TakeCounted(credited: map<string, Credit>, id: string)
    ensures Plus(Outstanding(credited - {id}), CreditOf(credited, id)) == Outstanding(credited)
  {
    if id in credited {
      CountedFirst(credited, id);
    } else {
      assert credited - {id} == credited;
    }
  }

  lemma PlusSwaps(a: Credit, b: Credit, c: Credit)
    ensures Plus(Plus(a, c), b) == Plus(Plus(a, b), c) && Plus(a, Plus(b, c)) == Plus(Plus(a, b), c)
    ensures Plus(a, b) == Plus(b, a)
  {
  }

  /** Usage is conserved: what is outstanding and what was taken is the sum of the rises. */
  lemma {:induction false} Conserved(events: seq<Event>)
    ensures Plus(Outstanding(After(events).credited), TotalTaken(events)) == TotalRise(events)
  {
    if events != [] {
      var before, e := events[..|events| - 1], events[|events| - 1];
      Conserved(before);
      ConservedByOne(After(before), e, TotalTaken(before), TotalRise(before));
    }
  }

  lemma ConservedByOne(s: State, e: Event, taken: Credit, rise: Credit)
    requires Plus(Outstanding(s.credited), taken) == rise
    ensures Plus(Outstanding(Apply(s, e).credited), if e.ATake? then Plus(taken, CreditOf(s.credited, e.id)) else taken)
            == if e.ACredit? then Plus(rise, RiseOf(s, e.reading)) else rise
  {
    match e
    case ACredit(id, r) =>
      CreditCounted(s.credited, id, RiseOf(s, r));
      PlusSwaps(Outstanding(s.credited), taken, RiseOf(s, r));
    case ATake(id) =>
      TakeCounted(s.credited, id);
      var left := Outstanding(s.credited - {id});
      PlusSwaps(left, taken, CreditOf(s.credited, id));
  }

  /* ── what the rises add up to ── */

  /** What an event says of one window. */
  function WindowOf(e: Event, week: bool): Option<Window> {
    if e.ATake? then None else if week then e.reading.week else e.reading.fiveHour
  }

  /** The readings of a window, in order, those without one left out. */
  function Readings(events: seq<Event>, week: bool): seq<Window> {
    if events == [] then []
    else
      var before, w := Readings(events[..|events| - 1], week), WindowOf(events[|events| - 1], week);
      if w.None? then before else before + [w.value]
  }

  /** A period: its first and last reading, all with one reset time. */
  datatype Period = Period(first: Window, last: Window)

  /** The readings cut where the reset time changes. */
  function Periods(ws: seq<Window>): (ps: seq<Period>)
    ensures ws == [] <==> ps == []
    ensures ws != [] ==> ps[|ps| - 1].last == ws[|ws| - 1]
  {
    if ws == [] then []
    else
      var ps, w := Periods(ws[..|ws| - 1]), ws[|ws| - 1];
      if ps == [] || ps[|ps| - 1].last.reset != w.reset then ps + [Period(w, w)]
      else ps[..|ps| - 1] + [ps[|ps| - 1].(last := w)]
  }

  function Ends(ps: seq<Period>): real {
    if ps == [] then 0.0 else Ends(ps[..|ps| - 1]) + ps[|ps| - 1].last.utilization
  }

  /** What the account itself says was used: from the first reading to the end of its
      period, and all of every later period. */
  function AccountTotal(ps: seq<Period>): real {
    if ps == [] then 0.0 else Ends(ps) - ps[0].first.utilization
  }

  /** Within a period, no reading is lower than the one before it. */
  predicate NeverFalls(ws: seq<Window>) {
    forall i :: 0 < i < |ws| && ws[i].reset == ws[i - 1].reset ==> ws[i].utilization >= ws[i - 1].utilization
  }

  function Rises(ws: seq<Window>): real {
    if |ws| <= 1 then 0.0
    else Rises(ws[..|ws| - 1]) + Rise(Some(ws[|ws| - 2]), Some(ws[|ws| - 1]))
  }

  /** One more reading adds its rise over the last one, or more when it fell. */
  lemma OneMoreReading(ps: seq<Period>, w: Window)
    requires ps != []
    ensures var last := ps[|ps| - 1].last;
            var ps' := if last.reset != w.reset then ps + [Period(w, w)] else ps[..|ps| - 1] + [ps[|ps| - 1].(last := w)];
            AccountTotal(ps') == AccountTotal(ps) + w.utilization - (if last.reset == w.reset then last.utilization else 0.0)
  {
    assert (ps + [Period(w, w)])[..|ps|] == ps;
    assert (ps[..|ps| - 1] + [ps[|ps| - 1].(last := w)])[..|ps| - 1] == ps[..|ps| - 1];
  }

  /** The rises telescope to the account's own total when readings never fall within a
      period, and are never less. */
  lemma {:induction false} RisesTelescope(ws: seq<Window>)
    ensures Rises(ws) >= AccountTotal(Periods(ws))
    ensures NeverFalls(ws) ==> Rises(ws) == AccountTotal(Periods(ws))
  {
    if |ws| == 1 {
      assert Periods(ws[..0]) == [];
      assert Periods(ws) == [Period(ws[0], ws[0])];
      assert Ends([Period(ws[0], ws[0])][..0]) == 0.0;
    } else if |ws| > 1 {
      var before, w := ws[..|ws| - 1], ws[|ws| - 1];
      RisesTelescope(before);
      assert ws[|ws| - 2] == before[|before| - 1];
      OneMoreReading(Periods(before), w);
      assert NeverFalls(ws) ==> NeverFalls(before);
    }
  }

  /** The last reading of a window is the meter's. */
  lemma {:induction false} LastReading(events: seq<Event>, week: bool)
    ensures var ws := Readings(events, week);
            (if week then After(events).week else After(events).fiveHour) == if ws == [] then None else Some(ws[|ws| - 1])
  {
    if events != [] {
      var before, e := events[..|events| - 1], events[|events| - 1];
      LastReading(before, week);
      MovedOn(After(before), e, week);
    }
  }

  lemma MovedOn(s: State, e: Event, week: bool)
    ensures var s' := Apply(s, e);
            (if week then s'.week else s'.fiveHour) == Latest(if week then s.week else s.fiveHour, WindowOf(e, week))
  {
  }

  lemma {:induction false} RisesOfWindow(events: seq<Event>, week: bool)
    ensures (if week then TotalRise(events).week else TotalRise(events).fiveHour) == Rises(Readings(events, week))
  {
    if events != [] {
      var before, e := events[..|events| - 1], events[|events| - 1];
      RisesOfWindow(before, week);
      LastReading(before, week);
      var ws := Readings(before, week);
      var now := WindowOf(e, week);
      if now.Some? {
        assert (ws + [now.value])[..|ws|] == ws;
      }
    }
  }

  /** Over every run, what the workspaces hold and handed back is at least what the
      account says was used, and exactly that when its readings never fall within a period. */
  lemma CreditsMatchAccount(events: seq<Event>, week: bool)
    ensures var all := Plus(Outstanding(After(events).credited), TotalTaken(events));
            var mine := if week then all.week else all.fiveHour;
            var ws := Readings(events, week);
            && mine >= AccountTotal(Periods(ws))
            && (NeverFalls(ws) ==> mine == AccountTotal(Periods(ws)))
  {
    Conserved(events);
    RisesOfWindow(events, week);
    RisesTelescope(Readings(events, week));
  }
}
