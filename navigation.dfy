/**
 * The scroll navigation state machine: a fixed table of planet x card stops,
 * a cursor that is -1 ("God View", before the first stop) or a table index,
 * and one change-notification slot.
 */
module Navigation {
  import opened Wrappers

  /** The order in which the planets are visited. */
  const Planets: seq<string> :=
    ["earth", "sun", "moon", "mars", "mercury", "jupiter", "venus", "saturn", "neptune"]
  /** Card 0 focuses the planet; cards 1 to 3 reveal that many panels. */
  const CardsPerPlanet: int := 4
  const TotalStates: int := |Planets| * CardsPerPlanet

  datatype State = State(index: int, planet: string, card: int)

  /** Identity of a registered change callback. */
  datatype Listener = Listener(id: nat)

  /** One invocation of the change callback, with the state it was given
      (`None` for the God View). */
  datatype Delivery = Delivery(listener: Listener, state: Option<State>)

  /** `Math.max(lo, Math.min(x, hi))` */
  function Clamp(x: int, lo: int, hi: int): (r: int)
    requires lo <= hi
    ensures lo <= r <= hi
    ensures lo <= x <= hi ==> r == x
    ensures x < lo ==> r == lo
    ensures x > hi ==> r == hi
  {
    if x < lo then lo else if x > hi then hi else x
  }

  /** `Array.prototype.indexOf`: the first position of `x`, or -1. */
  function IndexOf(xs: seq<string>, x: string): (r: int)
    ensures -1 <= r < |xs|
    ensures r == -1 <==> x !in xs
    ensures r >= 0 ==> xs[r] == x && x !in xs[..r]
  {
    if xs == [] then -1
    else if xs[0] == x then 0
    else
      var r := IndexOf(xs[1..], x);
      if r == -1 then -1 else r + 1
  }

  lemma PlanetsDistinct()
    ensures forall i, j :: 0 <= i < j < |Planets| ==> Planets[i] != Planets[j]
  {
  }

  /** Looking a planet up by name finds the position it was taken from. */
  lemma IndexOfPlanet(i: int)
    requires 0 <= i < |Planets|
    ensures IndexOf(Planets, Planets[i]) == i
  {
    PlanetsDistinct();
  }

  /** A stop index splits back into its planet position and its card. */
  lemma StopIndexSplits(p: int, c: int)
    requires 0 <= c < CardsPerPlanet
    ensures (p * CardsPerPlanet + c) / CardsPerPlanet == p
    ensures (p * CardsPerPlanet + c) % CardsPerPlanet == c
  {
  }

  /** The entry the constructor stores at position k of the table. */
  function StateFor(k: int): (s: State)
    requires 0 <= k < TotalStates
    ensures s.index == k && s.planet in Planets && 0 <= s.card < CardsPerPlanet
  {
    State(k, Planets[k / CardsPerPlanet], k % CardsPerPlanet)
  }

  /** The deliveries `_notifyChange` makes: one if a callback is set, none otherwise. */
  function Notified(listener: Option<Listener>, state: Option<State>): (d: seq<Delivery>)
    ensures |d| <= 1 && (|d| == 1 <==> listener.Some?)
    ensures forall i :: 0 <= i < |d| ==> d[i].listener == listener.value && d[i].state == state
  {
    if listener.Some? then [Delivery(listener.value, state)] else []
  }

  class ScrollStateMachine {
    var states: seq<State>
    /** -1 is the God View; otherwise an index into `states`. */
    var currentIndex: int
    var onStateChange: Option<Listener>
    /** Every call made to the change callback, oldest first. */
    var deliveries: seq<Delivery>

    ghost predicate Valid()
      reads this
    {
      && |states| == TotalStates
      && (forall k :: 0 <= k < TotalStates ==> states[k] == StateFor(k))
      && -1 <= currentIndex < TotalStates
    }

    constructor ()
      ensures Valid()
      ensures currentIndex == -1 && onStateChange == None && deliveries == []
    {
      states := [];
      currentIndex := -1;
      onStateChange := None;
      deliveries := [];
      new;
      var i := 0;
      while i < |Planets|
        invariant 0 <= i <= |Planets|
        invariant |states| == i * CardsPerPlanet
        invariant forall k :: 0 <= k < |states| ==> states[k] == StateFor(k)
        invariant currentIndex == -1 && onStateChange == None && deliveries == []
      {
        var c := 0;
        while c < CardsPerPlanet
          invariant 0 <= c <= CardsPerPlanet
          invariant |states| == i * CardsPerPlanet + c
          invariant forall k :: 0 <= k < |states| ==> states[k] == StateFor(k)
          invariant currentIndex == -1 && onStateChange == None && deliveries == []
        {
          StopIndexSplits(i, c);
          assert StateFor(|states|) == State(|states|, Planets[i], c);
          states := states + [State(|states|, Planets[i], c)];
          c := c + 1;
        }
        i := i + 1;
      }
    }

    /** The number of stops: the size of the table. */
    function GetTotal(): (r: int)
      reads this
      requires Valid()
      ensures r == |states| && r == 36
    {
      TotalStates
    }

    /** The current stop, or `None` at the God View. */
    function GetState(): (r: Option<State>)
      reads this
      requires Valid()
      ensures r.None? <==> currentIndex == -1
      ensures r.Some? ==> r.value == StateFor(currentIndex)
    {
      if currentIndex == -1 then None else Some(states[currentIndex])
    }

    /** The stop at `index` clamped into the table; never the God View. */
    function GetStateAt(index: int): (r: State)
      reads this
      requires Valid()
      ensures r == StateFor(Clamp(index, 0, TotalStates - 1))
    {
      states[Clamp(index, 0, TotalStates - 1)]
    }

    /** Index of (planet, card) with the card clamped into 0..3, or -1 for a
        planet that is not in the table. */
    static function GetIndexFor(planet: string, card: int): (r: int)
      ensures r == -1 <==> planet !in Planets
      ensures r != -1 ==> 0 <= r < TotalStates
      ensures r != -1 ==> StateFor(r).planet == planet
      ensures r != -1 ==> StateFor(r).card == Clamp(card, 0, CardsPerPlanet - 1)
    {
      var planetIndex := IndexOf(Planets, planet);
      if planetIndex == -1 then -1
      else
        var clampedCard := Clamp(card, 0, CardsPerPlanet - 1);
        StopIndexSplits(planetIndex, clampedCard);
        planetIndex * CardsPerPlanet + clampedCard
    }

    method SetOnStateChange(callback: Option<Listener>)
      modifies this`onStateChange
      ensures onStateChange == callback
    {
      onStateChange := callback;
    }

    method NotifyChange()
      requires Valid()
      modifies this`deliveries
      ensures deliveries == old(deliveries) + Notified(onStateChange, GetState())
    {
      if onStateChange.Some? {
        deliveries := deliveries + [Delivery(onStateChange.value, GetState())];
      }
    }

    /** One stop forward; `None` and no notification at the last stop. */
    method Next() returns (r: Option<State>)
      requires Valid()
      modifies this`currentIndex, this`deliveries
      ensures Valid()
      ensures old(currentIndex) == TotalStates - 1 ==>
        r == None && currentIndex == old(currentIndex) && deliveries == old(deliveries)
      ensures old(currentIndex) < TotalStates - 1 ==>
        && currentIndex == old(currentIndex) + 1
        && r == Some(StateFor(currentIndex))
        && deliveries == old(deliveries) + Notified(onStateChange, r)
    {
      if currentIndex >= TotalStates - 1 {
        return None;
      }
      currentIndex := currentIndex + 1;
      NotifyChange();
      r := GetState();
    }

    /** One stop back; from stop 0 into the God View (notifying with `None`);
        `None` and no notification at the God View. */
    method Prev() returns (r: Option<State>)
      requires Valid()
      modifies this`currentIndex, this`deliveries
      ensures Valid()
      ensures old(currentIndex) == -1 ==>
        r == None && currentIndex == -1 && deliveries == old(deliveries)
      ensures old(currentIndex) >= 0 ==>
        && currentIndex == old(currentIndex) - 1
        && r == GetState()
        && deliveries == old(deliveries) + Notified(onStateChange, r)
      ensures old(currentIndex) == 0 ==> r == None
    {
      if currentIndex <= -1 {
        return None;
      }
      currentIndex := currentIndex - 1;
      NotifyChange();
      r := GetState();
    }

    /** Jump to `index` clamped into 0..35; notifies only on an actual change. */
    method GoTo(index: int) returns (r: Option<State>)
      requires Valid()
      modifies this`currentIndex, this`deliveries
      ensures Valid()
      ensures currentIndex == Clamp(index, 0, TotalStates - 1)
      ensures r == Some(StateFor(currentIndex))
      ensures deliveries == old(deliveries) +
        (if currentIndex != old(currentIndex) then Notified(onStateChange, r) else [])
    {
      var clampedIndex := Clamp(index, 0, TotalStates - 1);
      if clampedIndex != currentIndex {
        currentIndex := clampedIndex;
        NotifyChange();
      }
      r := GetState();
    }

    /** Jump to (planet, card); an unknown planet changes nothing and gives `None`. */
    method GoToPlanetCard(planet: string, card: int) returns (r: Option<State>)
      requires Valid()
      modifies this`currentIndex, this`deliveries
      ensures Valid()
      ensures planet !in Planets ==>
        r == None && currentIndex == old(currentIndex) && deliveries == old(deliveries)
      ensures planet in Planets ==>
        && currentIndex == GetIndexFor(planet, card)
        && r == Some(StateFor(currentIndex))
        && r.value.planet == planet
        && r.value.card == Clamp(card, 0, CardsPerPlanet - 1)
        && deliveries == old(deliveries) +
             (if currentIndex != old(currentIndex) then Notified(onStateChange, r) else [])
    {
      var planetIndex := IndexOf(Planets, planet);
      if planetIndex == -1 {
        return None;
      }
      var clampedCard := Clamp(card, 0, CardsPerPlanet - 1);
      var stateIndex := planetIndex * CardsPerPlanet + clampedCard;
      r := GoTo(stateIndex);
    }

    /** Back to the God View; notifies (with `None`) only if it was elsewhere. */
    method Reset()
      requires Valid()
      modifies this`currentIndex, this`deliveries
      ensures Valid()
      ensures currentIndex == -1
      ensures deliveries == old(deliveries) +
        (if old(currentIndex) != -1 then Notified(onStateChange, None) else [])
    {
      if currentIndex != -1 {
        currentIndex := -1;
        NotifyChange();
      }
    }
  }

  /** Every table entry is found again by its own planet and card. */
  lemma {:induction false} IndexForStateFor(k: int)
    requires 0 <= k < TotalStates
    ensures ScrollStateMachine.GetIndexFor(StateFor(k).planet, StateFor(k).card) == k
  {
    IndexOfPlanet(k / CardsPerPlanet);
  }

  /** `next()` followed by `prev()` returns to the starting index, from the
      God View or any stop but the last, and calls the callback twice. */
  method NextThenPrev(m: ScrollStateMachine) returns (forward: Option<State>, back: Option<State>)
    requires m.Valid() && m.currentIndex < TotalStates - 1
    modifies m`currentIndex, m`deliveries
    ensures m.Valid() && m.currentIndex == old(m.currentIndex)
    ensures forward == Some(StateFor(old(m.currentIndex) + 1)) && back == old(m.GetState())
    ensures m.deliveries == old(m.deliveries) + Notified(m.onStateChange, forward) + Notified(m.onStateChange, back)
  {
    forward := m.Next();
    back := m.Prev();
  }

  /** Worked examples from the machine's own unit tests that agree with its
      God View start: the table. */
  method TableExamples() {
    var m := new ScrollStateMachine();
    assert m.GetTotal() == 36;
    assert m.GetState() == None;
    assert m.GetStateAt(4) == State(4, "sun", 0);
    assert m.GetStateAt(35) == State(35, "neptune", 3);
  }

  /** Worked examples: stepping and clamped jumps. */
  method StepExamples() {
    var m := new ScrollStateMachine();
    var r := m.GoTo(35);
    r := m.Next();
    assert r == None && m.currentIndex == 35;
    r := m.GoTo(5);
    r := m.Prev();
    assert r.value.index == 4;
    r := m.GoTo(4);
    r := m.Prev();
    assert r == Some(State(3, "earth", 3));
    r := m.GoTo(-5);
    assert r.value.index == 0;
    r := m.GoTo(100);
    assert r.value.index == 35;
  }

  /** Worked example: (mars, 2) is stop 14. */
  method MarsExample() {
    var m := new ScrollStateMachine();
    assert Planets[3] == "mars";
    IndexForStateFor(14);
    var r := m.GoToPlanetCard("mars", 2);
    assert r == Some(State(14, "mars", 2));
  }

  /** Worked example: an unknown planet is refused. */
  method UnknownPlanetExample() {
    var m := new ScrollStateMachine();
    assert "pluto" !in Planets;
    var r := m.GoToPlanetCard("pluto", 0);
    assert r == None && m.currentIndex == -1;
    assert ScrollStateMachine.GetIndexFor("pluto", 0) == -1;
  }

  /** Worked examples: the card is clamped, and (jupiter, 1) is stop 21. */
  method ClampedCardExample() {
    var m := new ScrollStateMachine();
    assert Planets[0] == "earth";
    var r := m.GoToPlanetCard("earth", 99);
    assert r.value.card == 3;
    assert Planets[5] == "jupiter";
    IndexForStateFor(21);
    assert ScrollStateMachine.GetIndexFor("jupiter", 1) == 21;
  }

  /** Two identical jumps call the callback once. */
  method RepeatedJumpNotifiesOnce() {
    var m := new ScrollStateMachine();
    m.SetOnStateChange(Some(Listener(0)));
    assert "mars" in Planets;
    var r := m.GoToPlanetCard("mars", 2);
    var again := m.GoToPlanetCard("mars", 2);
    assert |m.deliveries| == 1;
  }
}
