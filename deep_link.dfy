/**
 * Deep linking: reading `?planet=..&card=..` once at start-up and writing the
 * current planet and card back into the URL. Query parameters are modelled as
 * the ordered list of (name, value) pairs a `URLSearchParams` holds; the
 * percent-encoding of the query string and `history.replaceState` are not
 * modelled.
 */
module DeepLink {
  import opened Wrappers
  import Decimal
  import Navigation

  /** The planet names a URL may carry. */
  const ValidPlanets: seq<string> :=
    ["earth", "sun", "moon", "mars", "mercury", "jupiter", "venus", "saturn", "neptune"]
  /** The largest card number a URL may carry. */
  const MaxCards: int := 3

  /** The URL accepts exactly the planets the state machine knows, in its order. */
  lemma ValidPlanetsAreNavigationPlanets()
    ensures ValidPlanets == Navigation.Planets
  {
  }

  type Query = seq<(string, string)>

  /** `URLSearchParams.get`: the value of the first parameter called `name`. */
  function Get(q: Query, name: string): (r: Option<string>)
    ensures r.None? <==> forall i :: 0 <= i < |q| ==> q[i].0 != name
    ensures r.Some? ==> exists i :: 0 <= i < |q| && q[i] == (name, r.value) &&
                                    forall j :: 0 <= j < i ==> q[j].0 != name
  {
    if q == [] then None
    else if q[0].0 == name then Some(q[0].1)
    else
      var r := Get(q[1..], name);
      assert forall i :: 1 <= i < |q| ==> q[i] == q[1..][i - 1];
      r
  }

  /** The card restored from a parsed `card` parameter (`None` is `NaN`):
      0 for `NaN` or a negative number, at most `MaxCards`. */
  function RestoreCard(parsed: Option<int>): (card: int)
    ensures 0 <= card <= MaxCards
    ensures parsed.None? ==> card == 0
    ensures parsed.Some? ==> card == Navigation.Clamp(parsed.value, 0, MaxCards)
  {
    var card := if parsed.None? || parsed.value < 0 then 0 else parsed.value;
    if card > MaxCards then MaxCards else card
  }

  /** Restoring is idempotent: a restored card restores to itself. */
  lemma RestoreCardIdempotent(parsed: Option<int>)
    ensures RestoreCard(Some(RestoreCard(parsed))) == RestoreCard(parsed)
  {
  }

  /** What start-up does with the URL: nothing, or (after a delay) jump to a
      planet and card. */
  datatype Restore = NoRestore | RestoreTo(planet: string, card: int)

  /** `parseInt(cardParam, 10)`; a missing parameter is `null`, which
      `parseInt` reads as the string "null", giving `NaN`. */
  function ParseCardParam(cardParam: Option<string>): (r: Option<int>)
    ensures cardParam.None? ==> r.None?
    ensures cardParam.Some? ==> r == Decimal.ParseInt(cardParam.value)
  {
    if cardParam.None? then
      Decimal.TrimStartUnspaced("null");
      assert Decimal.DigitPrefix("null") == [];
      Decimal.ParseInt("null")
    else Decimal.ParseInt(cardParam.value)
  }

  /** The restore decision of `setupUrlStateSync`. */
  function RestoreFromQuery(q: Query): (a: Restore)
    ensures a.RestoreTo? <==> Get(q, "planet").Some? && Get(q, "planet").value in ValidPlanets
    ensures a.RestoreTo? ==> a.planet == Get(q, "planet").value && 0 <= a.card <= MaxCards
    ensures a.RestoreTo? ==> a.card == RestoreCard(ParseCardParam(Get(q, "card")))
  {
    var planet := Get(q, "planet");
    if planet.Some? && planet.value != "" && planet.value in ValidPlanets then
      RestoreTo(planet.value, RestoreCard(ParseCardParam(Get(q, "card"))))
    else NoRestore
  }

  /** What `updateUrlState` does with the URL. */
  datatype UrlAction = ClearQuery | KeepUrl | WriteQuery(q: Query)

  /** The decision of `updateUrlState(planet, card)`: no planet clears the
      query, an unknown one leaves the URL alone, a known one is written with
      the card capped (from above only) at `MaxCards`. */
  function UpdateUrlState(planet: Option<string>, card: int): (a: UrlAction)
    ensures (planet.None? || planet == Some("")) <==> a == ClearQuery
    ensures a == KeepUrl <==> planet.Some? && planet.value != "" && planet.value !in ValidPlanets
    ensures a.WriteQuery? ==>
      && Get(a.q, "planet") == planet
      && Get(a.q, "card").Some?
      && Decimal.ParseInt(Get(a.q, "card").value) == Some(if card < MaxCards then card else MaxCards)
  {
    if planet.None? || planet.value == "" then ClearQuery
    else if planet.value !in ValidPlanets then KeepUrl
    else
      var written := if card < MaxCards then card else MaxCards;
      Decimal.ParseIntOfIntToString(written);
      WriteQuery([("planet", planet.value), ("card", Decimal.IntToString(written))])
  }

  /** A restored link always names a real stop: `goToPlanetCard` lands on
      planet position x 4 + card, which holds exactly that planet and card. */
  lemma {:induction false} RestoredLinkResolves(q: Query)
    requires RestoreFromQuery(q).RestoreTo?
    ensures var a := RestoreFromQuery(q);
      var k := Navigation.ScrollStateMachine.GetIndexFor(a.planet, a.card);
      && k == Navigation.IndexOf(Navigation.Planets, a.planet) * Navigation.CardsPerPlanet + a.card
      && 0 <= k < Navigation.TotalStates
      && Navigation.StateFor(k).planet == a.planet
      && Navigation.StateFor(k).card == a.card
  {
    ValidPlanetsAreNavigationPlanets();
  }

  /** Round trip: what `updateUrlState` writes for a valid planet and a card
      in 0..3 is restored as that same planet and card. */
  lemma {:induction false} UrlRoundTrip(planet: string, card: int)
    requires planet in ValidPlanets && 0 <= card <= MaxCards
    ensures UpdateUrlState(Some(planet), card).WriteQuery?
    ensures RestoreFromQuery(UpdateUrlState(Some(planet), card).q) == RestoreTo(planet, card)
  {
    var q := UpdateUrlState(Some(planet), card).q;
    assert Get(q, "planet") == Some(planet);
  }

  /** End to end: writing the URL for any stop and restoring it returns the
      machine to that very stop. */
  lemma {:induction false} StopSurvivesUrl(k: int)
    requires 0 <= k < Navigation.TotalStates
    ensures var s := Navigation.StateFor(k);
      var a := RestoreFromQuery(UpdateUrlState(Some(s.planet), s.card).q);
      a == RestoreTo(s.planet, s.card) &&
      Navigation.ScrollStateMachine.GetIndexFor(a.planet, a.card) == k
  {
    var s := Navigation.StateFor(k);
    ValidPlanetsAreNavigationPlanets();
    UrlRoundTrip(s.planet, s.card);
    Navigation.IndexForStateFor(k);
  }

  /** `scrollToPlanetCard` as the delayed deep-link jump, sent straight to the
      state machine. */
  method ApplyRestore(m: Navigation.ScrollStateMachine, a: Restore) returns (r: Option<Navigation.State>)
    requires m.Valid()
    modifies m`currentIndex, m`deliveries
    ensures m.Valid()
    ensures a == NoRestore ==> r == None && m.currentIndex == old(m.currentIndex) && m.deliveries == old(m.deliveries)
    ensures a.RestoreTo? && a.planet !in ValidPlanets ==>
      r == None && m.currentIndex == old(m.currentIndex) && m.deliveries == old(m.deliveries)
    ensures a.RestoreTo? && a.planet in ValidPlanets ==>
      && r.Some? && r.value.planet == a.planet
      && r.value.card == Navigation.Clamp(a.card, 0, MaxCards)
      && m.currentIndex == Navigation.ScrollStateMachine.GetIndexFor(a.planet, a.card)
      && m.deliveries == old(m.deliveries) +
           (if m.currentIndex != old(m.currentIndex) then Navigation.Notified(m.onStateChange, r) else [])
    ensures a.RestoreTo? && a.planet in ValidPlanets && 0 <= a.card <= MaxCards ==> r.value.card == a.card
  {
    if a.NoRestore? {
      return None;
    }
    ValidPlanetsAreNavigationPlanets();
    r := m.GoToPlanetCard(a.planet, a.card);
  }

  /** A missing `card` parameter restores card 0. */
  method MissingCardExample() {
    assert "null"[0] == 'n';
    Decimal.TrimStartUnspaced("null");
    assert Decimal.Unsigned("null") == "null";
    assert Decimal.DigitPrefix("null") == [];
    assert ParseCardParam(None) == None;
    assert RestoreCard(ParseCardParam(None)) == 0;
  }

  /** An unknown or missing planet restores nothing. */
  method UnknownPlanetExample() {
    var q := [("planet", "pluto"), ("card", "2")];
    assert Get(q, "planet") == Some("pluto");
    assert "pluto" !in ValidPlanets;
    assert RestoreFromQuery(q) == NoRestore;
    assert RestoreFromQuery([]) == NoRestore;
  }

  /** The card is capped from above only when written. */
  method WrittenCardExample() {
    assert "mars" in ValidPlanets && "mars" != "";
    var w := UpdateUrlState(Some("mars"), 7);
    assert w.WriteQuery?;
    assert Decimal.ParseInt(Get(w.q, "card").value) == Some(3);
    w := UpdateUrlState(Some("mars"), -2);
    assert w.WriteQuery?;
    assert Decimal.ParseInt(Get(w.q, "card").value) == Some(-2);
  }

  /** The card is clamped on both sides when read; no planet clears the
      query and an unknown one keeps the URL. */
  method ReadCardExample() {
    assert RestoreCard(Some(-2)) == 0 && RestoreCard(Some(7)) == 3 && RestoreCard(Some(2)) == 2;
    assert UpdateUrlState(None, 2) == ClearQuery;
    assert "pluto" !in ValidPlanets;
    assert UpdateUrlState(Some("pluto"), 2) == KeepUrl;
  }
}
