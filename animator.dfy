/**
 * The discrete part of the scroll animator: which planet section is pinned
 * (`currentPlanet`), which planet the camera follows (`currentTarget`), and how
 * the card presenter's visible panels converge on the scroll progress. Camera
 * tweens and scroll-trigger wiring are not modelled.
 */
module Animator {
  import opened Wrappers
  import Navigation

  /** The pinned planet sections, in page order. */
  const PinnedPlanets: seq<string> :=
    ["earth", "sun", "moon", "mars", "mercury", "jupiter", "venus", "saturn", "neptune"]

  /** The sections are pinned in the order the state machine visits the planets. */
  lemma PinnedOrderIsNavigationOrder()
    ensures PinnedPlanets == Navigation.Planets
  {
  }

  /** A command the animator sends to the card presenter. */
  datatype PanelCall = Prepared(planet: string) | PanelShown | PanelHidden | CardHidden

  /** `n` copies of `c`. */
  function Repeat(c: PanelCall, n: nat): (r: seq<PanelCall>)
    ensures |r| == n && forall i :: 0 <= i < n ==> r[i] == c
  {
    if n == 0 then [] else Repeat(c, n - 1) + [c]
  }

  /**
   * The card presenter, kept abstract: a visible-panel counter that
   * `ShowNextPanel` raises by one and `HideLastPanel` lowers by one, and the
   * log of every command it received. `Hide` and `PrepareContent` are assumed
   * to leave the counter alone.
   */
  class Presenter {
    var visiblePanelCount: int
    var calls: seq<PanelCall>

    constructor ()
      ensures visiblePanelCount == 0 && calls == []
    {
      visiblePanelCount := 0;
      calls := [];
    }

    method ShowNextPanel()
      modifies this
      ensures visiblePanelCount == old(visiblePanelCount) + 1
      ensures calls == old(calls) + [PanelShown]
    {
      visiblePanelCount := visiblePanelCount + 1;
      calls := calls + [PanelShown];
    }

    method HideLastPanel()
      modifies this
      ensures visiblePanelCount == old(visiblePanelCount) - 1
      ensures calls == old(calls) + [PanelHidden]
    {
      visiblePanelCount := visiblePanelCount - 1;
      calls := calls + [PanelHidden];
    }

    method Hide()
      modifies this`calls
      ensures calls == old(calls) + [CardHidden]
    {
      calls := calls + [CardHidden];
    }

    method PrepareContent(planet: string)
      modifies this`calls
      ensures calls == old(calls) + [Prepared(planet)]
    {
      calls := calls + [Prepared(planet)];
    }
  }

  /** The number of panels shown at scroll progress `progress` through a pinned
      section: one more for each completed quarter, at most three. */
  function TargetPanelCount(progress: real): (n: int)
    ensures 0 <= n <= 3
    ensures n == Navigation.Clamp((progress * 4.0).Floor, 0, 3)
  {
    if progress < 0.25 then 0
    else if progress < 0.50 then 1
    else if progress < 0.75 then 2
    else 3
  }

  /** Scrolling further never shows fewer panels. */
  lemma TargetPanelCountMonotone(p: real, q: real)
    requires p <= q
    ensures TargetPanelCount(p) <= TargetPanelCount(q)
  {
  }

  /** The commands that take the presenter from `from` to `target` visible
      panels one at a time: shows while below, hides while above. */
  function PanelSteps(from: int, target: int): (r: seq<PanelCall>)
    ensures from <= target ==> r == Repeat(PanelShown, target - from)
    ensures from >= target ==> r == Repeat(PanelHidden, from - target)
  {
    if from < target then Repeat(PanelShown, target - from)
    else Repeat(PanelHidden, from - target)
  }

  class ScrollAnimator {
    const holocard: Presenter
    /** The planets that have an entry in the content table. */
    const content: set<string>
    var currentTarget: Option<string>
    var currentPlanet: Option<string>

    constructor (holocard: Presenter, content: set<string>)
      ensures this.holocard == holocard && this.content == content
      ensures currentTarget == None && currentPlanet == None
    {
      this.holocard := holocard;
      this.content := content;
      currentTarget := None;
      currentPlanet := None;
    }

    /** Point the camera at a planet (the tween itself is not modelled). */
    method FocusOnPlanet(planetName: string)
      modifies this`currentTarget
      ensures currentTarget == Some(planetName)
    {
      currentTarget := Some(planetName);
    }

    /** Back to the overview: nothing targeted or pinned, cards hidden. */
    method ReturnToGodView()
      modifies this`currentTarget, this`currentPlanet, holocard`calls
      ensures currentTarget == None && currentPlanet == None
      ensures holocard.calls == old(holocard.calls) + [CardHidden]
    {
      currentTarget := None;
      currentPlanet := None;
      holocard.Hide();
    }

    /** A pinned section scrolled into from above. */
    method OnEnter(id: string)
      modifies this`currentTarget, this`currentPlanet, holocard`calls
      ensures currentPlanet == Some(id) && currentTarget == Some(id)
      ensures holocard.calls == old(holocard.calls) + (if id in content then [Prepared(id)] else [])
    {
      currentPlanet := Some(id);
      FocusOnPlanet(id);
      if id in content {
        holocard.PrepareContent(id);
      }
    }

    /** A pinned section scrolled out of (downwards or upwards). */
    method OnLeave()
      modifies holocard`calls
      ensures holocard.calls == old(holocard.calls) + [CardHidden]
    {
      holocard.Hide();
    }

    /** A pinned section scrolled into from below: all three panels are shown again. */
    method OnEnterBack(id: string)
      modifies this`currentTarget, this`currentPlanet, holocard
      ensures currentPlanet == Some(id) && currentTarget == Some(id)
      ensures id in content ==>
        && holocard.calls == old(holocard.calls) + [Prepared(id)] + Repeat(PanelShown, 3)
        && holocard.visiblePanelCount == old(holocard.visiblePanelCount) + 3
      ensures id !in content ==>
        holocard.calls == old(holocard.calls) && holocard.visiblePanelCount == old(holocard.visiblePanelCount)
    {
      currentPlanet := Some(id);
      FocusOnPlanet(id);
      if id in content {
        holocard.PrepareContent(id);
        holocard.ShowNextPanel();
        holocard.ShowNextPanel();
        holocard.ShowNextPanel();
      }
    }

    /** Step the presenter, one panel at a time, to the panel count of the
        scroll progress; ignored unless `planetId` is the pinned planet. */
    method UpdateCardReveal(planetId: string, progress: real)
      modifies holocard
      ensures currentPlanet != Some(planetId) ==>
        holocard.visiblePanelCount == old(holocard.visiblePanelCount) && holocard.calls == old(holocard.calls)
      ensures currentPlanet == Some(planetId) ==>
        && holocard.visiblePanelCount == TargetPanelCount(progress)
        && holocard.calls == old(holocard.calls) + PanelSteps(old(holocard.visiblePanelCount), TargetPanelCount(progress))
    {
      if currentPlanet != Some(planetId) {
        return;
      }
      var targetPanelCount := TargetPanelCount(progress);
      var initial := holocard.visiblePanelCount;

      while holocard.visiblePanelCount < targetPanelCount
        invariant initial <= holocard.visiblePanelCount
        invariant initial < targetPanelCount ==> holocard.visiblePanelCount <= targetPanelCount
        invariant initial >= targetPanelCount ==> holocard.visiblePanelCount == initial
        invariant holocard.calls == old(holocard.calls) + Repeat(PanelShown, holocard.visiblePanelCount - initial)
        decreases targetPanelCount - holocard.visiblePanelCount
      {
        holocard.ShowNextPanel();
      }

      while holocard.visiblePanelCount > targetPanelCount
        invariant initial <= targetPanelCount ==> holocard.visiblePanelCount == targetPanelCount
        invariant initial > targetPanelCount ==> targetPanelCount <= holocard.visiblePanelCount <= initial
        invariant initial <= targetPanelCount ==>
          holocard.calls == old(holocard.calls) + Repeat(PanelShown, targetPanelCount - initial)
        invariant initial > targetPanelCount ==>
          holocard.calls == old(holocard.calls) + Repeat(PanelHidden, initial - holocard.visiblePanelCount)
        decreases holocard.visiblePanelCount - targetPanelCount
      {
        holocard.HideLastPanel();
      }
    }
  }
}
