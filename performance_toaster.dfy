/**
 * The performance controls (src/components/PerformanceToaster.jsx): which
 * quality button is highlighted, the panel's open/interacted state, and when
 * the "Experiencing lag?" hint bubble appears.
 */
module PerformanceToaster {
  import opened Options
  import opened Tiers
  import opened PerformanceContext

  /** `activeTier`: with an override the tier, otherwise LOW when the LOW flag is set, else the tier. */
  function ActiveTier(tier: Tier, isLowTier: bool, hasOverride: bool): (t: Tier)
    ensures (isLowTier <==> tier == Low) ==> t == tier
  {
    if hasOverride then tier else if isLowTier then Low else tier
  }

  /** Under any provider value, the highlighted tier is the effective tier itself. */
  lemma ActiveTierIsEffectiveTier(d: Detection, o: Option<Tier>, v: Viewport)
    ensures var pv := ProviderValue(d, o, v);
      ActiveTier(pv.tier, pv.isLowTier, pv.hasOverride) == pv.tier
  {
  }

  /** The three quality buttons, in display order, with their labels. */
  const QualityButtons: seq<(Tier, string)> := [(Low, "Fast"), (Medium, "Balanced"), (High, "Best")]

  /** Whether button `i` is drawn highlighted. */
  predicate Highlighted(activeTier: Tier, i: int)
    requires 0 <= i < |QualityButtons|
  {
    QualityButtons[i].0 == activeTier
  }

  /** Exactly one button is highlighted, whatever the active tier. */
  lemma ExactlyOneHighlighted(activeTier: Tier)
    ensures exists i :: 0 <= i < |QualityButtons| && Highlighted(activeTier, i)
    ensures forall i, j ::
      (0 <= i < |QualityButtons| && 0 <= j < |QualityButtons| &&
       Highlighted(activeTier, i) && Highlighted(activeTier, j)) ==> i == j
  {
    var i := Rank(activeTier);
    assert Highlighted(activeTier, i);
  }

  /** A quality button passes its tier's string, which the override setter always accepts (never null). */
  lemma QualityButtonSetsOverride(current: Option<Tier>, i: int)
    requires 0 <= i < |QualityButtons|
    ensures NextOverride(current, JsString(TierName(QualityButtons[i].0))) == Some(QualityButtons[i].0)
  {
  }

  /** The two state cells of the controls. */
  datatype Panel = Panel(isOpen: bool, hasInteracted: bool)

  const InitialPanel := Panel(false, false)

  /** The handlers: the toggle button (and the bubble's text), the close button, the bubble's dismiss button. */
  datatype PanelEvent = TogglePanel | ClosePanel | DismissHint

  function PanelStep(p: Panel, e: PanelEvent): (p': Panel)
    ensures e == TogglePanel ==> p'.isOpen == !p.isOpen && p'.hasInteracted
    ensures e == ClosePanel ==> p' == p.(isOpen := false)
    ensures e == DismissHint ==> p' == p.(hasInteracted := true)
  {
    match e
    case TogglePanel => Panel(!p.isOpen, true)
    case ClosePanel => p.(isOpen := false)
    case DismissHint => p.(hasInteracted := true)
  }

  function PanelRun(p: Panel, es: seq<PanelEvent>): Panel
    decreases |es|
  {
    if es == [] then p else PanelRun(PanelStep(p, es[0]), es[1..])
  }

  /** No handler ever resets `hasInteracted`. */
  lemma {:induction false} InteractionIsPermanent(p: Panel, es: seq<PanelEvent>)
    requires p.hasInteracted
    ensures PanelRun(p, es).hasInteracted
    decreases |es|
  {
    if es != [] {
      InteractionIsPermanent(PanelStep(p, es[0]), es[1..]);
    }
  }

  /** The hint bubble: panel closed, LOW tier, no interaction yet, no override. */
  predicate ShowHint(p: Panel, isLowTier: bool, hasOverride: bool)
    ensures ShowHint(p, isLowTier, hasOverride) ==> ShowPulse(p)
  {
    !p.isOpen && isLowTier && !p.hasInteracted && !hasOverride
  }

  /** The pulse ring on the toggle button: no interaction yet and panel closed. */
  predicate ShowPulse(p: Panel)
    ensures ShowPulse(p) <==> p == InitialPanel
  {
    !p.hasInteracted && !p.isOpen
  }

  /** After any sequence of handlers containing a toggle or a dismiss, the hint and the pulse never show again. */
  lemma {:induction false} HintGoneAfterInteraction(p: Panel, es: seq<PanelEvent>, k: int, isLowTier: bool, hasOverride: bool)
    requires 0 <= k < |es| && es[k] != ClosePanel
    ensures !ShowHint(PanelRun(p, es), isLowTier, hasOverride) && !ShowPulse(PanelRun(p, es))
    decreases |es|
  {
    if k == 0 {
      InteractionIsPermanent(PanelStep(p, es[0]), es[1..]);
    } else {
      HintGoneAfterInteraction(PanelStep(p, es[0]), es[1..], k - 1, isLowTier, hasOverride);
    }
  }

  /** The mounted controls component. */
  class PerformanceControls {
    var isOpen: bool
    var hasInteracted: bool

    constructor ()
      ensures State() == InitialPanel
    {
      isOpen := false;
      hasInteracted := false;
    }

    function State(): Panel
      reads this
    {
      Panel(isOpen, hasInteracted)
    }

    /** `togglePanel`: flips the panel and records the interaction. */
    method TogglePanel()
      modifies this
      ensures isOpen == !old(isOpen) && hasInteracted
      ensures State() == PanelStep(old(State()), PanelEvent.TogglePanel)
    {
      isOpen := !isOpen;
      hasInteracted := true;
    }

    /** The header's close button: closes the panel and changes nothing else. */
    method Close()
      modifies this
      ensures !isOpen && hasInteracted == old(hasInteracted)
      ensures State() == PanelStep(old(State()), ClosePanel)
    {
      isOpen := false;
    }

    /** The bubble's dismiss button: records the interaction without opening the panel. */
    method Dismiss()
      modifies this
      ensures hasInteracted && isOpen == old(isOpen)
      ensures State() == PanelStep(old(State()), DismissHint)
    {
      hasInteracted := true;
    }
  }
}
