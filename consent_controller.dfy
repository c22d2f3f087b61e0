/** The consent controller: page-load initialisation, the banner and
    "modify choices" visibility, the category panel, the two checkboxes, the
    click handlers and the save/apply steps, over one page's state. */
module ConsentController {
  import opened ConsentStore
  import opened ConsentSignals

  /** The clickable elements `init` may attach a listener to. */
  datatype Control =
    | AcceptAllButton    // #consent-accept-all
    | RejectAllButton    // #consent-reject-all
    | CustomizeButton    // #consent-customize
    | SaveButton         // #consent-save
    | ModifyLink         // #consent-modify

  /** Which of the elements the controller looks up exist in the page markup;
      every lookup tolerates a missing element. */
  datatype Markup = Markup(
    banner: bool,        // #consent-banner
    acceptAll: bool,
    rejectAll: bool,
    customize: bool,
    save: bool,
    modifyLink: bool,
    categories: bool,    // #consent-categories
    analyticsBox: bool,  // #consent-analytics
    marketingBox: bool)  // #consent-marketing

  function ControlExists(m: Markup, c: Control): bool
  {
    match c
    case AcceptAllButton => m.acceptAll
    case RejectAllButton => m.rejectAll
    case CustomizeButton => m.customize
    case SaveButton => m.save
    case ModifyLink => m.modifyLink
  }

  /** The controls the no-record branch of `init` wires: those present. */
  function Wirable(m: Markup): (r: set<Control>)
    ensures forall c :: c in r <==> ControlExists(m, c)
  {
    (if m.acceptAll then {AcceptAllButton} else {})
    + (if m.rejectAll then {RejectAllButton} else {})
    + (if m.customize then {CustomizeButton} else {})
    + (if m.save then {SaveButton} else {})
    + (if m.modifyLink then {ModifyLink} else {})
  }

  /** The value the save handler passes for a checkbox: its `checked` state,
      or false when the checkbox is missing. */
  function CheckedOrFalse(exists_: bool, checked: bool): (r: bool)
    ensures r ==> exists_ && checked
    ensures exists_ ==> r == checked
  {
    exists_ && checked
  }

  /** The three listeners that end in `saveConsent`. */
  predicate IsSaving(c: Control)
  {
    c == AcceptAllButton || c == RejectAllButton || c == SaveButton
  }

  /** The (analytics, marketing) pair a saving listener passes to
      `saveConsent`: both granted, both refused, or the checkbox states. */
  function SavedChoice(c: Control, m: Markup, analyticsChecked: bool, marketingChecked: bool): (r: (bool, bool))
    requires IsSaving(c)
    ensures c == AcceptAllButton ==> r == (true, true)
    ensures c == RejectAllButton ==> r == (false, false)
    ensures c == SaveButton ==> r.0 == (m.analyticsBox && analyticsChecked) && r.1 == (m.marketingBox && marketingChecked)
  {
    match c
    case AcceptAllButton => (true, true)
    case RejectAllButton => (false, false)
    case SaveButton => (CheckedOrFalse(m.analyticsBox, analyticsChecked), CheckedOrFalse(m.marketingBox, marketingChecked))
  }

  class ConsentManager {
    /** The browser storage slot under `ia_consent`, and whether writing it succeeds. */
    var slot: Slot
    const writable: bool
    /** The page configuration and markup, fixed for the page's lifetime. */
    const config: Config
    const markup: Markup
    /** `window.dataLayer`, the script elements of the document, and the
        `consentUpdated` events dispatched so far (their `detail`). */
    var dataLayer: seq<Entry>
    var head: seq<Script>
    var events: seq<ConsentRecord>
    /** The `is-visible` classes of the banner and of the modify link, the
        `is-expanded` class of the category panel, the two checkboxes. */
    var bannerVisible: bool
    var modifyVisible: bool
    var expanded: bool
    var analyticsChecked: bool
    var marketingChecked: bool
    /** The controls that carry a click listener, and whether `init` has run. */
    var wired: set<Control>
    var initialized: bool

    /** An element that is not in the markup never carries a class, no
        vendor script is in the document twice, and only existing controls
        carry listeners. */
    ghost predicate Valid()
      reads this
    {
      && (bannerVisible ==> markup.banner)
      && (modifyVisible ==> markup.modifyLink)
      && (expanded ==> markup.categories)
      && Unique(head)
      && wired <= Wirable(markup)
      && (!initialized ==> wired == {})
    }

    /** The page as served, before `init` runs: nothing visible, the panel
        collapsed, no vendor script and no listener; `window.dataLayer` may
        already hold entries pushed by other code. */
    constructor (slot: Slot, writable: bool, config: Config, markup: Markup,
                 dataLayer: seq<Entry>, analyticsChecked: bool, marketingChecked: bool)
      ensures Valid()
      ensures this.slot == slot && this.writable == writable
      ensures this.config == config && this.markup == markup
      ensures this.dataLayer == dataLayer && head == [] && events == []
      ensures !bannerVisible && !modifyVisible && !expanded
      ensures this.analyticsChecked == analyticsChecked && this.marketingChecked == marketingChecked
      ensures wired == {} && !initialized
    {
      this.slot := slot;
      this.writable := writable;
      this.config := config;
      this.markup := markup;
      this.dataLayer := dataLayer;
      head := [];
      events := [];
      bannerVisible := false;
      modifyVisible := false;
      expanded := false;
      this.analyticsChecked := analyticsChecked;
      this.marketingChecked := marketingChecked;
      wired := {};
      initialized := false;
    }

    /** `showBanner`: adds `is-visible` to the banner when it exists. */
    method ShowBanner()
      requires Valid()
      modifies this`bannerVisible
      ensures Valid()
      ensures bannerVisible == markup.banner
    {
      if markup.banner {
        bannerVisible := true;
      }
    }

    /** `hideBanner`: removes `is-visible` from the banner. */
    method HideBanner()
      requires Valid()
      modifies this`bannerVisible
      ensures Valid()
      ensures !bannerVisible
    {
      if markup.banner {
        bannerVisible := false;
      }
    }

    /** `showModifyLink`: adds `is-visible` to the modify link when it exists. */
    method ShowModifyLink()
      requires Valid()
      modifies this`modifyVisible
      ensures Valid()
      ensures modifyVisible == markup.modifyLink
    {
      if markup.modifyLink {
        modifyVisible := true;
      }
    }

    /** `hideModifyLink`: removes `is-visible` from the modify link. */
    method HideModifyLink()
      requires Valid()
      modifies this`modifyVisible
      ensures Valid()
      ensures !modifyVisible
    {
      if markup.modifyLink {
        modifyVisible := false;
      }
    }

    /** `applyConsent(rec)`: one Consent Mode update per granted optional
        category, each vendor script injected at most once, then one
        `consentUpdated` event carrying `rec`. */
    method Apply(rec: ConsentRecord)
      requires Valid()
      modifies this`dataLayer, this`head, this`events
      ensures Valid()
      ensures dataLayer == old(dataLayer) + ApplyPushes(old(head), rec, config)
      ensures head == ApplyScripts(old(head), rec, config)
      ensures events == old(events) + [rec]
    {
      var doc, pushes := head, [];
      if rec.analytics {
        pushes := pushes + [Consent(Update, AnalyticsGrant)];
        if config.gaId != "" && !Present(doc, Ga4Script) {
          doc := doc + [Script(Ga4Script, config.gaId)];
          pushes := pushes + [GtagJs, GtagConfig(config.gaId, true)];
        }
      }
      assert pushes == AnalyticsPushes(head, rec, config);
      assert doc == InjectIfAbsent(head, rec, config, Ga4Script);
      if rec.marketing {
        pushes := pushes + [Consent(Update, MarketingGrant)];
        if config.adsenseId != "" && !Present(doc, AdsenseScript) {
          doc := doc + [Script(AdsenseScript, config.adsenseId)];
        }
      }
      assert pushes == ApplyPushes(head, rec, config);
      assert doc == ApplyScripts(head, rec, config);
      dataLayer := dataLayer + pushes;
      head := doc;
      events := events + [rec];
    }

    /** `saveConsent(analytics, marketing)` at time `now`: build the record,
        try to store it (a failed write is swallowed), apply it, hide the
        banner and show the modify link. */
    method Save(analytics: bool, marketing: bool, now: Timestamp)
      requires Valid()
      modifies this`slot, this`dataLayer, this`head, this`events, this`bannerVisible, this`modifyVisible
      ensures Valid()
      ensures slot == Persist(old(slot), writable, NewRecord(analytics, marketing, now))
      ensures dataLayer == old(dataLayer) + ApplyPushes(old(head), NewRecord(analytics, marketing, now), config)
      ensures head == ApplyScripts(old(head), NewRecord(analytics, marketing, now), config)
      ensures events == old(events) + [NewRecord(analytics, marketing, now)]
      ensures !bannerVisible && modifyVisible == markup.modifyLink
      ensures writable ==> GetConsent(slot) == Some(ConsentRecord(ConsentVersion, true, analytics, marketing, now))
      ensures !writable ==> GetConsent(slot) == GetConsent(old(slot))
    {
      var rec := ConsentRecord(ConsentVersion, true, analytics, marketing, now);
      if writable {
        slot := Stored(rec);
      }
      Apply(rec);
      HideBanner();
      ShowModifyLink();
    }

    /** `init`: push the restrictive defaults; with a valid stored record,
        apply it, show the modify link and return before wiring any listener;
        otherwise show the banner and wire every control the page has. */
    method Init()
      requires Valid() && !initialized
      modifies this`dataLayer, this`head, this`events, this`bannerVisible, this`modifyVisible,
               this`wired, this`initialized
      ensures Valid() && initialized
      ensures GetConsent(slot).Some? ==>
        && dataLayer == old(dataLayer) + [Consent(Default, DefaultSettings)]
                        + ApplyPushes(old(head), GetConsent(slot).value, config)
        && head == ApplyScripts(old(head), GetConsent(slot).value, config)
        && events == old(events) + [GetConsent(slot).value]
        && bannerVisible == old(bannerVisible)
        && modifyVisible == markup.modifyLink
        && wired == {}
      ensures GetConsent(slot).None? ==>
        && dataLayer == old(dataLayer) + [Consent(Default, DefaultSettings)]
        && head == old(head) && events == old(events)
        && bannerVisible == markup.banner
        && modifyVisible == old(modifyVisible)
        && wired == Wirable(markup)
    {
      initialized := true;
      dataLayer := dataLayer + [Consent(Default, DefaultSettings)];
      var existing := GetConsent(slot);
      if existing.Some? {
        Apply(existing.value);
        ShowModifyLink();
        return;
      }
      ShowBanner();
      // each control present in the markup gets its click listener
      wired := Wirable(markup);
    }

    /** The accept-all listener. */
    method OnAcceptAll(now: Timestamp)
      requires Valid()
      modifies this`slot, this`dataLayer, this`head, this`events, this`bannerVisible, this`modifyVisible
      ensures Valid()
      ensures slot == Persist(old(slot), writable, NewRecord(true, true, now))
      ensures dataLayer == old(dataLayer) + ApplyPushes(old(head), NewRecord(true, true, now), config)
      ensures head == ApplyScripts(old(head), NewRecord(true, true, now), config)
      ensures events == old(events) + [NewRecord(true, true, now)]
      ensures !bannerVisible && modifyVisible == markup.modifyLink
    {
      Save(true, true, now);
    }

    /** The reject-all listener. */
    method OnRejectAll(now: Timestamp)
      requires Valid()
      modifies this`slot, this`dataLayer, this`head, this`events, this`bannerVisible, this`modifyVisible
      ensures Valid()
      ensures slot == Persist(old(slot), writable, NewRecord(false, false, now))
      ensures head == old(head) && dataLayer == old(dataLayer)
      ensures events == old(events) + [NewRecord(false, false, now)]
      ensures !bannerVisible && modifyVisible == markup.modifyLink
    {
      Save(false, false, now);
    }

    /** The customize listener: toggles `is-expanded` on the category panel. */
    method OnCustomize()
      requires Valid()
      modifies this`expanded
      ensures Valid()
      ensures expanded == (if markup.categories then !old(expanded) else old(expanded))
    {
      if markup.categories {
        expanded := !expanded;
      }
    }

    /** The save-preferences listener: saves the checkbox states, a missing
        checkbox counting as unchecked. */
    method OnSave(now: Timestamp)
      requires Valid()
      modifies this`slot, this`dataLayer, this`head, this`events, this`bannerVisible, this`modifyVisible
      ensures Valid()
      ensures var rec := NewRecord(CheckedOrFalse(markup.analyticsBox, analyticsChecked),
                                   CheckedOrFalse(markup.marketingBox, marketingChecked), now);
        && slot == Persist(old(slot), writable, rec)
        && dataLayer == old(dataLayer) + ApplyPushes(old(head), rec, config)
        && head == ApplyScripts(old(head), rec, config)
        && events == old(events) + [rec]
      ensures !bannerVisible && modifyVisible == markup.modifyLink
    {
      Save(CheckedOrFalse(markup.analyticsBox, analyticsChecked),
           CheckedOrFalse(markup.marketingBox, marketingChecked), now);
    }

    /** The modify-link listener: hide the link, show the banner, force the
        panel open and, only when the panel exists and a valid record is
        stored, copy its choices into the checkboxes that exist. */
    method OnModify()
      requires Valid()
      modifies this`modifyVisible, this`bannerVisible, this`expanded,
               this`analyticsChecked, this`marketingChecked
      ensures Valid()
      ensures !modifyVisible && bannerVisible == markup.banner
      ensures expanded == (markup.categories || old(expanded))
      ensures analyticsChecked ==
        if markup.categories && markup.analyticsBox && GetConsent(slot).Some?
        then GetConsent(slot).value.analytics else old(analyticsChecked)
      ensures marketingChecked ==
        if markup.categories && markup.marketingBox && GetConsent(slot).Some?
        then GetConsent(slot).value.marketing else old(marketingChecked)
    {
      HideModifyLink();
      ShowBanner();
      if markup.categories {
        expanded := true;
        var current := GetConsent(slot);
        if current.Some? {
          if markup.analyticsBox {
            analyticsChecked := current.value.analytics;
          }
          if markup.marketingBox {
            marketingChecked := current.value.marketing;
          }
        }
      }
    }

    /** The visitor ticks or unticks the checkboxes (browser input, not code
        of this component): each box present in the markup takes the given
        state; a missing box has no state to change. */
    method SetChecks(analytics: bool, marketing: bool)
      requires Valid()
      modifies this`analyticsChecked, this`marketingChecked
      ensures Valid()
      ensures analyticsChecked == (if markup.analyticsBox then analytics else old(analyticsChecked))
      ensures marketingChecked == (if markup.marketingBox then marketing else old(marketingChecked))
    {
      if markup.analyticsBox {
        analyticsChecked := analytics;
      }
      if markup.marketingBox {
        marketingChecked := marketing;
      }
    }

    /** A click on control `c` at time `now`: runs its listener when `init`
        attached one, and does nothing otherwise. */
    method Click(c: Control, now: Timestamp)
      requires Valid()
      modifies this`slot, this`dataLayer, this`head, this`events, this`bannerVisible,
               this`modifyVisible, this`expanded, this`analyticsChecked, this`marketingChecked
      ensures Valid()
      ensures c !in wired ==> unchanged(this)
      ensures c in wired && IsSaving(c) ==>
        var choice := SavedChoice(c, markup, old(analyticsChecked), old(marketingChecked));
        var rec := NewRecord(choice.0, choice.1, now);
        && slot == Persist(old(slot), writable, rec)
        && dataLayer == old(dataLayer) + ApplyPushes(old(head), rec, config)
        && head == ApplyScripts(old(head), rec, config)
        && events == old(events) + [rec]
        && !bannerVisible && modifyVisible == markup.modifyLink
        && expanded == old(expanded)
        && analyticsChecked == old(analyticsChecked) && marketingChecked == old(marketingChecked)
      ensures c in wired && c == CustomizeButton ==>
        && expanded == (if markup.categories then !old(expanded) else old(expanded))
        && slot == old(slot) && bannerVisible == old(bannerVisible) && modifyVisible == old(modifyVisible)
        && dataLayer == old(dataLayer) && head == old(head) && events == old(events)
        && analyticsChecked == old(analyticsChecked) && marketingChecked == old(marketingChecked)
      ensures c in wired && c == ModifyLink ==>
        && !modifyVisible && bannerVisible == markup.banner
        && expanded == (markup.categories || old(expanded))
        && slot == old(slot) && dataLayer == old(dataLayer) && head == old(head) && events == old(events)
        && analyticsChecked ==
             (if markup.categories && markup.analyticsBox && GetConsent(slot).Some?
              then GetConsent(slot).value.analytics else old(analyticsChecked))
        && marketingChecked ==
             (if markup.categories && markup.marketingBox && GetConsent(slot).Some?
              then GetConsent(slot).value.marketing else old(marketingChecked))
    {
      if c !in wired {
        return;
      }
      match c
      case AcceptAllButton =>
        assert SavedChoice(c, markup, analyticsChecked, marketingChecked) == (true, true);
        OnAcceptAll(now);
      case RejectAllButton =>
        assert SavedChoice(c, markup, analyticsChecked, marketingChecked) == (false, false);
        OnRejectAll(now);
      case CustomizeButton => OnCustomize();
      case SaveButton =>
        assert SavedChoice(c, markup, analyticsChecked, marketingChecked)
            == (CheckedOrFalse(markup.analyticsBox, analyticsChecked),
                CheckedOrFalse(markup.marketingBox, marketingChecked));
        OnSave(now);
      case ModifyLink => OnModify();
    }
  }
}
