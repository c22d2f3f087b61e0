/** Whole page-load scenarios over the controller: what a visitor sees and
    what the page holds after a sequence of loads and clicks. */
module ConsentScenarios {
  import opened ConsentStore
  import opened ConsentSignals
  import opened ConsentController

  /** A page whose markup has every element the controller looks up. */
  const FullMarkup: Markup := Markup(true, true, true, true, true, true, true, true, true)

  /** First visit with storage working and both ids configured: the banner is
      shown and the link hidden; accept-all stores {analytics, marketing},
      hides the banner, shows the link and loads each vendor script once. */
  method FirstVisitAcceptAll(config: Config, now: Timestamp)
    returns (bannerAtLoad: bool, linkAtLoad: bool, bannerAfter: bool, linkAfter: bool,
             stored: Option<ConsentRecord>, scripts: seq<Script>)
    requires config.gaId != "" && config.adsenseId != ""
    ensures bannerAtLoad && !linkAtLoad
    ensures !bannerAfter && linkAfter
    ensures stored == Some(ConsentRecord(ConsentVersion, true, true, true, now))
    ensures scripts == [Script(Ga4Script, config.gaId), Script(AdsenseScript, config.adsenseId)]
  {
    var page := new ConsentManager(Absent, true, config, FullMarkup, [], false, false);
    page.Init();
    bannerAtLoad, linkAtLoad := page.bannerVisible, page.modifyVisible;
    page.Click(AcceptAllButton, now);
    bannerAfter, linkAfter := page.bannerVisible, page.modifyVisible;
    stored := GetConsent(page.slot);
    scripts := page.head;
  }

  /** A later visit that finds a valid record: the banner stays hidden, the
      link is shown and the granted scripts load; but `init` returned before
      wiring any listener, so a click on the visible link changes nothing. */
  method ReturnVisitClickModify(config: Config, analytics: bool, marketing: bool, earlier: Timestamp, now: Timestamp)
    returns (bannerAtLoad: bool, linkAtLoad: bool, listeners: set<Control>,
             bannerAfterClick: bool, linkAfterClick: bool, events: seq<ConsentRecord>)
    ensures !bannerAtLoad && linkAtLoad && listeners == {}
    ensures !bannerAfterClick && linkAfterClick
    ensures events == [NewRecord(analytics, marketing, earlier)]
  {
    var rec := NewRecord(analytics, marketing, earlier);
    var page := new ConsentManager(Stored(rec), true, config, FullMarkup, [], false, false);
    page.Init();
    bannerAtLoad, linkAtLoad, listeners := page.bannerVisible, page.modifyVisible, page.wired;
    page.Click(ModifyLink, now);
    bannerAfterClick, linkAfterClick := page.bannerVisible, page.modifyVisible;
    events := page.events;
  }

  /** First visit: after accept-all, the modify link reopens the banner
      with the category panel expanded and both checkboxes pre-filled. */
  method AcceptThenReopen(config: Config, now: Timestamp)
    returns (bannerAfterReopen: bool, linkAfterReopen: bool, expandedAfterReopen: bool,
             prefilled: (bool, bool))
    ensures bannerAfterReopen && !linkAfterReopen && expandedAfterReopen
    ensures prefilled == (true, true)
  {
    var page := new ConsentManager(Absent, true, config, FullMarkup, [], false, false);
    page.Init();
    page.Click(AcceptAllButton, now);
    assert GetConsent(page.slot) == Some(NewRecord(true, true, now));
    page.Click(ModifyLink, now);
    bannerAfterReopen, linkAfterReopen := page.bannerVisible, page.modifyVisible;
    expandedAfterReopen := page.expanded;
    prefilled := (page.analyticsChecked, page.marketingChecked);
  }

  /** First visit: accept all, then reject all (through a reopened banner):
      the new record grants nothing, yet the vendor scripts already loaded
      stay in the document; scripts are never retracted. */
  method AcceptThenReject(config: Config, t1: Timestamp, t2: Timestamp)
    returns (analyticsNow: bool, marketingNow: bool, scripts: seq<Script>)
    requires config.gaId != "" && config.adsenseId != ""
    ensures !analyticsNow && !marketingNow
    ensures scripts == [Script(Ga4Script, config.gaId), Script(AdsenseScript, config.adsenseId)]
  {
    var page := new ConsentManager(Absent, true, config, FullMarkup, [], false, false);
    page.Init();
    page.Click(AcceptAllButton, t1);
    ghost var loaded := page.head;
    assert loaded == [Script(Ga4Script, config.gaId), Script(AdsenseScript, config.adsenseId)];
    assert RejectAllButton in page.wired;
    page.Click(RejectAllButton, t2);
    assert page.head == loaded;
    assert page.slot == Stored(NewRecord(false, false, t2));
    analyticsNow, marketingNow := HasConsent(page.slot, Analytics), HasConsent(page.slot, Marketing);
    scripts := page.head;
  }

  /** First visit: accept all, reopen through the modify link, untick
      marketing and save: the stored record now grants analytics only, while
      the AdSense script loaded by the first choice stays in the document. */
  method ReopenUntickMarketingSave(config: Config, t1: Timestamp, t2: Timestamp)
    returns (stored: Option<ConsentRecord>, scripts: seq<Script>, bannerAfter: bool, linkAfter: bool)
    requires config.gaId != "" && config.adsenseId != ""
    ensures stored == Some(NewRecord(true, false, t2))
    ensures scripts == [Script(Ga4Script, config.gaId), Script(AdsenseScript, config.adsenseId)]
    ensures !bannerAfter && linkAfter
  {
    var page := new ConsentManager(Absent, true, config, FullMarkup, [], false, false);
    page.Init();
    page.Click(AcceptAllButton, t1);
    ghost var loaded := page.head;
    assert loaded == [Script(Ga4Script, config.gaId), Script(AdsenseScript, config.adsenseId)];
    page.Click(ModifyLink, t1);
    assert (page.analyticsChecked, page.marketingChecked) == (true, true);
    page.SetChecks(true, false);
    page.Click(SaveButton, t2);
    assert page.head == loaded;
    stored := GetConsent(page.slot);
    scripts := page.head;
    bannerAfter, linkAfter := page.bannerVisible, page.modifyVisible;
  }

  /** Storage that throws on write: the choice is applied for this page
      load only; the banner still hides and the link still shows, and a
      read still finds no consent. */
  method SaveWithoutStorage(config: Config, analytics: bool, marketing: bool, now: Timestamp)
    returns (bannerAfter: bool, linkAfter: bool, stored: Option<ConsentRecord>, events: seq<ConsentRecord>)
    ensures !bannerAfter && linkAfter
    ensures stored == None
    ensures events == [NewRecord(analytics, marketing, now)]
  {
    var page := new ConsentManager(Absent, false, config, FullMarkup, [], analytics, marketing);
    page.Init();
    page.Click(SaveButton, now);
    bannerAfter, linkAfter := page.bannerVisible, page.modifyVisible;
    stored := GetConsent(page.slot);
    events := page.events;
  }

  /** Accept all on a first visit, then reload: the second page load finds
      the stored record, never shows the banner, shows the link at once and
      loads each vendor script exactly once. */
  method ReloadAfterAcceptAll(config: Config, now: Timestamp)
    returns (bannerAtReload: bool, linkAtReload: bool, scripts: seq<Script>)
    requires config.gaId != "" && config.adsenseId != ""
    ensures !bannerAtReload && linkAtReload
    ensures scripts == [Script(Ga4Script, config.gaId), Script(AdsenseScript, config.adsenseId)]
  {
    var first := new ConsentManager(Absent, true, config, FullMarkup, [], false, false);
    first.Init();
    first.Click(AcceptAllButton, now);
    var second := new ConsentManager(first.slot, true, config, FullMarkup, [], false, false);
    second.Init();
    bannerAtReload, linkAtReload := second.bannerVisible, second.modifyVisible;
    scripts := second.head;
  }

  /** Two clicks on the customize button leave the category panel as it was. */
  method CustomizeTwice(config: Config) returns (before: bool, between: bool, after: bool)
    ensures between == !before && after == before
  {
    var page := new ConsentManager(Absent, true, config, FullMarkup, [], false, false);
    page.Init();
    before := page.expanded;
    page.Click(CustomizeButton, "");
    between := page.expanded;
    page.Click(CustomizeButton, "");
    after := page.expanded;
  }
}
