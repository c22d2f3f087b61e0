/** The side effects of applying a consent record: the Google Consent Mode v2
    entries pushed onto `window.dataLayer` and the vendor script tags added to
    the document (one GA4 loader, one AdSense loader, each at most once). */
module ConsentSignals {
  import opened ConsentStore

  /** The Consent Mode storage types the page signals about. */
  datatype StorageType =
    | AnalyticsStorage
    | AdStorage
    | AdPersonalization
    | AdUserData
    | FunctionalityStorage
    | SecurityStorage

  datatype Grant = Granted | Denied

  /** The second argument of `gtag('consent', …)`. */
  datatype ConsentCommand = Default | Update

  /** One `arguments` object that `gtag` pushes onto `window.dataLayer`. */
  datatype Entry =
    | Consent(command: ConsentCommand, settings: seq<(StorageType, Grant)>)
    | GtagJs                                          // gtag('js', new Date())
    | GtagConfig(measurementId: string, sendPageView: bool)

  /** The element ids of the two vendor loaders. */
  datatype ScriptId = Ga4Script | AdsenseScript

  /** A script element in the document, with the configured id it loads for. */
  datatype Script = Script(id: ScriptId, clientId: string)

  /** The `data-ga-id` and `data-adsense-id` attributes of the document root;
      a missing attribute reads as "", and "" is falsy, so it means "not set". */
  datatype Config = Config(gaId: string, adsenseId: string)

  /** The restrictive defaults signalled once per page load. */
  const DefaultSettings: seq<(StorageType, Grant)> :=
    [(AnalyticsStorage, Denied), (AdStorage, Denied), (AdPersonalization, Denied),
     (AdUserData, Denied), (FunctionalityStorage, Granted), (SecurityStorage, Granted)]

  /** The defaults deny exactly the storage types of the optional
      categories and grant exactly those of the essential one. */
  lemma DefaultsDenyOptional(t: StorageType)
    ensures (t, Denied) in DefaultSettings <==> CategoryOf(t) != Essential
    ensures (t, Granted) in DefaultSettings <==> CategoryOf(t) == Essential
  {
  }

  const AnalyticsGrant: seq<(StorageType, Grant)> := [(AnalyticsStorage, Granted)]

  const MarketingGrant: seq<(StorageType, Grant)> :=
    [(AdStorage, Granted), (AdPersonalization, Granted), (AdUserData, Granted)]

  /** The consent category a storage type belongs to. */
  function CategoryOf(t: StorageType): Category
  {
    match t
    case AnalyticsStorage => Analytics
    case AdStorage => Marketing
    case AdPersonalization => Marketing
    case AdUserData => Marketing
    case FunctionalityStorage => Essential
    case SecurityStorage => Essential
  }

  /** The category that lets a vendor script load, and its configured id. */
  function ScriptCategory(id: ScriptId): Category
  {
    match id
    case Ga4Script => Analytics
    case AdsenseScript => Marketing
  }

  function ConfiguredId(cfg: Config, id: ScriptId): string
  {
    match id
    case Ga4Script => cfg.gaId
    case AdsenseScript => cfg.adsenseId
  }

  /** `document.getElementById(id)` finds a script with that id. */
  predicate Present(doc: seq<Script>, id: ScriptId)
  {
    exists i :: 0 <= i < |doc| && doc[i].id == id
  }

  /** How many scripts with that id the document holds. */
  function Count(doc: seq<Script>, id: ScriptId): nat
  {
    if doc == [] then 0
    else Count(doc[..|doc| - 1], id) + (if doc[|doc| - 1].id == id then 1 else 0)
  }

  /** No vendor script occurs twice. */
  predicate Unique(doc: seq<Script>)
  {
    forall id :: Count(doc, id) <= 1
  }

  lemma CountAppend(doc: seq<Script>, s: Script, id: ScriptId)
    ensures Count(doc + [s], id) == Count(doc, id) + (if s.id == id then 1 else 0)
  {
  }

  /** The lookup by id and the count agree. */
  lemma {:induction false} PresentIffCounted(doc: seq<Script>, id: ScriptId)
    ensures Present(doc, id) <==> Count(doc, id) > 0
  {
    if doc != [] {
      var init := doc[..|doc| - 1];
      assert doc == init + [doc[|doc| - 1]];
      PresentIffCounted(init, id);
      if Present(init, id) {
        var i :| 0 <= i < |init| && init[i].id == id;
        assert doc[i].id == id;
      }
      if Present(doc, id) && doc[|doc| - 1].id != id {
        var i :| 0 <= i < |doc| && doc[i].id == id;
        assert init[i].id == id;
      }
    }
  }

  /** One guarded injection: the script is added only when its category is
      granted, an id is configured and no element with that id exists yet. */
  function InjectIfAbsent(doc: seq<Script>, rec: ConsentRecord, cfg: Config, id: ScriptId): seq<Script>
  {
    if Flag(rec, ScriptCategory(id)) && ConfiguredId(cfg, id) != "" && !Present(doc, id)
    then doc + [Script(id, ConfiguredId(cfg, id))]
    else doc
  }

  lemma InjectIfAbsentFacts(doc: seq<Script>, rec: ConsentRecord, cfg: Config, id: ScriptId)
    ensures var r := InjectIfAbsent(doc, rec, cfg, id);
      && doc <= r
      && (Present(r, id) <==> Present(doc, id) || (Flag(rec, ScriptCategory(id)) && ConfiguredId(cfg, id) != ""))
      && (forall other :: other != id ==> (Present(r, other) <==> Present(doc, other)))
      && (forall other :: other != id ==> Count(r, other) == Count(doc, other))
      && Count(r, id) == (if Present(doc, id) then Count(doc, id) else if Present(r, id) then 1 else 0)
  {
    var r := InjectIfAbsent(doc, rec, cfg, id);
    PresentIffCounted(doc, id);
    PresentIffCounted(r, id);
    if r != doc {
      var s := Script(id, ConfiguredId(cfg, id));
      assert r == doc + [s];
      assert r[|doc|].id == id;
      forall other | other != id
        ensures Count(r, other) == Count(doc, other)
        ensures Present(r, other) <==> Present(doc, other)
      {
        CountAppend(doc, s, other);
        PresentIffCounted(doc, other);
        PresentIffCounted(r, other);
      }
      CountAppend(doc, s, id);
    }
  }

  /** The script tags one `applyConsent(rec)` leaves in the document: scripts
      are only ever appended, a loader is present afterwards exactly when it
      was before or its category is granted with an id configured, and a
      document without duplicates stays without duplicates. */
  function ApplyScripts(doc: seq<Script>, rec: ConsentRecord, cfg: Config): (r: seq<Script>)
    ensures doc <= r
    ensures forall id :: Present(r, id) <==>
      Present(doc, id) || (Flag(rec, ScriptCategory(id)) && ConfiguredId(cfg, id) != "")
    ensures forall id :: Present(doc, id) ==> Count(r, id) == Count(doc, id)
    ensures Unique(doc) ==> Unique(r)
  {
    var mid := InjectIfAbsent(doc, rec, cfg, Ga4Script);
    InjectIfAbsentFacts(doc, rec, cfg, Ga4Script);
    InjectIfAbsentFacts(mid, rec, cfg, AdsenseScript);
    var r := InjectIfAbsent(mid, rec, cfg, AdsenseScript);
    r
  }

  /** A Consent Mode update that grants storage type `t`. */
  predicate GrantsUpdate(e: Entry, t: StorageType)
  {
    e.Consent? && e.command == Update && (t, Granted) in e.settings
  }

  /** Some entry of `entries` is an update granting `t`. */
  predicate UpdateGrants(entries: seq<Entry>, t: StorageType)
  {
    exists e :: e in entries && GrantsUpdate(e, t)
  }

  /** The entries the analytics branch of `applyConsent` pushes: the
      analytics update, then the GA4 bootstrap when this call injects GA4. */
  function AnalyticsPushes(doc: seq<Script>, rec: ConsentRecord, cfg: Config): seq<Entry>
  {
    if rec.analytics then
      [Consent(Update, AnalyticsGrant)]
      + (if cfg.gaId != "" && !Present(doc, Ga4Script) then [GtagJs, GtagConfig(cfg.gaId, true)] else [])
    else []
  }

  /** The entry the marketing branch of `applyConsent` pushes. */
  function MarketingPushes(rec: ConsentRecord): seq<Entry>
  {
    if rec.marketing then [Consent(Update, MarketingGrant)] else []
  }

  /** The entries one `applyConsent(rec)` pushes onto `window.dataLayer`, in
      order: an update is pushed for a storage type exactly when the record
      grants its optional category, every consent entry is an update, and the
      GA4 `config` entry goes out exactly when this call injects GA4. */
  function ApplyPushes(doc: seq<Script>, rec: ConsentRecord, cfg: Config): (r: seq<Entry>)
    ensures forall t :: UpdateGrants(r, t) <==>
      CategoryOf(t) != Essential && Flag(rec, CategoryOf(t))
    ensures forall e :: e in r && e.Consent? ==> e.command == Update
    ensures GtagConfig(cfg.gaId, true) in r <==>
      rec.analytics && cfg.gaId != "" && !Present(doc, Ga4Script)
    ensures !rec.analytics && !rec.marketing ==> r == []
  {
    var r := AnalyticsPushes(doc, rec, cfg) + MarketingPushes(rec);
    assert forall t :: UpdateGrants(r, t) <==> CategoryOf(t) != Essential && Flag(rec, CategoryOf(t)) by {
      forall t ensures UpdateGrants(r, t) <==> CategoryOf(t) != Essential && Flag(rec, CategoryOf(t)) {
        if CategoryOf(t) == Analytics && rec.analytics {
          assert r[0] in r && GrantsUpdate(r[0], t);
        } else if CategoryOf(t) == Marketing && rec.marketing {
          assert r[|r| - 1] in r && GrantsUpdate(r[|r| - 1], t);
        }
      }
    }
    r
  }

  /** The document after applying each record of `recs` in turn. */
  function ApplyAll(doc: seq<Script>, recs: seq<ConsentRecord>, cfg: Config): seq<Script>
    decreases recs
  {
    if recs == [] then doc
    else ApplyAll(ApplyScripts(doc, recs[0], cfg), recs[1..], cfg)
  }

  /** Applying the same record twice injects nothing the first call did not. */
  lemma ApplyScriptsIdempotent(doc: seq<Script>, rec: ConsentRecord, cfg: Config)
    ensures ApplyScripts(ApplyScripts(doc, rec, cfg), rec, cfg) == ApplyScripts(doc, rec, cfg)
  {
  }

  /** Any number of applications, with any records, leaves at most one of each
      vendor script, never removes one, and a loader ends up present exactly
      when it was there before or some applied record granted its category
      while an id was configured. */
  lemma {:induction false} AtMostOneScriptEach(doc: seq<Script>, recs: seq<ConsentRecord>, cfg: Config)
    requires Unique(doc)
    decreases recs
    ensures doc <= ApplyAll(doc, recs, cfg)
    ensures Unique(ApplyAll(doc, recs, cfg))
    ensures forall id :: Present(ApplyAll(doc, recs, cfg), id) <==>
      Present(doc, id)
      || (ConfiguredId(cfg, id) != "" && exists k :: 0 <= k < |recs| && Flag(recs[k], ScriptCategory(id)))
  {
    if recs != [] {
      var next := ApplyScripts(doc, recs[0], cfg);
      AtMostOneScriptEach(next, recs[1..], cfg);
      forall id
        ensures Present(ApplyAll(doc, recs, cfg), id) <==>
          Present(doc, id)
          || (ConfiguredId(cfg, id) != "" && exists k :: 0 <= k < |recs| && Flag(recs[k], ScriptCategory(id)))
      {
        if ConfiguredId(cfg, id) != "" && exists k :: 1 <= k < |recs| && Flag(recs[k], ScriptCategory(id)) {
          var k :| 1 <= k < |recs| && Flag(recs[k], ScriptCategory(id));
          assert recs[1..][k - 1] == recs[k];
        }
        if ConfiguredId(cfg, id) != "" && exists k :: 0 <= k < |recs[1..]| && Flag(recs[1..][k], ScriptCategory(id)) {
          var k :| 0 <= k < |recs[1..]| && Flag(recs[1..][k], ScriptCategory(id));
          assert recs[k + 1] == recs[1..][k];
        }
      }
    }
  }
}
