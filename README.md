# Consent manager model

A Dafny model of the GDPR consent manager in `js/consent.js`. The manager keeps a single versioned
consent record (essential / analytics / marketing, plus a timestamp) under the browser storage key
`ia_consent`. On every page load, `init` first pushes restrictive Google Consent Mode v2 defaults
onto `window.dataLayer`. If it finds a record with the current schema version (1), it re-applies
that record and shows the "modify choices" link. Otherwise it shows the banner and wires the
banner's buttons. Applying a record does three things:

- it pushes one `consent`/`update` entry for each granted optional category;
- it injects the GA4 and AdSense loader scripts, each at most once and only when an id is configured;
- it dispatches a `consentUpdated` event that carries the record.

The project has four modules:

- `ConsentStore` (`consent_store.dfy`): the storage slot and the pure reads `getConsent` and
  `hasConsent`. The slot is `Absent | Malformed | Stored(record)`. `Malformed` covers a value
  that does not parse, JSON that is not an object, and storage that throws on access. All three
  read as "no consent".
- `ConsentSignals` (`consent_signals.dfy`): the `dataLayer` entries, the script elements of the
  document, and what one `applyConsent` adds to each. These are specification functions with
  lemmas: idempotence, at most one script of each kind over any number of calls, and no update
  and no script for a denied category.
- `ConsentController` (`consent_controller.dfy`): the class `ConsentManager`. It has one field
  for each piece of page state: the storage slot, whether storage writes succeed, `dataLayer`,
  the document's scripts, the dispatched events, the `is-visible`/`is-expanded` classes, the two
  checkboxes and the controls that carry a click listener. It has one method for each function
  in the source, plus `Click`, which runs a listener only if `init` attached one, and
  `SetChecks`, the visitor ticking or unticking the checkboxes that the save listener reads.
- `ConsentScenarios` (`consent_scenarios.dfy`): whole page loads built from those methods.

Three behaviours of the code the model keeps:

- The code wires five controls: accept-all, reject-all, customize, save and the modify link.
- `init` returns (js/consent.js:147) before wiring anything. So on a page load that finds a
  valid record, the modify link is visible but clicking it does nothing. The "reopen" state is
  reachable only on a page load that started without a record.
- The modify-link listener pre-fills the checkboxes only when the category panel
  `#consent-categories` exists. The pre-fill is nested inside that check.

## Model

| member | source | states |
|---|---|---|
| ConsentStore.GetConsent | js/consent.js:18-28 | a record is returned exactly when the slot holds a parsed record whose version is 1, and then it is returned unchanged; empty, malformed, unreadable or wrong-version slots give no consent |
| ConsentStore.HasConsent | js/consent.js:218-222 | `hasConsent(c)` is true exactly when the slot holds a version-1 record whose flag for `c` is set; false whenever there is no valid record |
| ConsentStore.SaveThenRead | js/consent.js:31-40 | a successful write of `saveConsent(a, m)`'s record reads back as version 1, essential true, analytics `a`, marketing `m` |
| ConsentStore.FailedSaveKeepsPrevious | js/consent.js:39-43 | a write that throws is swallowed and leaves what a read returns unchanged |
| ConsentStore.VersionMismatchIsNoConsent | js/consent.js:23 | a record of any other version reads as no consent, and `hasConsent` is false for every category |
| ConsentStore.HasConsentAfterSave | js/consent.js:31-40 | after a successful save, `hasConsent` answers with the choice made, and `essential` is always granted |
| ConsentSignals.DefaultsDenyOptional | js/consent.js:134-141 | the page-load defaults deny exactly the analytics and ad storage types and grant exactly functionality and security storage |
| ConsentSignals.PresentIffCounted | js/consent.js:61 | the `getElementById` lookup finds a script exactly when the document holds at least one with that id |
| ConsentSignals.InjectIfAbsentFacts | js/consent.js:61-66 | one guarded injection only appends, adds the script only when granted, configured and absent, and touches no other id |
| ConsentSignals.ApplyScripts | js/consent.js:55-88 | `applyConsent` only appends scripts; afterwards a loader is present exactly when it was before or its category is granted with a configured id; an already present loader is not added again; a document without duplicates keeps none |
| ConsentSignals.ApplyPushes | js/consent.js:50-88 | the entries pushed grant a storage type exactly when its optional category is granted in the record; all are updates; the GA4 `config` entry is pushed exactly when this call injects GA4; a record granting nothing pushes nothing |
| ConsentSignals.ApplyScriptsIdempotent | js/consent.js:55-88 | applying the same record twice leaves the same scripts as applying it once |
| ConsentSignals.AtMostOneScriptEach | js/consent.js:55-88 | over any sequence of applied records, scripts are never removed, each loader occurs at most once, and a loader is present exactly when it was before or some applied record granted its category with an id configured |
| ConsentController.Wirable | js/consent.js:152-212 | the controls the no-record branch of `init` wires: a control gets a listener exactly when its element is in the markup |
| ConsentController.ConsentManager.constructor | js/consent.js:11-15 | the page before `init`: nothing visible, no script, no listener, the slot, configuration and markup as given |
| ConsentController.ConsentManager.ShowBanner | js/consent.js:95-103 | the banner is visible afterwards exactly when it exists in the markup |
| ConsentController.ConsentManager.HideBanner | js/consent.js:106-111 | the banner is not visible afterwards |
| ConsentController.ConsentManager.ShowModifyLink | js/consent.js:114-119 | the modify link is visible afterwards exactly when it exists |
| ConsentController.ConsentManager.HideModifyLink | js/consent.js:122-127 | the modify link is not visible afterwards |
| ConsentController.ConsentManager.Apply | js/consent.js:50-92 | `dataLayer` grows by exactly the pushes of `ApplyPushes`, the scripts become `ApplyScripts` of the old ones (so no duplicates), and exactly one `consentUpdated` event carrying the record is dispatched |
| ConsentController.ConsentManager.Save | js/consent.js:31-47 | the record (version 1, essential true, the given flags) replaces the slot when storage is writable and leaves it unchanged otherwise; the record is applied; afterwards the banner is hidden and the link is visible whether or not the write worked |
| ConsentController.ConsentManager.Init | js/consent.js:130-150 | one `consent`/`default` entry is pushed first; with a valid record it is applied, the link is shown, the banner stays as it was and no listener is wired; without one nothing is applied, the banner is shown and every existing control is wired |
| ConsentController.ConsentManager.OnAcceptAll | js/consent.js:153-158 | the accept-all listener has the effect of `saveConsent(true, true)` |
| ConsentController.ConsentManager.OnRejectAll | js/consent.js:161-166 | the reject-all listener has the effect of `saveConsent(false, false)`: no entry pushed, no script injected, one event |
| ConsentController.ConsentManager.OnCustomize | js/consent.js:169-177 | the customize listener toggles `is-expanded` when the panel exists |
| ConsentController.ConsentManager.OnSave | js/consent.js:180-190 | the save listener saves the checkbox states, a missing checkbox counting as false |
| ConsentController.ConsentManager.OnModify | js/consent.js:193-212 | the modify listener hides the link, shows the banner and forces the panel expanded; only when the panel exists and a valid record is stored are the existing checkboxes set from it |
| ConsentController.ConsentManager.Click | js/consent.js:152-212 | a click on a control without a listener changes nothing; on a wired control it has exactly its listener's effect |
| ConsentScenarios.FirstVisitAcceptAll | js/consent.js:143-158 | on a first visit the banner is visible and the link hidden; accept-all stores (true, true), hides the banner, shows the link and loads each vendor script exactly once |
| ConsentScenarios.ReturnVisitClickModify | js/consent.js:143-148 | a load that finds a valid record shows the link and not the banner and wires nothing, so a click on the link leaves the banner hidden |
| ConsentScenarios.AcceptThenReopen | js/consent.js:193-212 | after accept-all, the modify link hides itself, shows the banner, expands the panel and pre-fills both checkboxes as checked |
| ConsentScenarios.AcceptThenReject | js/consent.js:55-88 | after accept-all then reject-all, `hasConsent` is false for both categories, but the loaded vendor scripts stay in the document (no retraction) |
| ConsentScenarios.ReopenUntickMarketingSave | js/consent.js:180-212 | after accept-all, reopening through the modify link, unticking marketing and saving stores (analytics true, marketing false), hides the banner and shows the link, while the AdSense script stays loaded |
| ConsentScenarios.SaveWithoutStorage | js/consent.js:39-47 | with storage that throws on write, saving still hides the banner, shows the link and dispatches the event, and a read still finds no consent |
| ConsentScenarios.ReloadAfterAcceptAll | js/consent.js:143-148 | reloading after accept-all never shows the banner, shows the link at once and loads each vendor script exactly once |
| ConsentScenarios.CustomizeTwice | js/consent.js:169-177 | two clicks on customize restore the panel's state |

## Left out

- Real JSON serialisation and parsing, and `localStorage` itself. The slot is modelled by its
  three observable outcomes. A write either succeeds or throws, as fixed by the `writable` flag.
- A throwing storage read is folded into `Malformed`. The model does not separately capture
  storage that fails reads but accepts writes.
- JavaScript truthiness: the record fields and the checkbox states are booleans. So `!!` is the
  identity here, and a stored record whose flags are not booleans is not modelled.
- ConsentStore.HasConsent: it takes only the three categories. In the code any string key is
  accepted, and `hasConsent('version')` returns true when a valid record exists. `essential` is
  true only for records this code wrote; a version-1 record written by other code could hold
  `essential: false`.
- Timestamps: `new Date().toISOString()` is the `now` parameter. `gtag('js', new Date())` is
  the entry `GtagJs` without its date.
- Script URLs, the `async`/`crossOrigin` attributes and the network loading of the Google
  scripts. A script element is modelled by its id and the configured id it loads for.
- A page whose markup already contains an element with id `ga4-script` or `adsense-script`:
  the document starts with no vendor script.
- The constructor starts every element without its `is-visible`/`is-expanded` class, as the
  markup is served.
- Focus management (`firstBtn.focus()`), `preventDefault`, and the choice between
  `DOMContentLoaded` and running `init` at once (js/consent.js:226-230).
- ConsentController.ConsentManager.Init: it requires that `init` has not run before. The
  source calls it once per page load; a second call would attach duplicate listeners, which is
  not modelled.
- Checkbox input is modelled only as `SetChecks`, which sets the boxes present in the markup;
  the browser's click and change events on the boxes are not modelled.
- js/main.js (menu, accordion, smooth scroll, resize handling, the tracking stub) is not part
  of this model.
