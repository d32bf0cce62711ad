/**
 The reconciliation of one search (`runAddressSearch`): the `resolved`,
 `settled` and `hadError` variables, the abort flag of the search's signal,
 and the `done` / `onSettle` callbacks that decide which message is shown and
 when the button comes back. The page elements a search touches are plain
 fields of `Ui`.
 */
module Search {
  import opened Common
  import opened Text
  import opened Providers

  /** The status line: its text and whether it carries the `error` class. */
  datatype Message = Message(text: string, isError: bool)

  const Cleared: Message := Message("", false)
  const Searching: Message := Message("Searching\U{2026}", false)
  const NotFound: Message := Message("Address not found. Please use the full address.", true)
  const SearchFailed: Message := Message("Search failed. Please use the full address.", true)

  /** The zoom level `showResult` centres the map at. */
  const ResultZoom: int := 16

  /** The address marker and the HTML of its popup. */
  datatype Marker = Marker(at: LatLng, popup: string)

  datatype View = View(center: LatLng, zoom: int)

  /**
   The page as the search code sees it: the raw text of the input field, the
   status message, whether the search button is disabled, the address marker
   and the map view.
   */
  datatype Ui = Ui(input: string, message: Message, buttonDisabled: bool, marker: Option<Marker>, view: Option<View>)

  /** The closure state of one `runAddressSearch(query)` call and the abort flag of its signal. */
  datatype SearchRun = SearchRun(query: string, aborted: bool, resolved: bool, settled: nat, hadError: bool,
                                 reported: set<Provider>)

  /** One search together with the page it acts on. */
  datatype Scene = Scene(ui: Ui, run: SearchRun)

  const PopupOpen: string := "<div class=\"popup-title\">"
  const PopupClose: string := "</div>"

  /** The text the popup is about: `displayName || query`. */
  function PopupLabel(displayName: string, query: string): string {
    if displayName != "" then displayName else query
  }

  /** The popup markup: the display name, or the query when it is empty, with every `<` escaped. */
  function PopupHtml(displayName: string, query: string): (html: string)
    ensures |html| >= |PopupOpen| + |PopupClose|
    ensures html[|PopupOpen|..|html| - |PopupClose|] == EscapeLt(PopupLabel(displayName, query))
    ensures html[..|PopupOpen|] == PopupOpen && html[|html| - |PopupClose|..] == PopupClose
    ensures forall k :: |PopupOpen| <= k < |html| - |PopupClose| ==> html[k] != '<'
  {
    var text := EscapeLt(PopupLabel(displayName, query));
    var html := PopupOpen + text + PopupClose;
    assert forall k :: |PopupOpen| <= k < |html| - |PopupClose| ==> html[k] == text[k - |PopupOpen|];
    html
  }

  /**
   Without `&` in `displayName || query`, the popup shows that label exactly
   as given: the display name when there is one, the query otherwise.
   */
  lemma PopupShowsLabel(displayName: string, query: string)
    requires var shown := PopupLabel(displayName, query); forall k :: 0 <= k < |shown| ==> shown[k] != '&'
    ensures var html := PopupHtml(displayName, query);
      DecodeLt(html[|PopupOpen|..|html| - |PopupClose|]) == (if displayName != "" then displayName else query)
  {
    DecodeEscape(PopupLabel(displayName, query));
  }

  /** The marker `showResult` places for a hit. */
  function MarkerFor(hit: Hit, query: string): Marker {
    Marker(hit.at, PopupHtml(hit.caption, query))
  }

  /**
   `showResult`: replace the marker with one at the hit, centre the view on it
   and clear the status message. Input field and button are left alone.
   */
  function ShowResult(ui: Ui, hit: Hit, query: string): (r: Ui)
    ensures r.marker.Some? && r.marker.value.at == hit.at
    ensures r.marker == Some(Marker(hit.at, PopupHtml(hit.caption, query)))
    ensures r.view == Some(View(hit.at, ResultZoom))
    ensures r.message == Cleared
    ensures r.input == ui.input && r.buttonDisabled == ui.buttonDisabled
  {
    ui.(marker := Some(MarkerFor(hit, query)), view := Some(View(hit.at, ResultZoom)), message := Cleared)
  }

  /** The search may still act on the page: its signal is not aborted and the trimmed input still reads its query. */
  predicate Live(sc: Scene) {
    !sc.run.aborted && Trim(sc.ui.input) == sc.run.query
  }

  /**
   `done(ok, failed)`: on a live, unresolved search, mark it resolved,
   re-enable the button and show the failure or not-found message; otherwise
   change nothing.
   */
  function Done(sc: Scene, ok: bool, failed: bool): (r: Scene)
    ensures !Live(sc) || sc.run.resolved ==> r == sc
    ensures Live(sc) && !sc.run.resolved ==> r.run.resolved && !r.ui.buttonDisabled
    ensures r.ui.input == sc.ui.input && r.ui.marker == sc.ui.marker && r.run.settled == sc.run.settled
    ensures r.ui.message != sc.ui.message ==> r.ui.message == (if failed then SearchFailed else NotFound)
    ensures ok && !failed ==> r.ui.message == sc.ui.message
    ensures Live(sc) && !sc.run.resolved && (failed || !ok) ==>
      r.ui.message == (if failed then SearchFailed else NotFound)
    ensures r.ui.view == sc.ui.view && r.run == sc.run.(resolved := r.run.resolved)
  {
    if sc.run.aborted then sc
    else if Trim(sc.ui.input) != sc.run.query then sc
    else if sc.run.resolved then sc
    else
      var ui := sc.ui.(buttonDisabled := false);
      var ui' := if failed then ui.(message := SearchFailed)
                 else if !ok then ui.(message := NotFound)
                 else ui;
      Scene(ui', sc.run.(resolved := true))
  }

  /**
   `onSettle(ok, isError)`: ignored once aborted; a match finishes the search;
   anything else is counted, and the second one finishes it with `hadError`
   deciding the message.
   */
  function OnSettle(sc: Scene, ok: bool, isError: bool): (r: Scene)
    ensures sc.run.aborted ==> r == sc
    ensures r.ui.input == sc.ui.input && r.ui.marker == sc.ui.marker
    ensures r.run.query == sc.run.query && r.run.aborted == sc.run.aborted
    ensures ok ==> r.run.settled == sc.run.settled && r.run.hadError == sc.run.hadError
    ensures !ok && !sc.run.aborted ==> r.run.settled == sc.run.settled + 1
    ensures r.run.hadError == (sc.run.hadError || (!ok && isError && !sc.run.aborted))
    ensures r.run.resolved != sc.run.resolved ==> ok || r.run.settled == 2
    ensures r.run.resolved == sc.run.resolved ==> r.ui == sc.ui
    ensures r.ui.view == sc.ui.view
    ensures !Live(sc) || sc.run.resolved ==> r.run.resolved == sc.run.resolved && r.ui == sc.ui
    ensures ok ==> r.ui.message == sc.ui.message
    ensures r.run.reported == sc.run.reported
    ensures Live(sc) && !sc.run.resolved && (ok || sc.run.settled == 1) ==> r.run.resolved && !r.ui.buttonDisabled
    ensures Live(sc) && !sc.run.resolved && !ok && sc.run.settled == 1 ==>
      r.ui.message == (if sc.run.hadError || isError then SearchFailed else NotFound)
  {
    if sc.run.aborted then sc
    else if ok then Done(sc, true, false)
    else
      var run := sc.run.(hadError := sc.run.hadError || isError, settled := sc.run.settled + 1);
      var sc' := Scene(sc.ui, run);
      if run.settled == 2 then Done(sc', false, run.hadError) else sc'
  }

  /**
   A provider's promise settling: a match first runs `showResult` (before any
   check of the search's state) and then `onSettle(true, false)`; `false` runs
   `onSettle(false, false)`; a rejection runs `onSettle(false, true)`.
   */
  function Deliver(sc: Scene, s: Settled): (r: Scene)
    ensures r.ui.input == sc.ui.input
    ensures r.run.query == sc.run.query && r.run.aborted == sc.run.aborted && r.run.reported == sc.run.reported
    ensures r.run.settled <= sc.run.settled + 1
    ensures s.Matched? ==> r.ui.marker.Some? && r.ui.marker.value.at == s.hit.at && r.ui.message == Cleared
    ensures !s.Matched? ==> r.ui.marker == sc.ui.marker && r.ui.view == sc.ui.view
    ensures !Live(sc) || sc.run.resolved ==>
      && r.run.resolved == sc.run.resolved
      && r.ui.buttonDisabled == sc.ui.buttonDisabled
      && r.ui.message == (if s.Matched? then Cleared else sc.ui.message)
    ensures Live(sc) && !sc.run.resolved && s.Matched? ==> r.run.resolved && !r.ui.buttonDisabled
    ensures !s.Errored? ==> r.run.hadError == sc.run.hadError
    ensures r.run.resolved == sc.run.resolved ==> r.ui.buttonDisabled == sc.ui.buttonDisabled
    ensures r.run.resolved != sc.run.resolved ==> r.run.resolved && !r.ui.buttonDisabled
  {
    match s
    case Matched(hit) => OnSettle(Scene(ShowResult(sc.ui, hit, sc.run.query), sc.run), true, false)
    case NoMatch => OnSettle(sc, false, false)
    case Errored => OnSettle(sc, false, true)
  }

  /** The callbacks never look at which providers have reported. */
  lemma DeliverIgnoresReported(sc: Scene, s: Settled, reported: set<Provider>)
    ensures var d := Deliver(sc, s);
      Deliver(sc.(run := sc.run.(reported := reported)), s) == d.(run := d.run.(reported := reported))
  {
  }

  /** A search just launched: nothing counted, nothing resolved, no error seen. */
  predicate Fresh(sc: Scene) {
    !sc.run.resolved && sc.run.settled == 0 && !sc.run.hadError
  }

  /**
   The message a live search ends with once both providers have settled:
   cleared if either matched, the failure text if either rejected, the
   not-found text otherwise.
   */
  function Verdict(a: Settled, b: Settled): Message {
    if a.Matched? || b.Matched? then Cleared
    else if a.Errored? || b.Errored? then SearchFailed
    else NotFound
  }

  /**
   Whatever the two outcomes and in either order, a search that stays live
   ends resolved, with the button enabled and the verdict's message; the
   marker sits at the later match, if any.
   */
  lemma BothSettled(sc: Scene, a: Settled, b: Settled)
    requires Live(sc) && Fresh(sc)
    ensures var r := Deliver(Deliver(sc, a), b);
      && r.run.resolved
      && !r.ui.buttonDisabled
      && r.ui.message == Verdict(a, b)
      && r.ui.marker == (if b.Matched? then Some(MarkerFor(b.hit, sc.run.query))
                         else if a.Matched? then Some(MarkerFor(a.hit, sc.run.query))
                         else sc.ui.marker)
  {
  }

  /** The verdict does not depend on which provider answers first. */
  lemma VerdictOrderFree(sc: Scene, a: Settled, b: Settled)
    requires Live(sc) && Fresh(sc)
    ensures Deliver(Deliver(sc, a), b).ui.message == Deliver(Deliver(sc, b), a).ui.message
    ensures Deliver(Deliver(sc, a), b).run.resolved && Deliver(Deliver(sc, b), a).run.resolved
  {
    BothSettled(sc, a, b);
    BothSettled(sc, b, a);
  }

  /** After a single non-match the search keeps waiting: nothing is resolved and the message and button stay. */
  lemma OneMissWaits(sc: Scene, a: Settled)
    requires Fresh(sc) && !a.Matched?
    ensures var r := Deliver(sc, a);
      !r.run.resolved && r.ui.message == sc.ui.message && r.ui.buttonDisabled == sc.ui.buttonDisabled
  {
  }

  /** Once resolved, a later `done` changes nothing, whatever its arguments. */
  lemma ResolvedDoneIsNoop(sc: Scene, ok: bool, failed: bool)
    requires sc.run.resolved
    ensures Done(sc, ok, failed) == sc
  {
  }

  /** An aborted search ignores every `onSettle` and `done`. */
  lemma AbortedIsNoop(sc: Scene, ok: bool, isError: bool, failed: bool)
    requires sc.run.aborted
    ensures OnSettle(sc, ok, isError) == sc && Done(sc, ok, failed) == sc
  {
  }

  /**
   A stale search (input no longer reads its query) never resolves, never
   touches the button, and changes the message only through `showResult`.
   */
  lemma StaleIsNoop(sc: Scene, s: Settled)
    requires Trim(sc.ui.input) != sc.run.query
    ensures var r := Deliver(sc, s);
      && r.run.resolved == sc.run.resolved
      && r.ui.buttonDisabled == sc.ui.buttonDisabled
      && r.ui.message == (if s.Matched? then Cleared else sc.ui.message)
  {
  }

  /**
   `showResult` runs before `onSettle` checks anything: a match for an aborted
   or stale search still moves the marker and clears the message.
   */
  lemma StaleMatchMovesMarker(sc: Scene, hit: Hit)
    requires !Live(sc)
    ensures var r := Deliver(sc, Matched(hit));
      && r.ui.marker == Some(MarkerFor(hit, sc.run.query))
      && r.ui.message == Cleared
      && r.run.resolved == sc.run.resolved
  {
  }

  /**
   When neither outcome is a rejection, as with the two real adapters, the
   failure message is never shown and `hadError` stays false.
   */
  lemma NoRejectionNoFailure(sc: Scene, a: Settled, b: Settled)
    requires Live(sc) && Fresh(sc) && !a.Errored? && !b.Errored?
    ensures Deliver(Deliver(sc, a), b).ui.message != SearchFailed
    ensures !Deliver(Deliver(sc, a), b).run.hadError
  {
    BothSettled(sc, a, b);
  }
}
