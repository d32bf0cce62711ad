/**
 The page-level controller: the search button, the Enter key, the debounced
 input handler and the provider outcomes of every search launched so far,
 as events driving one immutable page state. Timers and network activity
 are not simulated: a pending 250 ms debounce timer is a field, its expiry an event,
 and each provider's settlement an event tagged with its search.
 */
module Page {
  import opened Common
  import opened Text
  import opened Providers
  import opened Search

  const MinQueryLength: nat := 3

  const EmptyQuery: Message := Message("Enter an address in Baltimore.", true)

  /**
   Every search launched so far, oldest first (the last one belongs to the
   current abort controller), the page elements, and the query captured by
   the pending as-you-type timer, if any.
   */
  datatype Page = Page(ui: Ui, searches: seq<SearchRun>, timer: Option<string>)

  /**
   What can happen on the page. `Input` is the field's text becoming `text`
   and its `input` event firing; `Settle` is provider `provider` of search
   number `id` settling.
   */
  datatype Event =
    | Click
    | EnterKey
    | Input(text: string)
    | TimerFires
    | Settle(id: nat, provider: Provider, outcome: Settled)

  /** The page before anything happens: empty field and message, button enabled, no marker. */
  const Initial: Page := Page(Ui("", Cleared, false, None, None), [], None)

  /** The state `runAddressSearch` creates for a new query. */
  function NewRun(query: string): SearchRun {
    SearchRun(query, false, false, 0, false, {})
  }

  /**
   `runAddressSearch(query)`: abort the current controller's search, start a
   fresh one for `query`, show "Searching…" and disable the button.
   */
  function Launch(p: Page, query: string): (r: Page)
    ensures |r.searches| == |p.searches| + 1 && r.searches[|p.searches|] == NewRun(query)
    ensures forall i :: 0 <= i < |p.searches| ==> r.searches[i] == p.searches[i].(aborted := true) || r.searches[i] == p.searches[i]
    ensures forall i :: 0 <= i < |p.searches| - 1 ==> r.searches[i] == p.searches[i]
    ensures |p.searches| > 0 ==> r.searches[|p.searches| - 1].aborted
    ensures r.ui.message == Searching && r.ui.buttonDisabled
    ensures r.ui.input == p.ui.input && r.ui.marker == p.ui.marker && r.timer == p.timer
    ensures r.ui.view == p.ui.view
  {
    var n := |p.searches|;
    var older := if n > 0 then p.searches[n - 1 := p.searches[n - 1].(aborted := true)] else p.searches;
    Page(p.ui.(message := Searching, buttonDisabled := true), older + [NewRun(query)], p.timer)
  }

  /**
   `doAddressSearch`: an input that trims to nothing only sets the
   instructive error; anything else launches a search for the trimmed text.
   */
  function Submit(p: Page): (r: Page)
    ensures Trim(p.ui.input) == "" ==>
      r.ui == p.ui.(message := EmptyQuery) && r.searches == p.searches && r.timer == p.timer
    ensures Trim(p.ui.input) != "" ==>
      |r.searches| == |p.searches| + 1 && r.searches[|p.searches|] == NewRun(Trim(p.ui.input))
    ensures Trim(p.ui.input) != "" ==> r == Launch(p, Trim(p.ui.input))
    ensures Trim(p.ui.input) != "" ==> r.ui.message == Searching && r.ui.buttonDisabled
    ensures r.timer == p.timer
  {
    var query := Trim(p.ui.input);
    if query == "" then p.(ui := p.ui.(message := EmptyQuery))
    else Launch(p, query)
  }

  /**
   The `input` handler: the pending timer is always cleared; a trimmed text
   shorter than three UTF-16 units clears the message, anything longer arms
   a single timer for that text. No search is launched or cancelled.
   */
  function OnInput(p: Page, text: string): (r: Page)
    ensures r.ui.input == text && r.searches == p.searches && r.ui.buttonDisabled == p.ui.buttonDisabled
    ensures Utf16Length(Trim(text)) < MinQueryLength ==> r.timer == None && r.ui.message == Cleared
    ensures Utf16Length(Trim(text)) >= MinQueryLength ==> r.timer == Some(Trim(text)) && r.ui.message == p.ui.message
    ensures r.ui.marker == p.ui.marker && r.ui.view == p.ui.view
  {
    var ui := p.ui.(input := text);
    var query := Trim(text);
    if Utf16Length(query) < MinQueryLength then Page(ui.(message := Cleared), p.searches, None)
    else Page(ui, p.searches, Some(query))
  }

  /**
   Provider `prov` of search `id` settles with `outcome`: the search's
   callbacks run against the page and the provider is recorded as reported.
   */
  function SettleSearch(p: Page, id: nat, prov: Provider, outcome: Settled): (r: Page)
    requires id < |p.searches|
    ensures |r.searches| == |p.searches| && r.timer == p.timer && r.ui.input == p.ui.input
    ensures forall i :: 0 <= i < |p.searches| && i != id ==> r.searches[i] == p.searches[i]
    ensures r.searches[id].reported == p.searches[id].reported + {prov}
    ensures var d := Deliver(Scene(p.ui, p.searches[id]), outcome);
      r.ui == d.ui && r.searches[id] == d.run.(reported := p.searches[id].reported + {prov})
  {
    var sc := Deliver(Scene(p.ui, p.searches[id]), outcome);
    Page(sc.ui, p.searches[id := sc.run.(reported := sc.run.reported + {prov})], p.timer)
  }

  /**
   One event. A click on the disabled button does nothing (the browser does
   not dispatch it); Enter submits regardless. A timer expiry with no timer
   pending, an unknown search and a provider settling a second time cannot
   happen and change nothing.
   */
  function Step(p: Page, e: Event): (r: Page)
    ensures e.Input? ==> r == OnInput(p, e.text)
    ensures e.EnterKey? || (e.Click? && !p.ui.buttonDisabled) ==> r == Submit(p)
    ensures e.Click? && p.ui.buttonDisabled ==> r == p
    ensures e.TimerFires? && p.timer.Some? ==> r == Launch(p.(timer := None), p.timer.value)
    ensures e.Settle? ==> r.ui.input == p.ui.input && |r.searches| == |p.searches|
  {
    match e
    case Click => if p.ui.buttonDisabled then p else Submit(p)
    case EnterKey => Submit(p)
    case Input(text) => OnInput(p, text)
    case TimerFires =>
      (match p.timer
       case None => p
       case Some(query) => Launch(p.(timer := None), query))
    case Settle(id, prov, outcome) =>
      if id < |p.searches| && prov !in p.searches[id].reported then SettleSearch(p, id, prov, outcome) else p
  }

  /** The page after a sequence of events, in order. */
  function Run(p: Page, events: seq<Event>): Page
    decreases |events|
  {
    if events == [] then p else Run(Step(p, events[0]), events[1..])
  }

  /** Running `a` and then `b` is running `a + b`. */
  lemma {:induction false} RunAppend(p: Page, a: seq<Event>, b: seq<Event>)
    ensures Run(p, a + b) == Run(Run(p, a), b)
    decreases |a|
  {
    if a == [] {
      assert a + b == b;
    } else {
      assert (a + b)[0] == a[0] && (a + b)[1..] == a[1..] + b;
      RunAppend(Step(p, a[0]), a[1..], b);
    }
  }

  /** The search of the current abort controller. */
  function Current(p: Page): SearchRun
    requires |p.searches| > 0
  {
    p.searches[|p.searches| - 1]
  }

  /** The number of providers that have reported for a search. */
  function ReportedCount(run: SearchRun): nat {
    (if Photon in run.reported then 1 else 0) + (if Nominatim in run.reported then 1 else 0)
  }

  /** A search's own bookkeeping: a trimmed non-empty query and no more misses counted than providers reported. */
  predicate WellFormed(run: SearchRun) {
    && run.query != ""
    && Trim(run.query) == run.query
    && run.settled <= ReportedCount(run)
  }

  /**
   What holds of every reachable page: only the current search is not
   aborted; the button is disabled exactly while the current search is
   unresolved; a pending timer holds the trimmed field text, which is long
   enough; every search is well formed.
   */
  predicate Inv(p: Page) {
    && (forall i :: 0 <= i < |p.searches| - 1 ==> p.searches[i].aborted)
    && (|p.searches| > 0 ==> !Current(p).aborted)
    && (p.ui.buttonDisabled <==> |p.searches| > 0 && !Current(p).resolved)
    && (p.timer.Some? ==> p.timer.value == Trim(p.ui.input) && Utf16Length(p.timer.value) >= MinQueryLength)
    && (forall i :: 0 <= i < |p.searches| ==> WellFormed(p.searches[i]))
  }

  lemma InitialInv()
    ensures Inv(Initial)
  {
  }

  lemma LaunchInv(p: Page, query: string)
    requires Inv(p) && query != "" && Trim(query) == query
    ensures Inv(Launch(p, query))
  {
    var r := Launch(p, query);
    assert WellFormed(NewRun(query));
    forall i | 0 <= i < |r.searches| ensures WellFormed(r.searches[i]) {
      if i < |p.searches| {
        assert WellFormed(p.searches[i]);
      }
    }
  }

  /** What one settlement of search `id` by `prov` may change, in the terms the invariant needs. */
  predicate SettledFrom(p: Page, r: Page, id: nat, prov: Provider)
    requires id < |p.searches|
  {
    var before := p.searches[id];
    && |r.searches| == |p.searches| && r.timer == p.timer && r.ui.input == p.ui.input
    && (forall i :: 0 <= i < |p.searches| && i != id ==> r.searches[i] == p.searches[i])
    && var after := r.searches[id];
    && after.query == before.query && after.aborted == before.aborted
    && after.settled <= before.settled + 1 && after.reported == before.reported + {prov}
    && (after.resolved == before.resolved ==> r.ui.buttonDisabled == p.ui.buttonDisabled)
    && (after.resolved != before.resolved ==> after.resolved && !r.ui.buttonDisabled)
    && (before.aborted ==> after.resolved == before.resolved)
  }

  lemma SettleFacts(p: Page, id: nat, prov: Provider, outcome: Settled)
    requires id < |p.searches|
    ensures SettledFrom(p, SettleSearch(p, id, prov, outcome), id, prov)
  {
    var sc := Scene(p.ui, p.searches[id]);
    var d := Deliver(sc, outcome);
    assert SettleSearch(p, id, prov, outcome) == Page(d.ui, p.searches[id := d.run.(reported := d.run.reported + {prov})], p.timer);
  }

  /** Any page related to an invariant page as a first report of one provider satisfies the invariant. */
  lemma SettledFromInv(p: Page, r: Page, id: nat, prov: Provider)
    requires Inv(p) && id < |p.searches| && prov !in p.searches[id].reported
    requires SettledFrom(p, r, id, prov)
    ensures Inv(r)
  {
    var before := p.searches[id];
    var after := r.searches[id];
    assert ReportedCount(after) == ReportedCount(before) + 1;
    assert WellFormed(before);
    assert WellFormed(after);
    forall i | 0 <= i < |r.searches| ensures WellFormed(r.searches[i]) && r.searches[i].aborted == p.searches[i].aborted {
      if i != id {
        assert WellFormed(p.searches[i]);
      }
    }
    if id < |p.searches| - 1 {
      assert before.aborted;
    }
  }

  lemma SettleInv(p: Page, id: nat, prov: Provider, outcome: Settled)
    requires Inv(p) && id < |p.searches| && prov !in p.searches[id].reported
    ensures Inv(SettleSearch(p, id, prov, outcome))
  {
    SettleFacts(p, id, prov, outcome);
    SettledFromInv(p, SettleSearch(p, id, prov, outcome), id, prov);
  }

  lemma InputInv(p: Page, text: string)
    requires Inv(p)
    ensures Inv(OnInput(p, text))
  {
    var r := OnInput(p, text);
    assert r.searches == p.searches && r.ui.buttonDisabled == p.ui.buttonDisabled;
  }

  lemma SubmitInv(p: Page)
    requires Inv(p)
    ensures Inv(Submit(p))
  {
    var query := Trim(p.ui.input);
    if query != "" {
      TrimIdempotent(p.ui.input);
      LaunchInv(p, query);
    }
  }

  lemma TimerInv(p: Page)
    requires Inv(p) && p.timer.Some?
    ensures Inv(Launch(p.(timer := None), p.timer.value))
  {
    TrimIdempotent(p.ui.input);
    LaunchInv(p.(timer := None), p.timer.value);
  }

  /** Every event keeps the invariant. */
  lemma StepInv(p: Page, e: Event)
    requires Inv(p)
    ensures Inv(Step(p, e))
  {
    match e
    case Click =>
      if !p.ui.buttonDisabled {
        SubmitInv(p);
      }
    case EnterKey =>
      SubmitInv(p);
    case Input(text) =>
      InputInv(p, text);
    case TimerFires =>
      if p.timer.Some? {
        TimerInv(p);
      }
    case Settle(id, prov, outcome) =>
      if id < |p.searches| && prov !in p.searches[id].reported {
        SettleInv(p, id, prov, outcome);
      }
  }

  /** Any sequence of events keeps the invariant. */
  lemma {:induction false} RunInv(p: Page, events: seq<Event>)
    requires Inv(p)
    ensures Inv(Run(p, events))
    decreases |events|
  {
    if events != [] {
      StepInv(p, events[0]);
      RunInv(Step(p, events[0]), events[1..]);
    }
  }

  /** Every page reachable from the initial one satisfies the invariant; in particular the button is disabled exactly while the current search is pending. */
  lemma ReachableInv(events: seq<Event>)
    ensures Inv(Run(Initial, events))
  {
    InitialInv();
    RunInv(Initial, events);
  }

  /** A submit of blank text shows the instructive error and launches nothing. */
  lemma BlankSubmitLaunchesNothing(p: Page, e: Event)
    requires e == EnterKey || (e == Click && !p.ui.buttonDisabled)
    requires AllTrimmable(p.ui.input)
    ensures Step(p, e).searches == p.searches
    ensures Step(p, e).ui.message == EmptyQuery
    ensures Step(p, e).ui.buttonDisabled == p.ui.buttonDisabled
  {
  }

  /** The `input` events of typing `texts`, one after the other. */
  function Typing(texts: seq<string>): (es: seq<Event>)
    ensures |es| == |texts|
  {
    if texts == [] then [] else [Input(texts[0])] + Typing(texts[1..])
  }

  /**
   However many keystrokes arrive before a timer fires, no search is
   launched and at most one timer is pending, for the latest text.
   */
  lemma {:induction false} TypingKeepsLatestTimer(p: Page, texts: seq<string>)
    requires |texts| > 0
    ensures var q := Run(p, Typing(texts));
      var last := Trim(texts[|texts| - 1]);
      && q.searches == p.searches
      && q.ui.input == texts[|texts| - 1]
      && q.ui.buttonDisabled == p.ui.buttonDisabled
      && q.timer == (if Utf16Length(last) >= MinQueryLength then Some(last) else None)
    decreases |texts|
  {
    var es := Typing(texts);
    assert es[0] == Input(texts[0]) && es[1..] == Typing(texts[1..]);
    if |texts| > 1 {
      TypingKeepsLatestTimer(Step(p, Input(texts[0])), texts[1..]);
    }
  }

  /**
   Typing `texts` and then letting the debounce timer expire launches
   exactly one search, for the last text, if that text is long enough, and
   none otherwise.
   */
  lemma DebounceLaunchesLatest(p: Page, texts: seq<string>)
    requires |texts| > 0
    ensures var q := Run(p, Typing(texts) + [TimerFires]);
      var last := Trim(texts[|texts| - 1]);
      && (Utf16Length(last) >= MinQueryLength ==>
            |q.searches| == |p.searches| + 1 && q.searches[|p.searches|] == NewRun(last) && q.timer == None)
      && (Utf16Length(last) < MinQueryLength ==> q.searches == p.searches)
  {
    TypingKeepsLatestTimer(p, texts);
    RunAppend(p, Typing(texts), [TimerFires]);
    var mid := Run(p, Typing(texts));
    assert Run(mid, [TimerFires]) == Step(mid, TimerFires);
  }

  /** Submitting does not cancel a pending as-you-type timer: it may still launch a second search later. */
  lemma SubmitKeepsTimer(p: Page)
    ensures Step(p, EnterKey).timer == p.timer
  {
  }

  /** Enter on a field with text launches a live, fresh search as the current one. */
  lemma EnterLaunchesLive(p: Page)
    requires Inv(p) && !AllTrimmable(p.ui.input)
    ensures var q := Step(p, EnterKey);
      && |q.searches| == |p.searches| + 1
      && q.ui.input == p.ui.input
      && Live(Scene(q.ui, q.searches[|p.searches|]))
      && Fresh(Scene(q.ui, q.searches[|p.searches|]))
      && q.searches[|p.searches|].reported == {}
  {
  }

  /** A first provider report on a search that has no reports yet is exactly one `Deliver`. */
  lemma SettleIsDeliver(p: Page, id: nat, prov: Provider, outcome: Settled)
    requires id < |p.searches| && prov !in p.searches[id].reported
    ensures var q := Step(p, Settle(id, prov, outcome));
      var d := Deliver(Scene(p.ui, p.searches[id]), outcome);
      && |q.searches| == |p.searches|
      && q.ui == d.ui
      && q.searches[id] == d.run.(reported := p.searches[id].reported + {prov})
  {
  }

  /** Three events in a row. */
  lemma RunThree(p: Page, e1: Event, e2: Event, e3: Event)
    ensures Run(p, [e1, e2, e3]) == Step(Step(Step(p, e1), e2), e3)
  {
    var p1 := Step(p, e1);
    var p2 := Step(p1, e2);
    assert [e1, e2, e3][1..] == [e2, e3] && [e2, e3][1..] == [e3] && [e3][1..] == [];
    assert Run(p2, [e3]) == Step(p2, e3);
    assert Run(p1, [e2, e3]) == Run(p2, [e3]);
  }

  /**
   A search launched by Enter, followed by both providers settling in either
   order while the field is untouched, ends resolved with the button enabled
   and the verdict's message.
   */
  lemma SubmitThenBothSettle(p: Page, pa: Provider, a: Settled, pb: Provider, b: Settled)
    requires Inv(p) && !AllTrimmable(p.ui.input) && pa != pb
    ensures var id := |p.searches|;
      var q := Run(p, [EnterKey, Settle(id, pa, a), Settle(id, pb, b)]);
      && |q.searches| == id + 1
      && q.searches[id].resolved
      && !q.ui.buttonDisabled
      && q.ui.message == Verdict(a, b)
  {
    var id := |p.searches|;
    RunThree(p, EnterKey, Settle(id, pa, a), Settle(id, pb, b));
    var p1 := Step(p, EnterKey);
    EnterLaunchesLive(p);
    var sc := Scene(p1.ui, p1.searches[id]);
    BothSettled(sc, a, b);
    var d1 := Deliver(sc, a);
    SettleIsDeliver(p1, id, pa, a);
    var p2 := Step(p1, Settle(id, pa, a));
    assert Scene(p2.ui, p2.searches[id]) == d1.(run := d1.run.(reported := {pa}));
    DeliverIgnoresReported(d1, b, {pa});
    SettleIsDeliver(p2, id, pb, b);
  }

  /**
   After a newer search has started, an outcome of an older one never
   touches the button or any search's resolution, and changes the message
   only by the unguarded `showResult` of a match.
   */
  lemma SupersededSearchIsNoop(p: Page, id: nat, prov: Provider, outcome: Settled)
    requires Inv(p) && id < |p.searches| - 1
    ensures var r := Step(p, Settle(id, prov, outcome));
      && r.ui.buttonDisabled == p.ui.buttonDisabled
      && (forall i :: 0 <= i < |p.searches| ==> r.searches[i].resolved == p.searches[i].resolved)
      && r.ui.message == (if outcome.Matched? && prov !in p.searches[id].reported then Cleared else p.ui.message)
  {
    assert p.searches[id].aborted;
  }

  /** On every reachable page no search has counted more than two misses, so `settled === 2` is the last count. */
  lemma SettledAtMostTwo(events: seq<Event>, i: nat)
    requires i < |Run(Initial, events).searches|
    ensures Run(Initial, events).searches[i].settled <= 2
  {
    ReachableInv(events);
    assert WellFormed(Run(Initial, events).searches[i]);
  }

  /**
   While the field no longer reads the current search's query, the search's
   outcomes cannot resolve it, so the button it disabled stays disabled.
   */
  lemma StaleSearchKeepsButtonDisabled(p: Page, prov: Provider, outcome: Settled)
    requires Inv(p) && |p.searches| > 0 && !Current(p).resolved
    requires Trim(p.ui.input) != Current(p).query
    ensures p.ui.buttonDisabled
    ensures Step(p, Settle(|p.searches| - 1, prov, outcome)).ui.buttonDisabled
  {
    StaleSettleKeepsButton(p, |p.searches| - 1, prov, outcome);
  }

  /** A settlement for a search whose query the field no longer reads leaves the button as it was. */
  lemma StaleSettleKeepsButton(p: Page, id: nat, prov: Provider, outcome: Settled)
    requires id < |p.searches| && Trim(p.ui.input) != p.searches[id].query
    ensures Step(p, Settle(id, prov, outcome)).ui.buttonDisabled == p.ui.buttonDisabled
  {
    if prov !in p.searches[id].reported {
      StaleIsNoop(Scene(p.ui, p.searches[id]), outcome);
    }
  }

  /** No rejected provider outcome anywhere. */
  predicate NoRejection(events: seq<Event>) {
    forall k :: 0 <= k < |events| ==> !(events[k].Settle? && events[k].outcome.Errored?)
  }

  /** No search has seen an error and the failure text is not shown. */
  predicate NeverFailed(p: Page) {
    && p.ui.message != SearchFailed
    && forall i :: 0 <= i < |p.searches| ==> !p.searches[i].hadError
  }

  /**
   The real adapters never reject, so `hadError` is never set and the
   "Search failed" message never appears.
   */
  lemma {:induction false} AdaptersNeverShowFailure(p: Page, events: seq<Event>)
    requires NeverFailed(p) && NoRejection(events)
    ensures NeverFailed(Run(p, events))
    decreases |events|
  {
    if events != [] {
      var e := events[0];
      var q := Step(p, e);
      if e.Settle? && e.id < |p.searches| && e.provider !in p.searches[e.id].reported {
        assert !e.outcome.Errored?;
        var sc := Scene(p.ui, p.searches[e.id]);
        assert !sc.run.hadError;
        assert Deliver(sc, e.outcome).ui.message != SearchFailed;
      }
      assert NeverFailed(q);
      assert NoRejection(events[1..]) by {
        forall k | 0 <= k < |events[1..]| ensures !(events[1..][k].Settle? && events[1..][k].outcome.Errored?) {
          assert events[1..][k] == events[k + 1];
        }
      }
      AdaptersNeverShowFailure(q, events[1..]);
    }
  }
}
