/**
 * The filter sidebar. It owns no state: its props are the three current selections,
 * and each handler computes a new list and hands it to the parent's setter. Each
 * function below returns the selections as they are once those setters have run.
 */
module FilterPanel {
  import opened Seqs
  import opened SelectionList

  /** `selectedInstruments`, `selectedSuburbs` and `selectedDays`. */
  datatype Selections = Selections(instruments: seq<string>, suburbs: seq<string>, days: seq<string>)

  /** `toggleInstrument`: flips one instrument checkbox; suburbs and days are untouched. */
  function ToggleInstrument(sel: Selections, instrument: string): (r: Selections)
    ensures r.suburbs == sel.suburbs && r.days == sel.days
    ensures (instrument in r.instruments) == (instrument !in sel.instruments)
    ensures r.instruments == Toggle(sel.instruments, instrument)
  {
    sel.(instruments := Toggle(sel.instruments, instrument))
  }

  /** `toggleSuburb`: flips one suburb checkbox; instruments and days are untouched. */
  function ToggleSuburb(sel: Selections, suburb: string): (r: Selections)
    ensures r.instruments == sel.instruments && r.days == sel.days
    ensures (suburb in r.suburbs) == (suburb !in sel.suburbs)
    ensures r.suburbs == Toggle(sel.suburbs, suburb)
  {
    sel.(suburbs := Toggle(sel.suburbs, suburb))
  }

  /** `toggleDay`: flips one day checkbox; instruments and suburbs are untouched. */
  function ToggleDay(sel: Selections, day: string): (r: Selections)
    ensures r.instruments == sel.instruments && r.suburbs == sel.suburbs
    ensures (day in r.days) == (day !in sel.days)
    ensures r.days == Toggle(sel.days, day)
  {
    sel.(days := Toggle(sel.days, day))
  }

  /** `clearAll`: every selection becomes empty, so no filter remains. */
  function ClearAll(): (r: Selections)
    ensures r.instruments == [] && r.suburbs == [] && r.days == []
    ensures !HasFilters(r)
  {
    Selections([], [], [])
  }

  /** `hasFilters`: some selection is non-empty (the "Clear all" button is shown). */
  predicate HasFilters(sel: Selections) {
    |sel.instruments| > 0 || |sel.suburbs| > 0 || |sel.days| > 0
  }

  /** No filter is set exactly when the selections are those `ClearAll` produces. */
  lemma NoFiltersIffCleared(sel: Selections)
    ensures !HasFilters(sel) <==> sel == ClearAll()
  {
  }

  /** Selections without repeated values keep that property under every toggle. */
  ghost predicate Distinct(sel: Selections) {
    NoDuplicates(sel.instruments) && NoDuplicates(sel.suburbs) && NoDuplicates(sel.days)
  }

  lemma TogglesKeepDistinct(sel: Selections, v: string)
    requires Distinct(sel)
    ensures Distinct(ToggleInstrument(sel, v))
    ensures Distinct(ToggleSuburb(sel, v))
    ensures Distinct(ToggleDay(sel, v))
    ensures Distinct(ClearAll())
  {
    ToggleKeepsNoDuplicates(sel.instruments, v);
    ToggleKeepsNoDuplicates(sel.suburbs, v);
    ToggleKeepsNoDuplicates(sel.days, v);
  }

  /** Ticking an unticked instrument and unticking it again restores the selections. */
  lemma ToggleInstrumentTwice(sel: Selections, v: string)
    requires v !in sel.instruments
    ensures ToggleInstrument(ToggleInstrument(sel, v), v) == sel
  {
    ToggleTwiceAbsent(sel.instruments, v);
  }
}
