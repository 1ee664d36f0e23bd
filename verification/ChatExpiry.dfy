/** Which stored history an ask loads: exactly the one saved last, while it has
    not expired and nobody deleted it. */
module ChatExpiry {
  import opened Common
  import opened ChatHistory

  /** The event stores a row. */
  predicate Saves(event: Event) {
    event.EndSelect? || (event.EndAsk? && event.response.Some?)
  }

  predicate Begins(event: Event) { event.BeginAsk? || event.BeginSelect? }

  /** The event can delete the row, or replace it. */
  predicate Touches(event: Event) {
    Saves(event) || Begins(event) || event.Clear? || event.StatusDeletes?
  }

  /** The row is the one that the j-th event stored, good for the lifetime from
      when its ask or choice began. */
  ghost predicate SavedAt(settings: Settings, states: seq<State>, events: seq<Event>, j: nat, row: Session)
    requires |states| == |events| + 1
  {
    && j < |events| && Saves(events[j]) && !states[j].pending.Idle?
    && states[j + 1].stored == Some(row)
    && row.expiresAt == states[j].pending.began + settings.ttl
  }

  ghost predicate SavedOnce(settings: Settings, states: seq<State>, events: seq<Event>, row: Session)
    requires |states| == |events| + 1
  {
    exists j: nat :: SavedAt(settings, states, events, j, row)
  }

  lemma SavedBefore(settings: Settings, states: seq<State>, events: seq<Event>, row: Session)
    requires |states| == |events| + 1 && events != []
    requires SavedOnce(settings, states[..|events|], events[..|events| - 1], row)
    ensures SavedOnce(settings, states, events, row)
  {
    var j: nat :| SavedAt(settings, states[..|events|], events[..|events| - 1], j, row);
    assert SavedAt(settings, states, events, j, row);
  }

  /** One event leaves the row, deletes it, or stores the one it carries. */
  lemma StepRow(settings: Settings, s: State, event: Event)
    requires Enabled(settings, s, event)
    ensures
      var row := After(settings, s, event).stored;
      || row == s.stored || row.None?
      || (Saves(event) && row.Some? && row.value.expiresAt == s.pending.began + settings.ttl)
    ensures !Touches(event) ==> After(settings, s, event).stored == s.stored
    ensures Saves(event) ==> !s.pending.Idle? && After(settings, s, event).stored.Some?
                             && After(settings, s, event).stored.value.expiresAt == s.pending.began + settings.ttl
  {
    hide Persisted, Exchange;
  }

  /** Every row was stored by one save of the run. */
  lemma {:induction false} RowWasSaved(settings: Settings, states: seq<State>, events: seq<Event>)
    requires IsRun(settings, states, events) && states[|events|].stored.Some?
    ensures SavedOnce(settings, states, events, states[|events|].stored.value)
    decreases |events|
  {
    if events != [] {
      var n := |events| - 1;
      var row := states[|events|].stored;
      StepRow(settings, states[n], events[n]);
      if row == states[n].stored {
        hide Enabled, After, SavedOnce;
        RowWasSaved(settings, states[..|events|], events[..n]);
        SavedBefore(settings, states, events, row.value);
      } else {
        hide Enabled, After;
        assert SavedAt(settings, states, events, n, row.value);
      }
    }
  }

  /** What an ask or a model choice loads. */
  lemma BeginLoads(settings: Settings, s: State, event: Event)
    requires Enabled(settings, s, event) && Begins(event)
    ensures
      var s' := After(settings, s, event);
      && !s'.pending.Idle? && s'.pending.began == s.clock
      && s'.pending.loaded == (if s.stored.Some? && s.clock < s.stored.value.expiresAt then s.stored.value.messages
                               else [])
  {
  }

  /** Whatever an ask or a model choice loads was stored by an earlier save whose
      own ask or choice began less than a lifetime before. */
  lemma LoadsOnlyFreshRows(settings: Settings, states: seq<State>, events: seq<Event>, event: Event)
    requires IsRun(settings, states, events) && Enabled(settings, states[|events|], event) && Begins(event)
    ensures
      var s := states[|events|];
      var pending := After(settings, s, event).pending;
      && !pending.Idle? && pending.began == s.clock
      && (pending.loaded != [] ==>
            exists row :: SavedOnce(settings, states, events, row) && row.messages == pending.loaded
              && s.clock < row.expiresAt)
  {
    BeginLoads(settings, states[|events|], event);
    if states[|events|].stored.Some? {
      RowWasSaved(settings, states, events);
    }
    hide Enabled, After, SavedOnce;
  }

  lemma {:induction false} RowStays(settings: Settings, states: seq<State>, events: seq<Event>, from: nat)
    requires IsRun(settings, states, events) && from <= |events|
    requires forall i | from <= i < |events| :: !Touches(events[i])
    ensures states[|events|].stored == states[from].stored
    decreases |events|
  {
    if from < |events| {
      hide Enabled, After, Touches;
      var n := |events| - 1;
      RowStays(settings, states[..|events|], events[..n], from);
      StepRow(settings, states[n], events[n]);
    }
  }

  /** Until its lifetime is over, counted from the beginning of the ask that saved
      it, the next ask finds a row that nothing touched; after that it finds none. */
  lemma FoundUntilExpiry(settings: Settings, states: seq<State>, events: seq<Event>, j: nat, event: Event)
    requires IsRun(settings, states, events) && Enabled(settings, states[|events|], event) && Begins(event)
    requires j < |events| && Saves(events[j]) && forall i | j < i < |events| :: !Touches(events[i])
    ensures !states[j].pending.Idle? && states[j + 1].stored.Some?
    ensures
      var s, row := states[|events|], states[j + 1].stored.value;
      var pending := After(settings, s, event).pending;
      && !pending.Idle?
      && pending.loaded == (if s.clock < states[j].pending.began + settings.ttl then row.messages else [])
  {
    StepRow(settings, states[j], events[j]);
    RowStays(settings, states, events, j + 1);
    BeginLoads(settings, states[|events|], event);
    hide Enabled, After, Touches;
  }

  /** What the lock holder loaded and when it began stay as they are until it ends. */
  lemma PendingStays(settings: Settings, s: State, event: Event)
    requires Enabled(settings, s, event) && !s.pending.Idle? && !event.EndAsk? && !event.EndSelect?
    ensures
      var pending := After(settings, s, event).pending;
      && !pending.Idle? && pending.loaded == s.pending.loaded && pending.began == s.pending.began
  {
  }
}
