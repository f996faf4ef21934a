/**
 The component's local view-state: which optional rows are collapsed and the two
 autodetect checkboxes (getInitialState, componentWillMount, uncollapseFields and
 updateGoogleOption in fields/types/location/LocationField.js).
 */
module UiState {
  import opened LocationValue
  import opened FieldProps

  /** The two autodetect checkboxes. */
  datatype Flag = Improve | Overwrite {
    function Other(): Flag {
      if this == Improve then Overwrite else Improve
    }
  }

  /** `this.state`; the collapsedFields object is the set of its keys. */
  datatype ViewState = ViewState(collapsed: set<Key>, improve: bool, overwrite: bool) {
    function Get(f: Flag): bool {
      if f == Improve then improve else overwrite
    }
  }

  /** The keys componentWillMount may collapse, in the order it visits them. */
  const Collapsible: seq<Key> := [Number, Name, Street2, Geo]

  /** getInitialState. */
  const Initial := ViewState({}, false, false)

  /** The keys among `keys` whose value in `loc` is falsy. */
  function FalsyAmong(loc: Location, keys: seq<Key>): (r: set<Key>)
    ensures forall k :: k in r <==> k in keys && IsFalsy(loc, k)
  {
    if keys == [] then {}
    else (if IsFalsy(loc, keys[0]) then {keys[0]} else {}) + FalsyAmong(loc, keys[1..])
  }

  /** componentWillMount: collapse each of number, name, street2 and geo that is falsy. */
  function Mount(p: Props): (r: ViewState)
    ensures forall k :: k in r.collapsed <==> k in Collapsible && IsFalsy(Current(p), k)
    ensures !r.improve && !r.overwrite
  {
    Initial.(collapsed := FalsyAmong(Current(p), Collapsible))
  }

  /** uncollapseFields ("show more fields"): nothing stays collapsed; the checkboxes are kept. */
  function Uncollapse(st: ViewState): (r: ViewState)
    ensures r.collapsed == {}
    ensures r.improve == st.improve && r.overwrite == st.overwrite
  {
    st.(collapsed := {})
  }

  /** updateGoogleOption: set checkbox `f` to `checked` and nothing else. */
  function UpdateOption(st: ViewState, f: Flag, checked: bool): (r: ViewState)
    ensures r.Get(f) == checked
    ensures r.Get(f.Other()) == st.Get(f.Other())
    ensures r.collapsed == st.collapsed
  {
    if f == Improve then st.(improve := checked) else st.(overwrite := checked)
  }

  /** The user actions that change the view-state. */
  datatype Event = ShowMore | Toggle(flag: Flag, checked: bool)

  function Step(st: ViewState, e: Event): ViewState {
    match e
    case ShowMore => Uncollapse(st)
    case Toggle(f, checked) => UpdateOption(st, f, checked)
  }

  /** The view-state after handling `es` in order. */
  function Run(st: ViewState, es: seq<Event>): ViewState
    decreases |es|
  {
    if es == [] then st else Run(Step(st, es[0]), es[1..])
  }

  /** The checkbox value a run leaves: the last toggle of `f` in `es`, or `initial` if there is none. */
  function LastSet(es: seq<Event>, f: Flag, initial: bool): bool
    decreases |es|
  {
    if es == [] then initial
    else if es[|es| - 1].Toggle? && es[|es| - 1].flag == f then es[|es| - 1].checked
    else LastSet(es[..|es| - 1], f, initial)
  }

  /** Handling one more event is one more step. */
  lemma {:induction false} RunSnoc(st: ViewState, es: seq<Event>, e: Event)
    ensures Run(st, es + [e]) == Step(Run(st, es), e)
    decreases |es|
  {
    if es == [] {
      assert es + [e] == [e];
    } else {
      assert (es + [e])[1..] == es[1..] + [e];
      RunSnoc(Step(st, es[0]), es[1..], e);
    }
  }

  /** A run never re-collapses: the collapsed set is either untouched or empty. */
  lemma {:induction false} RunCollapsed(st: ViewState, es: seq<Event>)
    ensures Run(st, es).collapsed == st.collapsed || Run(st, es).collapsed == {}
    ensures ShowMore in es ==> Run(st, es).collapsed == {}
    decreases |es|
  {
    if es != [] {
      RunCollapsed(Step(st, es[0]), es[1..]);
      if es[0] == ShowMore {
        RunCollapsed(Uncollapse(st), es[1..]);
      }
    }
  }

  /** Each checkbox holds the last value it was set to; toggling the other one never disturbs it. */
  lemma {:induction false} RunFlag(st: ViewState, es: seq<Event>, f: Flag)
    ensures Run(st, es).Get(f) == LastSet(es, f, st.Get(f))
    decreases |es|
  {
    if es != [] {
      var init := es[..|es| - 1];
      var e := es[|es| - 1];
      assert es == init + [e];
      RunSnoc(st, init, e);
      RunFlag(st, init, f);
    }
  }

  /** In every state reachable from mounting, only number, name, street2 and geo can be collapsed. */
  lemma ReachableCollapsed(p: Props, es: seq<Event>)
    ensures Run(Mount(p), es).collapsed <= {Number, Name, Street2, Geo}
    ensures Run(Mount(p), es).collapsed == {} || Run(Mount(p), es).collapsed == Mount(p).collapsed
  {
    RunCollapsed(Mount(p), es);
  }
}
