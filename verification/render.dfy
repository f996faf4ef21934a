/**
 What renderUI shows for given props and view-state: the read-only summary, or the
 editable inputs, the autodetect checkboxes and the note (renderUI, renderField,
 renderSuburbState, renderPostcodeCountry, renderGeo, renderGoogleOptions and renderNote
 in fields/types/location/LocationField.js). Markup, labels, placeholders and widths
 are dropped; what remains is which controls appear, their names, what they show and
 which handler they call.
 */
module Render {
  import opened Wrappers
  import opened LocationValue
  import opened FieldProps
  import opened Summary
  import opened Edits
  import opened UiState

  /** The handler an input's onChange is bound to (makeChanger / makeGeoChanger). */
  datatype Handler = OnText(key: TextKey) | OnGeo(index: int)

  /** A text input: its name, the value it shows and its handler. */
  datatype Input = Input(name: string, shown: Option<string>, handler: Handler)

  datatype Checkbox = Checkbox(flag: Flag, name: string, checked: bool)

  datatype View =
    | ReadOnly(labelText: string, summary: string)
    | Editable(labelText: string, showMore: bool, inputs: seq<Input>, checkboxes: seq<Checkbox>, note: Option<string>)

  /** The input for text key `k`, named `path + '.' + k`. */
  function TextInput(p: Props, k: TextKey): Input {
    Input(p.path + "." + KeyName(k), Text(Current(p), k), OnText(k))
  }

  /** renderField: no input while `k` is collapsed. */
  function RenderField(p: Props, st: ViewState, k: TextKey): (r: seq<Input>)
    ensures k in st.collapsed ==> r == []
    ensures k !in st.collapsed ==>
      (|r| == 1 && r[0].name == p.path + "." + KeyName(k)
       && r[0].shown == Text(Current(p), k) && r[0].handler == OnText(k))
  {
    if k in st.collapsed then [] else [TextInput(p, k)]
  }

  /** renderSuburbState: never collapsed. */
  function RenderSuburbState(p: Props): (r: seq<Input>)
    ensures |r| == 2 && r[0].handler == OnText(Suburb) && r[1].handler == OnText(State)
    ensures forall inp :: inp in r ==>
      (inp.handler.OnText? && inp.name == p.path + "." + KeyName(inp.handler.key)
       && inp.shown == Text(Current(p), inp.handler.key))
  {
    [TextInput(p, Suburb), TextInput(p, State)]
  }

  /** renderPostcodeCountry: never collapsed. */
  function RenderPostcodeCountry(p: Props): (r: seq<Input>)
    ensures |r| == 2 && r[0].handler == OnText(Postcode) && r[1].handler == OnText(Country)
    ensures forall inp :: inp in r ==>
      (inp.handler.OnText? && inp.name == p.path + "." + KeyName(inp.handler.key)
       && inp.shown == Text(Current(p), inp.handler.key))
  {
    [TextInput(p, Postcode), TextInput(p, Country)]
  }

  /** renderGeo: latitude (slot 1) then longitude (slot 0), both named `paths.geo`; nothing while geo is collapsed. */
  function RenderGeo(p: Props, st: ViewState): (r: seq<Input>)
    ensures Geo in st.collapsed ==> r == []
    ensures Geo !in st.collapsed ==> |r| == 2 && r[0].handler == OnGeo(1) && r[1].handler == OnGeo(0)
    ensures forall inp :: inp in r ==>
      (inp.name == p.paths.geo && inp.handler.OnGeo? && inp.shown == GeoSlot(Current(p).geo, inp.handler.index))
  {
    if Geo in st.collapsed then []
    else [Input(p.paths.geo, GeoSlot(Current(p).geo, 1), OnGeo(1)),
          Input(p.paths.geo, GeoSlot(Current(p).geo, 0), OnGeo(0))]
  }

  /** renderGoogleOptions: the "improve" checkbox when the maps API is on, and "overwrite" below it only while "improve" is checked. */
  function RenderGoogleOptions(p: Props, st: ViewState): (r: seq<Checkbox>)
    ensures !p.enableMapsAPI ==> r == []
    ensures |r| <= 2 && (r != [] ==> r[0].flag == Improve)
    ensures |r| == 2 ==> r[1].flag == Overwrite
    ensures (exists c :: c in r && c.flag == Improve) <==> p.enableMapsAPI
    ensures (exists c :: c in r && c.flag == Overwrite) <==> p.enableMapsAPI && st.improve
    ensures forall c :: c in r ==> c.checked == st.Get(c.flag)
    ensures forall c :: c in r ==> c.name == (if c.flag == Improve then p.paths.improve else p.paths.overwrite)
  {
    if !p.enableMapsAPI then []
    else
      var improve := Checkbox(Improve, p.paths.improve, st.improve);
      var overwrite := Checkbox(Overwrite, p.paths.overwrite, st.overwrite);
      [improve] + (if st.improve then [overwrite] else [])
  }

  /** renderNote: the note, unless it is unset or empty. */
  function RenderNote(p: Props): (r: Option<string>)
    ensures r == None <==> Falsy(p.note)
    ensures r != None ==> r == p.note
  {
    if Falsy(p.note) then None else p.note
  }

  /** `inp` is the input for the key it edits, and that key's row is not hidden in `st`. */
  predicate IsTextInput(p: Props, st: ViewState, inp: Input) {
    && inp.handler.OnText?
    && inp == TextInput(p, inp.handler.key)
    && Uncollapsed(st, inp.handler.key)
  }

  /** Rows hidden by a collapsed key are those of number, name, street1 and street2 only. */
  predicate Uncollapsed(st: ViewState, k: TextKey) {
    k !in st.collapsed || k in {Suburb, State, Postcode, Country}
  }

  /** The input renderField builds, if any, is the wired input for its key. */
  lemma FieldRowWired(p: Props, st: ViewState, k: TextKey)
    ensures forall inp :: inp in RenderField(p, st, k) ==> IsTextInput(p, st, inp)
  {
  }

  /** The four rows that go through renderField, in layout order. */
  function StreetRows(p: Props, st: ViewState): (r: seq<Input>)
    ensures forall inp :: inp in r ==> IsTextInput(p, st, inp)
  {
    FieldRowWired(p, st, Number);
    FieldRowWired(p, st, Name);
    FieldRowWired(p, st, Street1);
    FieldRowWired(p, st, Street2);
    RenderField(p, st, Number) + RenderField(p, st, Name)
    + RenderField(p, st, Street1) + RenderField(p, st, Street2)
  }

  /** The text rows of renderUI, in layout order. */
  function TextRows(p: Props, st: ViewState): (r: seq<Input>)
    ensures forall inp :: inp in r ==> IsTextInput(p, st, inp)
  {
    var streets := StreetRows(p, st);
    var rest := RenderSuburbState(p) + RenderPostcodeCountry(p);
    assert rest == [TextInput(p, Suburb), TextInput(p, State), TextInput(p, Postcode), TextInput(p, Country)];
    assert forall inp :: inp in rest ==> IsTextInput(p, st, inp);
    streets + rest
  }

  /** The text inputs edit keys in strictly increasing layout order, so no key appears twice. */
  predicate InLayoutOrder(r: seq<Input>) {
    forall i, j :: 0 <= i < j < |r| ==>
      r[i].handler.OnText? && r[j].handler.OnText?
      && OrderIndex(r[i].handler.key) < OrderIndex(r[j].handler.key)
  }

  /** Every input in `r` is a text input whose key sits at a position in [lo, hi) of the layout order. */
  predicate KeysIn(r: seq<Input>, lo: nat, hi: nat) {
    forall m :: 0 <= m < |r| ==>
      r[m].handler.OnText? && lo <= OrderIndex(r[m].handler.key) < hi
  }

  /** Rows for earlier keys followed by rows for later keys stay in layout order. */
  lemma AppendInLayoutOrder(a: seq<Input>, b: seq<Input>, lo: nat, mid: nat, hi: nat)
    requires lo <= mid <= hi
    requires InLayoutOrder(a) && KeysIn(a, lo, mid)
    requires InLayoutOrder(b) && KeysIn(b, mid, hi)
    ensures InLayoutOrder(a + b) && KeysIn(a + b, lo, hi)
  {
    var ab := a + b;
    forall i, j | 0 <= i < j < |ab|
      ensures ab[i].handler.OnText? && ab[j].handler.OnText?
      ensures OrderIndex(ab[i].handler.key) < OrderIndex(ab[j].handler.key)
    {
      if j < |a| {
        assert ab[i] == a[i] && ab[j] == a[j];
      } else if i < |a| {
        assert ab[i] == a[i] && ab[j] == b[j - |a|];
      } else {
        assert ab[i] == b[i - |a|] && ab[j] == b[j - |a|];
      }
    }
    forall m | 0 <= m < |ab|
      ensures ab[m].handler.OnText? && lo <= OrderIndex(ab[m].handler.key) < hi
    {
      if m < |a| {
        assert ab[m] == a[m];
      } else {
        assert ab[m] == b[m - |a|];
      }
    }
  }

  /** The row renderField builds for `k`, if any, sits at `k`'s place in the layout order. */
  lemma FieldRowInLayoutOrder(p: Props, st: ViewState, k: TextKey)
    ensures InLayoutOrder(RenderField(p, st, k))
    ensures KeysIn(RenderField(p, st, k), OrderIndex(k), OrderIndex(k) + 1)
  {
  }

  /** The four rows that never collapse follow the street rows, in layout order. */
  lemma FixedRowsInLayoutOrder(p: Props)
    ensures InLayoutOrder(RenderSuburbState(p) + RenderPostcodeCountry(p))
    ensures KeysIn(RenderSuburbState(p) + RenderPostcodeCountry(p), 4, 8)
  {
    var rest := RenderSuburbState(p) + RenderPostcodeCountry(p);
    assert rest[0].handler == OnText(Suburb) && rest[1].handler == OnText(State);
    assert rest[2].handler == OnText(Postcode) && rest[3].handler == OnText(Country);
  }

  /** The street rows hold number, name, street1 and street2 in that order, each at most once. */
  lemma StreetRowsInLayoutOrder(p: Props, st: ViewState)
    ensures InLayoutOrder(StreetRows(p, st)) && KeysIn(StreetRows(p, st), 0, 4)
  {
    var r0, r1, r2, r3 := RenderField(p, st, Number), RenderField(p, st, Name),
      RenderField(p, st, Street1), RenderField(p, st, Street2);
    FieldRowInLayoutOrder(p, st, Number);
    FieldRowInLayoutOrder(p, st, Name);
    FieldRowInLayoutOrder(p, st, Street1);
    FieldRowInLayoutOrder(p, st, Street2);
    AppendInLayoutOrder(r0, r1, 0, 1, 2);
    AppendInLayoutOrder(r0 + r1, r2, 0, 2, 3);
    AppendInLayoutOrder(r0 + r1 + r2, r3, 0, 3, 4);
  }

  /** The text rows come in the order of lines 231-236: number, name, street1, street2, suburb, state, postcode, country. */
  lemma TextRowsInLayoutOrder(p: Props, st: ViewState)
    ensures InLayoutOrder(TextRows(p, st))
  {
    StreetRowsInLayoutOrder(p, st);
    FixedRowsInLayoutOrder(p);
    AppendInLayoutOrder(StreetRows(p, st), RenderSuburbState(p) + RenderPostcodeCountry(p), 0, 4, 8);
  }

  /** renderUI: the summary in read-only mode, otherwise the editable rows in layout order. */
  function RenderUI(p: Props, st: ViewState): (v: View)
    ensures !p.shouldRenderField ==> v == ReadOnly(p.labelText, RenderValue(p))
    ensures p.shouldRenderField ==> v.Editable? && v.labelText == p.labelText
    ensures p.shouldRenderField ==> (v.showMore <==> st.collapsed != {})
    ensures p.shouldRenderField ==> v.checkboxes == RenderGoogleOptions(p, st) && v.note == RenderNote(p)
  {
    if !p.shouldRenderField then ReadOnly(p.labelText, RenderValue(p))
    else
      var inputs := TextRows(p, st) + RenderGeo(p, st);
      Editable(p.labelText, st.collapsed != {}, inputs, RenderGoogleOptions(p, st), RenderNote(p))
  }

  /** The `onChange` call a handler makes when its input's text becomes `s`. */
  function Dispatch(p: Props, h: Handler, s: string): Change {
    match h
    case OnText(k) => FieldChanged(p, k, s)
    case OnGeo(i) => GeoChanged(p, i, s)
  }

  /** The view offers an input bound to `h`. */
  predicate Shows(v: View, h: Handler) {
    v.Editable? && exists inp :: inp in v.inputs && inp.handler == h
  }

  /** In editable mode: a text row is shown unless its key is collapsed; suburb, state, postcode and country have no collapse check. */
  lemma TextInputVisibility(p: Props, st: ViewState, k: TextKey)
    requires p.shouldRenderField
    ensures Shows(RenderUI(p, st), OnText(k)) <==> Uncollapsed(st, k)
  {
  }

  /** In editable mode: both geo inputs are shown exactly when geo is not collapsed. */
  lemma GeoInputVisibility(p: Props, st: ViewState, i: int)
    requires p.shouldRenderField
    ensures Shows(RenderUI(p, st), OnGeo(i)) <==> Geo !in st.collapsed && 0 <= i <= 1
  {
  }

  /**
   Every rendered input is wired consistently: a text input is named `path + '.' + key`,
   shows that key's text and edits that key; a geo input is named `paths.geo` and shows
   the slot it edits; every edit is reported under the field's own path.
   */
  lemma InputsWired(p: Props, st: ViewState, inp: Input, s: string)
    requires p.shouldRenderField && inp in RenderUI(p, st).inputs
    ensures inp.handler.OnText? ==>
      inp.name == p.path + "." + KeyName(inp.handler.key) && inp.shown == Text(Current(p), inp.handler.key)
    ensures inp.handler.OnText? ==> Text(Dispatch(p, inp.handler, s).value, inp.handler.key) == Some(s)
    ensures inp.handler.OnGeo? ==>
      inp.name == p.paths.geo && 0 <= inp.handler.index <= 1
      && inp.shown == GeoSlot(Current(p).geo, inp.handler.index)
    ensures inp.handler.OnGeo? ==> Dispatch(p, inp.handler, s).value.geo.value[inp.handler.index] == Some(s)
    ensures Dispatch(p, inp.handler, s).path == p.path
  {
  }

  /** Two text inputs never share a name: the name `path + '.' + key` fixes the key it edits. */
  lemma TextInputNamesDistinct(p: Props, st: ViewState, a: Input, b: Input)
    requires p.shouldRenderField && a in RenderUI(p, st).inputs && b in RenderUI(p, st).inputs
    requires a.handler.OnText? && b.handler.OnText? && a.name == b.name
    ensures a == b
  {
    InputsWired(p, st, a, "");
    InputsWired(p, st, b, "");
    InputNameIdentifiesKey(p.path, a.handler.key, b.handler.key);
  }

  /**
   After mounting with props `p` and any sequence of user actions, the street1, suburb,
   state, postcode and country inputs are on screen, whatever props `q` (for instance
   an edited value) the field is rendered with by then in editable mode
   (`shouldRenderField()` true).
   */
  lemma ReachableNeverHidden(p: Props, q: Props, es: seq<Event>, k: TextKey)
    requires q.shouldRenderField && k in {Street1, Suburb, State, Postcode, Country}
    ensures Shows(RenderUI(q, Run(Mount(p), es)), OnText(k))
  {
    ReachableCollapsed(p, es);
    TextInputVisibility(q, Run(Mount(p), es), k);
  }

  /** In editable mode: "show more fields" is offered exactly while something is collapsed, and after it nothing is. */
  lemma ShowMoreOffered(p: Props, st: ViewState)
    requires p.shouldRenderField
    ensures RenderUI(p, st).showMore <==> st.collapsed != {}
    ensures !RenderUI(p, Step(st, ShowMore)).showMore
  {
  }

  /** In editable mode: the overwrite checkbox follows the improve checkbox: after improve is checked it appears, after it is cleared it is gone, and its own value survives. */
  lemma OverwriteFollowsImprove(p: Props, st: ViewState, checked: bool)
    requires p.shouldRenderField && p.enableMapsAPI
    ensures var r := RenderUI(p, Step(st, Toggle(Improve, checked)));
      (exists c :: c in r.checkboxes && c.flag == Overwrite) <==> checked
    ensures Step(st, Toggle(Improve, checked)).overwrite == st.overwrite
  {
  }
}
