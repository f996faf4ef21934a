/**
 The read-only summary of a location: formatValue, renderValue and shouldCollapse
 (fields/types/location/LocationField.js).
 */
module Summary {
  import opened Wrappers
  import opened LocationValue
  import opened FieldProps

  /** The order in which formatValue lists the text keys. */
  const SummaryOrder: seq<TextKey> := [Number, Name, Street1, Street2, Suburb, State, Postcode, Country]

  /** What formatValue joins the parts with. */
  const Separator := ", "

  /** What renderValue shows when the summary is empty. */
  const NoValue := "(no value)"

  /** Every text key is unset or empty; geo plays no part. */
  predicate Blank(loc: Location) {
    forall k: TextKey :: Falsy(Text(loc, k))
  }

  /** Where `k` sits in the summary order. */
  function OrderIndex(k: TextKey): (i: nat)
    ensures i < |SummaryOrder| && SummaryOrder[i] == k
  {
    match k
    case Number => 0
    case Name => 1
    case Street1 => 2
    case Street2 => 3
    case Suburb => 4
    case State => 5
    case Postcode => 6
    case Country => 7
  }

  /** The array handed to `_.compact`: the eight text entries in summary order. */
  function Parts(loc: Location): (r: seq<Option<string>>)
    ensures |r| == |SummaryOrder|
    ensures forall i :: 0 <= i < |r| ==> r[i] == Text(loc, SummaryOrder[i])
  {
    [loc.number, loc.name, loc.street1, loc.street2, loc.suburb, loc.state, loc.postcode, loc.country]
  }

  /** `_.compact` on optional strings: the text of the truthy entries, in their order. */
  function Compact(xs: seq<Option<string>>): (r: seq<string>)
    ensures |r| <= |xs|
    ensures forall j :: 0 <= j < |r| ==> r[j] != ""
    ensures r == [] <==> forall i :: 0 <= i < |xs| ==> Falsy(xs[i])
  {
    if xs == [] then []
    else if Falsy(xs[0]) then Compact(xs[1..])
    else [xs[0].value] + Compact(xs[1..])
  }

  /** `Array.prototype.join`: the parts with `sep` between neighbours. */
  function Join(parts: seq<string>, sep: string): (r: string)
    ensures |parts| == 1 ==> r == parts[0]
    ensures (forall j :: 0 <= j < |parts| ==> parts[j] != "") ==> (r == "" <==> parts == [])
  {
    if parts == [] then ""
    else if |parts| == 1 then parts[0]
    else parts[0] + sep + Join(parts[1..], sep)
  }

  /** formatValue: the truthy text entries in summary order, joined with ", ". */
  function FormatValue(loc: Location): (r: string)
    ensures r == "" <==> Blank(loc)
  {
    var parts := Parts(loc);
    assert Blank(loc) <== forall i :: 0 <= i < |parts| ==> Falsy(parts[i]) by {
      forall k: TextKey ensures parts[OrderIndex(k)] == Text(loc, k) {
      }
    }
    Join(Compact(parts), Separator)
  }

  /** renderValue: the summary, or the "(no value)" literal when the summary is empty. */
  function RenderValue(p: Props): (r: string)
    ensures Blank(Current(p)) ==> r == NoValue
    ensures !Blank(Current(p)) ==> r == FormatValue(Current(p)) && r != ""
  {
    var s := FormatValue(Current(p));
    if s != "" then s else NoValue
  }

  /** shouldCollapse: the field may collapse to its summary only when that summary is empty. */
  function ShouldCollapse(p: Props): (r: bool)
    ensures r <==> p.collapse && Blank(Current(p))
  {
    p.collapse && FormatValue(Current(p)) == ""
  }

  /** Compacting distributes over concatenation. */
  lemma {:induction false} CompactAppend(xs: seq<Option<string>>, ys: seq<Option<string>>)
    ensures Compact(xs + ys) == Compact(xs) + Compact(ys)
  {
    if xs == [] {
      assert xs + ys == ys;
    } else {
      assert (xs + ys)[1..] == xs[1..] + ys;
      CompactAppend(xs[1..], ys);
    }
  }

  /** Joining one more part appends the separator and that part. */
  lemma {:induction false} JoinSnoc(parts: seq<string>, p: string, sep: string)
    requires parts != []
    ensures Join(parts + [p], sep) == Join(parts, sep) + sep + p
  {
    if |parts| == 1 {
      assert (parts + [p])[1..] == [p];
    } else {
      assert (parts + [p])[1..] == parts[1..] + [p];
      JoinSnoc(parts[1..], p, sep);
    }
  }

  /** When only entry `i` is truthy, compacting leaves exactly its text. */
  lemma CompactSingle(xs: seq<Option<string>>, i: nat)
    requires i < |xs| && !Falsy(xs[i])
    requires forall j :: 0 <= j < |xs| && j != i ==> Falsy(xs[j])
    ensures Compact(xs) == [xs[i].value]
  {
    var head, tail := xs[..i], xs[i + 1..];
    assert Compact(head) == [] by {
      forall j | 0 <= j < |head|
        ensures Falsy(head[j])
      {
        assert head[j] == xs[j];
      }
    }
    assert Compact(tail) == [] by {
      forall j | 0 <= j < |tail|
        ensures Falsy(tail[j])
      {
        assert tail[j] == xs[i + 1 + j];
      }
    }
    assert xs == head + ([xs[i]] + tail);
    CompactAppend(head, [xs[i]] + tail);
    CompactAppend([xs[i]], tail);
  }

  /** With exactly one truthy text entry, the summary is that entry alone. */
  lemma FormatSingleField(loc: Location, k: TextKey)
    requires !Falsy(Text(loc, k))
    requires forall k': TextKey :: k' != k ==> Falsy(Text(loc, k'))
    ensures FormatValue(loc) == Text(loc, k).value
  {
    var parts := Parts(loc);
    var i := OrderIndex(k);
    forall j | 0 <= j < |parts| && j != i
      ensures Falsy(parts[j])
    {
      assert parts[j] == Text(loc, SummaryOrder[j]);
    }
    CompactSingle(parts, i);
  }

  /** The coordinates never reach the summary. */
  lemma FormatIgnoresGeo(loc: Location, g: Option<seq<Coord>>)
    ensures FormatValue(loc.(geo := g)) == FormatValue(loc)
  {
  }

  /**
   A reference implementation of formatValue as a single left-to-right pass that
   appends each truthy entry, preceded by ", " unless nothing has been appended yet.
   */
  method Summarize(loc: Location) returns (s: string)
    ensures s == FormatValue(loc)
  {
    var parts := Parts(loc);
    s := "";
    var i := 0;
    while i < |parts|
      invariant 0 <= i <= |parts|
      invariant s == Join(Compact(parts[..i]), Separator)
    {
      var p := parts[i];
      ghost var done := Compact(parts[..i]);
      assert parts[..i + 1] == parts[..i] + [p];
      CompactAppend(parts[..i], [p]);
      if Falsy(p) {
        assert Compact(parts[..i + 1]) == done + [] == done;
      } else {
        assert Compact(parts[..i + 1]) == done + [p.value];
        if s == "" {
          assert done == [];
          assert done + [p.value] == [p.value];
          s := p.value;
        } else {
          JoinSnoc(done, p.value, Separator);
          s := s + Separator + p.value;
        }
      }
      i := i + 1;
    }
    assert parts[..i] == parts;
  }
}
