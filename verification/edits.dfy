/**
 The edit handlers fieldChanged and geoChanged (fields/types/location/LocationField.js).
 Each reports the parent's `onChange({ path, value })` call as the `Change` it returns;
 an input event is reduced to the new text.
 */
module Edits {
  import opened Wrappers
  import opened LocationValue
  import opened FieldProps
  import opened Summary

  /** The argument of one `onChange` call. */
  datatype Change = Change(path: string, value: Location)

  /** The parent's reaction to a change: it hands the reported value back as the new `value` prop. */
  function Apply(p: Props, c: Change): (q: Props)
    ensures q.value == Some(c.value)
    ensures q.(value := p.value) == p
  {
    p.(value := Some(c.value))
  }

  /** fieldChanged: report the current value with text key `k` set to `s`. */
  function FieldChanged(p: Props, k: TextKey, s: string): (r: Change)
    ensures r.path == p.path
    ensures Text(r.value, k) == Some(s)
    ensures forall k': TextKey :: k' != k ==> Text(r.value, k') == Text(Current(p), k')
    ensures r.value.geo == Current(p).geo
  {
    Change(p.path, WithText(Current(p), k, s))
  }

  /** `value.geo ? value.geo[i] : ''`: the slot geoChanged keeps for an index it is not editing. */
  function KeptCoord(geo: Option<seq<Coord>>, i: int): (c: Coord)
    ensures geo == None ==> c == Some("")
    ensures geo != None && 0 <= i < |geo.value| ==> c == geo.value[i]
    ensures geo != None && !(0 <= i < |geo.value|) ==> c == None
  {
    if geo == None then Some("") else GeoSlot(geo, i)
  }

  /**
   geoChanged: report the current value with a two-slot geo array whose slot `i`
   is `s` and whose other slot is copied from the old array.
   */
  function GeoChanged(p: Props, i: int, s: string): (r: Change)
    ensures r.path == p.path
    ensures r.value.geo.Some? && |r.value.geo.value| == 2
    ensures 0 <= i <= 1 ==> r.value.geo.value[i] == Some(s)
    ensures forall j :: 0 <= j <= 1 && j != i && Current(p).geo == None ==> r.value.geo.value[j] == Some("")
    ensures forall j :: 0 <= j <= 1 && j != i && Current(p).geo != None ==>
      r.value.geo.value[j] == (if j < |Current(p).geo.value| then Current(p).geo.value[j] else None)
    ensures forall k: TextKey :: Text(r.value, k) == Text(Current(p), k)
    ensures FormatValue(r.value) == FormatValue(Current(p))
  {
    var loc := Current(p);
    var geo := [
      if i == 0 then Some(s) else KeptCoord(loc.geo, 0),
      if i == 1 then Some(s) else KeptCoord(loc.geo, 1)
    ];
    Change(p.path, loc.(geo := Some(geo)))
  }

  /** Retyping the text a key already holds reports the current value unchanged. */
  lemma FieldChangedSameText(p: Props, k: TextKey, s: string)
    requires Text(Current(p), k) == Some(s)
    ensures FieldChanged(p, k, s).value == Current(p)
  {
  }

  /** Of two edits to the same key, the later one wins. */
  lemma FieldChangedLastWins(p: Props, k: TextKey, a: string, b: string)
    ensures FieldChanged(Apply(p, FieldChanged(p, k, a)), k, b) == FieldChanged(p, k, b)
  {
  }

  /** Edits to different keys commute. */
  lemma FieldChangedCommute(p: Props, k: TextKey, a: string, k': TextKey, b: string)
    requires k != k'
    ensures FieldChanged(Apply(p, FieldChanged(p, k, a)), k', b)
         == FieldChanged(Apply(p, FieldChanged(p, k', b)), k, a)
  {
  }

  /** Editing longitude and then latitude leaves exactly that pair, whatever geo was before. */
  lemma GeoChangedPair(p: Props, lng: string, lat: string)
    ensures GeoChanged(Apply(p, GeoChanged(p, 0, lng)), 1, lat).value.geo == Some([Some(lng), Some(lat)])
    ensures GeoChanged(Apply(p, GeoChanged(p, 1, lat)), 0, lng).value.geo == Some([Some(lng), Some(lat)])
  {
  }
}
