/**
 The value a Location field edits: a record of optional strings plus an optional
 coordinate array ordered [longitude, latitude].
 */
module LocationValue {
  import opened Wrappers

  /** The keys of a location value. */
  datatype Key = Number | Name | Street1 | Street2 | Suburb | State | Postcode | Country | Geo

  /** The eight keys that hold free text; `Geo` holds the coordinate array. */
  type TextKey = k: Key | k != Geo witness Number

  /** One slot of the geo array; `None` is a slot the array does not have. */
  type Coord = Option<string>

  datatype Location = Location(
    number: Option<string>,
    name: Option<string>,
    street1: Option<string>,
    street2: Option<string>,
    suburb: Option<string>,
    state: Option<string>,
    postcode: Option<string>,
    country: Option<string>,
    geo: Option<seq<Coord>>)

  /** The location with no keys set, which is what `value = {}` supplies when the prop is absent. */
  const Empty := Location(None, None, None, None, None, None, None, None, None)

  /** JavaScript falsiness of an optional string: `undefined` or `''`. */
  predicate Falsy(s: Option<string>) {
    s == None || s == Some("")
  }

  /** The text stored under `k`. */
  function Text(loc: Location, k: TextKey): Option<string> {
    match k
    case Number => loc.number
    case Name => loc.name
    case Street1 => loc.street1
    case Street2 => loc.street2
    case Suburb => loc.suburb
    case State => loc.state
    case Postcode => loc.postcode
    case Country => loc.country
  }

  /** `{ ...loc, [k]: s }` for a text key. */
  function WithText(loc: Location, k: TextKey, s: string): Location {
    match k
    case Number => loc.(number := Some(s))
    case Name => loc.(name := Some(s))
    case Street1 => loc.(street1 := Some(s))
    case Street2 => loc.(street2 := Some(s))
    case Suburb => loc.(suburb := Some(s))
    case State => loc.(state := Some(s))
    case Postcode => loc.(postcode := Some(s))
    case Country => loc.(country := Some(s))
  }

  /** `!loc[k]`: a text key is falsy when unset or empty; the geo array is falsy only when unset. */
  predicate IsFalsy(loc: Location, k: Key) {
    if k == Geo then loc.geo == None else Falsy(Text(loc, k))
  }

  /** `(geo || [])[i]`: slot `i` of the geo array, `None` when there is no array or no such slot. */
  function GeoSlot(geo: Option<seq<Coord>>, i: int): Coord {
    match geo
    case None => None
    case Some(g) => if 0 <= i < |g| then g[i] else None
  }

  /** The property name JavaScript uses for `k`, as it appears in input names. */
  function KeyName(k: Key): (r: string)
    ensures r != ""
  {
    match k
    case Number => "number"
    case Name => "name"
    case Street1 => "street1"
    case Street2 => "street2"
    case Suburb => "suburb"
    case State => "state"
    case Postcode => "postcode"
    case Country => "country"
    case Geo => "geo"
  }

  /** Input names `path + '.' + name` built from one path tell the keys apart. */
  lemma InputNameIdentifiesKey(path: string, k: Key, k': Key)
    ensures path + "." + KeyName(k) == path + "." + KeyName(k') ==> k == k'
  {
    var prefix := path + ".";
    if prefix + KeyName(k) == prefix + KeyName(k') {
      assert KeyName(k) == (prefix + KeyName(k))[|prefix|..];
      assert KeyName(k') == (prefix + KeyName(k'))[|prefix|..];
    }
  }
}
