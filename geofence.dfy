/**
 * The fence record (`CTGeofence`), its `Builder`, and `CTGeofence.from`, which
 * turns a server or cached payload into records.
 *
 * A JSON payload is modelled abstractly: an object whose `geofences` key is
 * either missing or holds an array of entries, each entry either well formed
 * (integer `id`, double `lat`, double `lng`, integer `r`) or malformed (any
 * entry on which `getJSONObject`, `getInt` or `getDouble` would throw).
 */
module Geofence {

  import opened Wrappers
  import opened Decimal

  /** Java's 32-bit `int`. */
  newtype int32 = x: int | -0x8000_0000 <= x < 0x8000_0000

  /** A Java `double`, carried as its IEEE-754 bit pattern; the core does no arithmetic on it. */
  datatype Float64 = Float64(bits: bv64)

  /** Java's default value of a `double` field, 0.0. */
  const ZeroDouble: Float64 := Float64(0)

  /**
   * An immutable fence record. Its destructors are the getters `getId`,
   * `getTransitionType`, `getLatitude`, `getLongitude` and `getRadius`.
   */
  datatype Fence = Fence(
    id: string,
    transitionType: int32,
    latitude: Float64,
    longitude: Float64,
    radius: int32)

  /** One element of the `geofences` array of a payload. */
  datatype Entry =
    | WellFormed(id: int32, lat: Float64, lng: Float64, r: int32)
    | Malformed

  /** A payload object; `geofences` is `None` when the key is missing (or not an array). */
  datatype Payload = Payload(geofences: Option<seq<Entry>>)

  /** The empty JSON object `new JSONObject()`. */
  const EmptyObject: Payload := Payload(None)

  /**
   * `CTGeofence.Builder`: the id is given at construction, every other field
   * starts at Java's default and is changed by its own setter.
   */
  class Builder {
    var transitionType: int32
    var id: string
    var latitude: Float64
    var longitude: Float64
    var radius: int32

    constructor (id: string)
      ensures this.id == id
      ensures transitionType == 0 && latitude == ZeroDouble && longitude == ZeroDouble && radius == 0
    {
      this.id := id;
      transitionType := 0;
      latitude := ZeroDouble;
      longitude := ZeroDouble;
      radius := 0;
    }

    method SetTransitionType(transitionType: int32) returns (b: Builder)
      modifies this
      ensures b == this
      ensures this.transitionType == transitionType
      ensures id == old(id) && latitude == old(latitude) && longitude == old(longitude) && radius == old(radius)
    {
      this.transitionType := transitionType;
      b := this;
    }

    method SetLatitude(latitude: Float64) returns (b: Builder)
      modifies this
      ensures b == this
      ensures this.latitude == latitude
      ensures id == old(id) && transitionType == old(transitionType) && longitude == old(longitude) && radius == old(radius)
    {
      this.latitude := latitude;
      b := this;
    }

    method SetLongitude(longitude: Float64) returns (b: Builder)
      modifies this
      ensures b == this
      ensures this.longitude == longitude
      ensures id == old(id) && transitionType == old(transitionType) && latitude == old(latitude) && radius == old(radius)
    {
      this.longitude := longitude;
      b := this;
    }

    method SetRadius(radius: int32) returns (b: Builder)
      modifies this
      ensures b == this
      ensures this.radius == radius
      ensures id == old(id) && transitionType == old(transitionType) && latitude == old(latitude) && longitude == old(longitude)
    {
      this.radius := radius;
      b := this;
    }

    /** `build()`: a record whose getters return exactly the builder's fields. */
    method Build() returns (f: Fence)
      ensures f.id == id && f.transitionType == transitionType
      ensures f.latitude == latitude && f.longitude == longitude && f.radius == radius
    {
      f := Fence(id, transitionType, latitude, longitude, radius);
    }
  }

  /**
   * The record `from` builds for one well-formed entry: the id is
   * `String.valueOf` of the integer id, and the transition type is never set.
   */
  function FenceOf(e: Entry): (f: Fence)
    requires e.WellFormed?
    ensures f.id == IntToDecimal(e.id as int)
    ensures f.transitionType == 0
    ensures f.latitude == e.lat && f.longitude == e.lng && f.radius == e.r
  {
    Fence(IntToDecimal(e.id as int), 0, e.lat, e.lng, e.r)
  }

  /** A record's id text reads back as its entry's integer id. */
  lemma FenceOfIdReadsBack(e: Entry)
    requires e.WellFormed?
    ensures ParseInt(FenceOf(e).id) == Some(e.id as int)
  {
    DecimalRoundTrip(e.id as int);
  }

  /**
   * Records for the entries in array order, up to (not including) the first
   * malformed entry: the exception it raises leaves the whole loop.
   */
  function ParseEntries(entries: seq<Entry>): (fences: seq<Fence>)
    ensures |fences| <= |entries|
    ensures forall k :: 0 <= k < |fences| ==> entries[k].WellFormed?
  {
    if entries == [] || entries[0].Malformed? then []
    else [FenceOf(entries[0])] + ParseEntries(entries[1..])
  }

  /** The list `CTGeofence.from` returns; a payload without an array gives the empty list. */
  function Parsed(p: Payload): (fences: seq<Fence>)
    ensures p.geofences.None? ==> fences == []
    ensures p.geofences.Some? ==> |fences| <= |p.geofences.value|
    ensures forall f :: f in fences ==> f.transitionType == 0
  {
    match p.geofences
    case None => []
    case Some(entries) =>
      ParsedShape(entries);
      ParseEntries(entries)
  }

  /**
   * `CTGeofence.from`: walks the array with the builder, stopping at the first
   * malformed entry; never fails.
   */
  method From(p: Payload) returns (fences: seq<Fence>)
    ensures fences == Parsed(p)
  {
    fences := [];
    if p.geofences.None? {
      return;
    }
    var entries := p.geofences.value;
    var i := 0;
    while i < |entries|
      invariant 0 <= i <= |entries|
      invariant ParseEntries(entries) == fences + ParseEntries(entries[i..])
    {
      ParseFrom(entries, i);
      var entry := entries[i];
      if entry.Malformed? {
        break;
      }
      var builder := new Builder(IntToDecimal(entry.id as int));
      builder := builder.SetLatitude(entry.lat);
      builder := builder.SetLongitude(entry.lng);
      builder := builder.SetRadius(entry.r);
      var fence := builder.Build();
      assert fence == FenceOf(entry);
      fences := fences + [fence];
      i := i + 1;
    }
    ParseFrom(entries, i);
  }

  /** One step of the walk: what is left to parse from index `i` on. */
  lemma ParseFrom(entries: seq<Entry>, i: nat)
    requires i <= |entries|
    ensures i == |entries| ==> ParseEntries(entries[i..]) == []
    ensures i < |entries| && entries[i].Malformed? ==> ParseEntries(entries[i..]) == []
    ensures i < |entries| && entries[i].WellFormed? ==>
              ParseEntries(entries[i..]) == [FenceOf(entries[i])] + ParseEntries(entries[i + 1..])
  {
    if i < |entries| {
      assert entries[i..][0] == entries[i];
      assert entries[i..][1..] == entries[i + 1..];
    }
  }

  /**
   * The result of `from` is exactly the records of the longest well-formed
   * prefix of the array: each record comes from the entry at its own index,
   * and the entry just past the last record, if any, is malformed.
   */
  lemma {:induction false} ParsedShape(entries: seq<Entry>)
    ensures |ParseEntries(entries)| <= |entries|
    ensures forall k :: 0 <= k < |ParseEntries(entries)| ==>
              entries[k].WellFormed? && ParseEntries(entries)[k] == FenceOf(entries[k])
    ensures |ParseEntries(entries)| < |entries| ==> entries[|ParseEntries(entries)|].Malformed?
  {
    if entries != [] && entries[0].WellFormed? {
      ParsedShape(entries[1..]);
    }
  }

  /** With every entry well formed, one record per entry, in array order. */
  lemma AllWellFormedParsesAll(entries: seq<Entry>)
    requires forall k :: 0 <= k < |entries| ==> entries[k].WellFormed?
    ensures |ParseEntries(entries)| == |entries|
    ensures forall k :: 0 <= k < |entries| ==> ParseEntries(entries)[k] == FenceOf(entries[k])
  {
    ParsedShape(entries);
  }

  /** A malformed entry at index i, after i well-formed ones, leaves exactly the records of entries 0..i-1. */
  lemma {:induction false} MalformedStopsParsing(entries: seq<Entry>, i: nat)
    requires i < |entries| && entries[i].Malformed?
    requires forall k :: 0 <= k < i ==> entries[k].WellFormed?
    ensures ParseEntries(entries) == ParseEntries(entries[..i])
    ensures |ParseEntries(entries)| == i
  {
    if i > 0 {
      assert entries[1..][..i - 1] == entries[..i][1..];
      MalformedStopsParsing(entries[1..], i - 1);
    }
  }

  /** `from` never sets a transition type, so every record keeps the builder's default 0. */
  lemma ParsedTransitionTypeIsDefault(p: Payload)
    ensures forall f :: f in Parsed(p) ==> f.transitionType == 0
  {
    if p.geofences.Some? {
      ParsedShape(p.geofences.value);
    }
  }

  /**
   * Each record's id is the decimal text of its entry's integer id, and reading
   * that text back gives the integer; so distinct entry ids give distinct record ids.
   */
  lemma ParsedIdsRoundTrip(entries: seq<Entry>, k: nat)
    requires k < |ParseEntries(entries)|
    ensures k < |entries| && entries[k].WellFormed?
    ensures ParseInt(ParseEntries(entries)[k].id) == Some(entries[k].id as int)
    ensures ParseEntries(entries)[k].latitude == entries[k].lat
    ensures ParseEntries(entries)[k].longitude == entries[k].lng
    ensures ParseEntries(entries)[k].radius == entries[k].r
  {
    ParsedShape(entries);
    DecimalRoundTrip(entries[k].id as int);
  }

  /** Parsing a prefix of the array gives a prefix of the records. */
  lemma {:induction false} ParsePrefix(entries: seq<Entry>, n: nat)
    requires n <= |entries|
    ensures ParseEntries(entries[..n]) <= ParseEntries(entries)
  {
    if n > 0 && entries[0].WellFormed? {
      assert entries[1..][..n - 1] == entries[..n][1..];
      ParsePrefix(entries[1..], n - 1);
    }
  }
}
