/**
 * The fixed catalogue of the end-to-end test: the fourteen endpoints, the eight
 * interfaces with their names and object paths, the `Data` record that carries one
 * value per endpoint, its conversion to and from a generic aggregate object, and
 * the default fixture every phase of the test compares against.
 */
module Interfaces {
  import opened Results
  import opened Ordering

  // ---------------------------------------------------------------------------
  // Endpoint catalogue

  /** The endpoint names, in the order the test iterates over them. */
  const Endpoints: seq<string> := [
    "double_endpoint",
    "integer_endpoint",
    "boolean_endpoint",
    "longinteger_endpoint",
    "string_endpoint",
    "binaryblob_endpoint",
    "datetime_endpoint",
    "doublearray_endpoint",
    "integerarray_endpoint",
    "booleanarray_endpoint",
    "longintegerarray_endpoint",
    "stringarray_endpoint",
    "binaryblobarray_endpoint",
    "datetimearray_endpoint"
  ]

  const EndpointSet: set<string> := set e | e in Endpoints

  /** The catalogue holds fourteen names and none of them twice. */
  lemma EndpointsCatalog()
    ensures |Endpoints| == 14
    ensures Distinct(Endpoints)
    ensures |EndpointSet| == 14
  {
    FieldsAreEndpoints();
    NamesInjective();
    assert Distinct(Fields);
    DistinctCardinality(Endpoints);
  }

  lemma {:induction false} DistinctCardinality(s: seq<string>)
    requires Distinct(s)
    ensures |set e | e in s| == |s|
  {
    if s != [] {
      DistinctCardinality(s[1..]);
      assert (set e | e in s) == {s[0]} + (set e | e in s[1..]);
      assert s[0] !in (set e | e in s[1..]);
    }
  }

  // ---------------------------------------------------------------------------
  // Interfaces

  const NamePrefix: string := "org.astarte-platform.rust.e2etest."

  const DeviceAggregateName: string := NamePrefix + "DeviceAggregate"
  const DeviceDatastreamName: string := NamePrefix + "DeviceDatastream"
  const DevicePropertyName: string := NamePrefix + "DeviceProperty"
  const ServerAggregateName: string := NamePrefix + "ServerAggregate"
  const ServerDatastreamName: string := NamePrefix + "ServerDatastream"
  const ServerPropertyName: string := NamePrefix + "ServerProperty"
  const AdditionalDeviceDatastreamName: string := NamePrefix + "AdditionalDeviceDatastream"
  const AdditionalServerDatastreamName: string := NamePrefix + "AdditionalServerDatastream"

  /** The names the message hub must expose, in the order the discovery check expects. */
  const InterfaceNames: seq<string> := [
    DeviceAggregateName,
    DeviceDatastreamName,
    DevicePropertyName,
    ServerAggregateName,
    ServerDatastreamName,
    ServerPropertyName
  ]

  const AdditionalInterfaceNames: seq<string> := [
    AdditionalDeviceDatastreamName,
    AdditionalServerDatastreamName
  ]

  /** The fixed object path of the two aggregate interfaces. */
  const SensorPath: string := "/sendor_1"

  /** The wrapper types of the test, one per interface. */
  datatype Interface =
    | DeviceAggregate
    | DeviceDatastream
    | DeviceProperty
    | ServerAggregate
    | ServerDatastream
    | ServerProperty
    | AdditionalDeviceDatastream
    | AdditionalServerDatastream
  {
    /** The wrapper's `name()`. */
    function Name(): string {
      match this
      case DeviceAggregate => DeviceAggregateName
      case DeviceDatastream => DeviceDatastreamName
      case DeviceProperty => DevicePropertyName
      case ServerAggregate => ServerAggregateName
      case ServerDatastream => ServerDatastreamName
      case ServerProperty => ServerPropertyName
      case AdditionalDeviceDatastream => AdditionalDeviceDatastreamName
      case AdditionalServerDatastream => AdditionalServerDatastreamName
    }

    /** The wrapper's `path()`; only the two aggregates declare one. */
    function Path(): Option<string> {
      match this
      case DeviceAggregate => Some(SensorPath)
      case ServerAggregate => Some(SensorPath)
      case _ => None
    }
  }

  /** The wrapper accessors agree with the name lists and the aggregate path. */
  lemma WrapperConstants()
    ensures InterfaceNames == [DeviceAggregate.Name(), DeviceDatastream.Name(), DeviceProperty.Name(),
                               ServerAggregate.Name(), ServerDatastream.Name(), ServerProperty.Name()]
    ensures AdditionalInterfaceNames == [AdditionalDeviceDatastream.Name(), AdditionalServerDatastream.Name()]
    ensures DeviceAggregate.Path() == ServerAggregate.Path() == Some("/sendor_1")
    ensures forall i: Interface :: i.Path().Some? <==> i == DeviceAggregate || i == ServerAggregate
    ensures forall i: Interface :: NamePrefix <= i.Name()
  {
  }

  // Consecutive entries of `INTERFACE_NAMES` ascend: they differ first right after the
  // common prefix, or a few characters into the type name.

  lemma DeviceAggregateBeforeDeviceDatastream()
    ensures Less(DeviceAggregateName, DeviceDatastreamName)
  {
    LessAt("DeviceAggregate", "DeviceDatastream", 6);
    LessUnderPrefix(NamePrefix, "DeviceAggregate", "DeviceDatastream");
  }

  lemma DeviceDatastreamBeforeDeviceProperty()
    ensures Less(DeviceDatastreamName, DevicePropertyName)
  {
    LessAt("DeviceDatastream", "DeviceProperty", 6);
    LessUnderPrefix(NamePrefix, "DeviceDatastream", "DeviceProperty");
  }

  lemma DevicePropertyBeforeServerAggregate()
    ensures Less(DevicePropertyName, ServerAggregateName)
  {
    LessAt("DeviceProperty", "ServerAggregate", 0);
    LessUnderPrefix(NamePrefix, "DeviceProperty", "ServerAggregate");
  }

  lemma ServerAggregateBeforeServerDatastream()
    ensures Less(ServerAggregateName, ServerDatastreamName)
  {
    LessAt("ServerAggregate", "ServerDatastream", 6);
    LessUnderPrefix(NamePrefix, "ServerAggregate", "ServerDatastream");
  }

  lemma ServerDatastreamBeforeServerProperty()
    ensures Less(ServerDatastreamName, ServerPropertyName)
  {
    LessAt("ServerDatastream", "ServerProperty", 6);
    LessUnderPrefix(NamePrefix, "ServerDatastream", "ServerProperty");
  }

  /** `INTERFACE_NAMES` ascends strictly, so sorting what the hub reports can reproduce it. */
  lemma InterfaceNamesAscending()
    ensures StrictlyAscending(InterfaceNames)
    ensures Sorted(InterfaceNames) && Distinct(InterfaceNames)
  {
    DeviceAggregateBeforeDeviceDatastream();
    DeviceDatastreamBeforeDeviceProperty();
    DevicePropertyBeforeServerAggregate();
    ServerAggregateBeforeServerDatastream();
    ServerDatastreamBeforeServerProperty();
    AdjacentAscending(InterfaceNames);
    AscendingDistinct(InterfaceNames);
  }

  /** The character right after the common prefix tells two interface names apart. */
  lemma PrefixedDiffer(x: string, y: string)
    requires |x| != 0 && |y| != 0 && x[0] != y[0]
    ensures NamePrefix + x != NamePrefix + y
  {
    assert (NamePrefix + x)[|NamePrefix|] == x[0];
    assert (NamePrefix + y)[|NamePrefix|] == y[0];
  }

  /** A name whose type part starts with `A` is none of the six expected names. */
  lemma NotExpected(x: string)
    requires |x| != 0 && x[0] == 'A'
    ensures NamePrefix + x !in InterfaceNames
  {
    PrefixedDiffer(x, "DeviceAggregate");
    PrefixedDiffer(x, "DeviceDatastream");
    PrefixedDiffer(x, "DeviceProperty");
    PrefixedDiffer(x, "ServerAggregate");
    PrefixedDiffer(x, "ServerDatastream");
    PrefixedDiffer(x, "ServerProperty");
  }

  /** The additional interfaces are none of the six the discovery check expects. */
  lemma AdditionalNamesDisjoint()
    ensures forall a | a in AdditionalInterfaceNames :: a !in InterfaceNames
    ensures AdditionalDeviceDatastreamName != AdditionalServerDatastreamName
  {
    NotExpected("AdditionalDeviceDatastream");
    NotExpected("AdditionalServerDatastream");
    assert (NamePrefix + "AdditionalDeviceDatastream")[|NamePrefix| + 10] == 'D';
    assert (NamePrefix + "AdditionalServerDatastream")[|NamePrefix| + 10] == 'S';
  }

  // ---------------------------------------------------------------------------
  // Values

  newtype Int32 = x: int | -0x8000_0000 <= x < 0x8000_0000
  newtype Int64 = x: int | -0x8000_0000_0000_0000 <= x < 0x8000_0000_0000_0000
  newtype Byte = x: int | 0 <= x < 0x100

  /** An `f64`, kept as its IEEE 754 bit pattern and compared only for equality. */
  datatype F64 = F64(bits: bv64)

  /** A UTC timestamp, in milliseconds since the Unix epoch. */
  datatype Timestamp = Timestamp(unixMillis: int)

  type Blob = seq<Byte>

  /** The dynamically typed value of one endpoint in a generic aggregate object. */
  datatype AstarteType =
    | Double(double: F64)
    | Integer(integer: Int32)
    | Boolean(boolean: bool)
    | LongInteger(longInteger: Int64)
    | String(str: string)
    | BinaryBlob(blob: Blob)
    | DateTime(dateTime: Timestamp)
    | DoubleArray(doubles: seq<F64>)
    | IntegerArray(integers: seq<Int32>)
    | BooleanArray(booleans: seq<bool>)
    | LongIntegerArray(longIntegers: seq<Int64>)
    | StringArray(strings: seq<string>)
    | BinaryBlobArray(blobs: seq<Blob>)
    | DateTimeArray(dateTimes: seq<Timestamp>)

  /** A generic aggregate object: endpoint name to value. */
  type Object = map<string, AstarteType>

  // ---------------------------------------------------------------------------
  // The Data record

  /** One typed value per endpoint. */
  datatype Data = Data(
    doubleEndpoint: F64,
    integerEndpoint: Int32,
    booleanEndpoint: bool,
    longintegerEndpoint: Int64,
    stringEndpoint: string,
    binaryblobEndpoint: Blob,
    datetimeEndpoint: Timestamp,
    doublearrayEndpoint: seq<F64>,
    integerarrayEndpoint: seq<Int32>,
    booleanarrayEndpoint: seq<bool>,
    longintegerarrayEndpoint: seq<Int64>,
    stringarrayEndpoint: seq<string>,
    binaryblobarrayEndpoint: seq<Blob>,
    datetimearrayEndpoint: seq<Timestamp>)

  /** The fields of `Data`, in declaration order. */
  datatype Field =
    | DoubleEndpoint
    | IntegerEndpoint
    | BooleanEndpoint
    | LongintegerEndpoint
    | StringEndpoint
    | BinaryblobEndpoint
    | DatetimeEndpoint
    | DoublearrayEndpoint
    | IntegerarrayEndpoint
    | BooleanarrayEndpoint
    | LongintegerarrayEndpoint
    | StringarrayEndpoint
    | BinaryblobarrayEndpoint
    | DatetimearrayEndpoint
  {
    /** The key of the field in an aggregate: the field name under `rename_all = "snake_case"`. */
    function Name(): string {
      match this
      case DoubleEndpoint => "double_endpoint"
      case IntegerEndpoint => "integer_endpoint"
      case BooleanEndpoint => "boolean_endpoint"
      case LongintegerEndpoint => "longinteger_endpoint"
      case StringEndpoint => "string_endpoint"
      case BinaryblobEndpoint => "binaryblob_endpoint"
      case DatetimeEndpoint => "datetime_endpoint"
      case DoublearrayEndpoint => "doublearray_endpoint"
      case IntegerarrayEndpoint => "integerarray_endpoint"
      case BooleanarrayEndpoint => "booleanarray_endpoint"
      case LongintegerarrayEndpoint => "longintegerarray_endpoint"
      case StringarrayEndpoint => "stringarray_endpoint"
      case BinaryblobarrayEndpoint => "binaryblobarray_endpoint"
      case DatetimearrayEndpoint => "datetimearray_endpoint"
    }

    /** Whether a generic value has the type this field declares. */
    predicate Accepts(v: AstarteType) {
      match this
      case DoubleEndpoint => v.Double?
      case IntegerEndpoint => v.Integer?
      case BooleanEndpoint => v.Boolean?
      case LongintegerEndpoint => v.LongInteger?
      case StringEndpoint => v.String?
      case BinaryblobEndpoint => v.BinaryBlob?
      case DatetimeEndpoint => v.DateTime?
      case DoublearrayEndpoint => v.DoubleArray?
      case IntegerarrayEndpoint => v.IntegerArray?
      case BooleanarrayEndpoint => v.BooleanArray?
      case LongintegerarrayEndpoint => v.LongIntegerArray?
      case StringarrayEndpoint => v.StringArray?
      case BinaryblobarrayEndpoint => v.BinaryBlobArray?
      case DatetimearrayEndpoint => v.DateTimeArray?
    }
  }

  const Fields: seq<Field> := [
    DoubleEndpoint, IntegerEndpoint, BooleanEndpoint, LongintegerEndpoint,
    StringEndpoint, BinaryblobEndpoint, DatetimeEndpoint, DoublearrayEndpoint,
    IntegerarrayEndpoint, BooleanarrayEndpoint, LongintegerarrayEndpoint,
    StringarrayEndpoint, BinaryblobarrayEndpoint, DatetimearrayEndpoint
  ]

  /** The record's fields, renamed and in declaration order, are exactly the endpoint catalogue. */
  lemma FieldsAreEndpoints()
    ensures |Fields| == |Endpoints|
    ensures forall i | 0 <= i < |Fields| :: Fields[i].Name() == Endpoints[i]
    ensures EndpointSet == set f | f in Fields :: f.Name()
  {
  }

  /** Every field of the record is listed. */
  lemma FieldListed(f: Field)
    ensures f in Fields
  {
    match f
    case DoubleEndpoint =>
    case IntegerEndpoint =>
    case BooleanEndpoint =>
    case LongintegerEndpoint =>
    case StringEndpoint =>
    case BinaryblobEndpoint =>
    case DatetimeEndpoint =>
    case DoublearrayEndpoint =>
    case IntegerarrayEndpoint =>
    case BooleanarrayEndpoint =>
    case LongintegerarrayEndpoint =>
    case StringarrayEndpoint =>
    case BinaryblobarrayEndpoint =>
    case DatetimearrayEndpoint =>
  }

  /** Two fields never share a key. */
  lemma NamesInjective()
    ensures forall f: Field, g: Field | f.Name() == g.Name() :: f == g
  {
    forall f: Field, g: Field | f.Name() == g.Name() ensures f == g {
      assert |f.Name()| == |g.Name()| && f.Name()[0] == g.Name()[0];
    }
  }

  /** The value of field `f` of `d`, as the aggregate conversion tags it. */
  function Get(d: Data, f: Field): (v: AstarteType)
    ensures f.Accepts(v)
  {
    match f
    case DoubleEndpoint => Double(d.doubleEndpoint)
    case IntegerEndpoint => Integer(d.integerEndpoint)
    case BooleanEndpoint => Boolean(d.booleanEndpoint)
    case LongintegerEndpoint => LongInteger(d.longintegerEndpoint)
    case StringEndpoint => String(d.stringEndpoint)
    case BinaryblobEndpoint => BinaryBlob(d.binaryblobEndpoint)
    case DatetimeEndpoint => DateTime(d.datetimeEndpoint)
    case DoublearrayEndpoint => DoubleArray(d.doublearrayEndpoint)
    case IntegerarrayEndpoint => IntegerArray(d.integerarrayEndpoint)
    case BooleanarrayEndpoint => BooleanArray(d.booleanarrayEndpoint)
    case LongintegerarrayEndpoint => LongIntegerArray(d.longintegerarrayEndpoint)
    case StringarrayEndpoint => StringArray(d.stringarrayEndpoint)
    case BinaryblobarrayEndpoint => BinaryBlobArray(d.binaryblobarrayEndpoint)
    case DatetimearrayEndpoint => DateTimeArray(d.datetimearrayEndpoint)
  }

  /** The aggregate object of a record: one entry per field, keyed by its snake_case name. */
  function ToAggregate(d: Data): (m: Object)
    ensures m.Keys == EndpointSet
    ensures forall f: Field :: Holds(m, f) && m[f.Name()] == Get(d, f)
  {
    AggregateEntries(d);
    Entries(d)
  }

  /** The map the `IntoAstarteObject` derive builds, field by field. */
  function Entries(d: Data): map<string, AstarteType> {
    NamesInjective();
    map f | f in Fields :: f.Name() := Get(d, f)
  }

  /** The derived map has one entry per catalogue key, each holding its field's value. */
  lemma AggregateEntries(d: Data)
    ensures Entries(d).Keys == EndpointSet
    ensures forall f: Field :: Holds(Entries(d), f) && Entries(d)[f.Name()] == Get(d, f)
  {
    EntryValues(d);
    FieldsAreEndpoints();
  }

  /** Each field's key maps to that field's value. */
  lemma EntryValues(d: Data)
    ensures forall f: Field :: f.Name() in Entries(d) && Entries(d)[f.Name()] == Get(d, f)
  {
    NamesInjective();
    var m := Entries(d);
    forall f: Field ensures f.Name() in m && m[f.Name()] == Get(d, f) {
      FieldListed(f);
    }
  }

  /** Why an aggregate object is not a `Data` record. */
  datatype DecodeError =
    | UnknownFields(keys: set<string>)   // `deny_unknown_fields`
    | MissingField(field: Field)
    | InvalidType(field: Field)

  /** Whether the object holds field `f` under its key with the declared type. */
  predicate Holds(m: Object, f: Field) {
    f.Name() in m && f.Accepts(m[f.Name()])
  }

  /** The object holds every field of the record. */
  predicate Complete(m: Object) {
    && Holds(m, DoubleEndpoint) && Holds(m, IntegerEndpoint) && Holds(m, BooleanEndpoint)
    && Holds(m, LongintegerEndpoint) && Holds(m, StringEndpoint) && Holds(m, BinaryblobEndpoint)
    && Holds(m, DatetimeEndpoint) && Holds(m, DoublearrayEndpoint) && Holds(m, IntegerarrayEndpoint)
    && Holds(m, BooleanarrayEndpoint) && Holds(m, LongintegerarrayEndpoint)
    && Holds(m, StringarrayEndpoint) && Holds(m, BinaryblobarrayEndpoint)
    && Holds(m, DatetimearrayEndpoint)
  }

  lemma CompleteHolds(m: Object, f: Field)
    requires Complete(m)
    ensures Holds(m, f)
  {
  }

  /**
   * The position of the first of `fields` the object does not hold, or `|fields|`
   * when it holds them all.
   */
  function FirstBadField(m: Object, fields: seq<Field>): (i: nat)
    ensures i <= |fields|
    ensures forall j | 0 <= j < i :: Holds(m, fields[j])
    ensures i < |fields| ==> !Holds(m, fields[i])
  {
    if fields == [] || !Holds(m, fields[0]) then 0
    else 1 + FirstBadField(m, fields[1..])
  }

  /** The record whose fields are the object's entries. */
  function Build(m: Object): Data
    requires Complete(m)
  {
    Data(
      m[DoubleEndpoint.Name()].double,
      m[IntegerEndpoint.Name()].integer,
      m[BooleanEndpoint.Name()].boolean,
      m[LongintegerEndpoint.Name()].longInteger,
      m[StringEndpoint.Name()].str,
      m[BinaryblobEndpoint.Name()].blob,
      m[DatetimeEndpoint.Name()].dateTime,
      m[DoublearrayEndpoint.Name()].doubles,
      m[IntegerarrayEndpoint.Name()].integers,
      m[BooleanarrayEndpoint.Name()].booleans,
      m[LongintegerarrayEndpoint.Name()].longIntegers,
      m[StringarrayEndpoint.Name()].strings,
      m[BinaryblobarrayEndpoint.Name()].blobs,
      m[DatetimearrayEndpoint.Name()].dateTimes)
  }

  /**
   * Strict decoding of an aggregate object into a `Data` record, as `deny_unknown_fields`
   * and the record's non-optional fields demand: keys outside the catalogue are refused
   * first, then the first field, in declaration order, that is missing or mistyped.
   */
  function FromAggregate(m: Object): (r: Result<Data, DecodeError>)
    ensures r.Ok? <==> m.Keys == EndpointSet && Complete(m)
    ensures !(m.Keys <= EndpointSet) ==> r == Err(UnknownFields(m.Keys - EndpointSet))
    ensures r.Err? && m.Keys <= EndpointSet ==>
              exists f: Field :: !Holds(m, f) && r.error == (if f.Name() in m then InvalidType(f) else MissingField(f))
  {
    if !(m.Keys <= EndpointSet) then Err(UnknownFields(m.Keys - EndpointSet))
    else if Complete(m) then
      CompleteKeys(m);
      Ok(Build(m))
    else
      var i := FirstBadField(m, Fields);
      if i < |Fields| then
        var f := Fields[i];
        Err(if f.Name() in m then InvalidType(f) else MissingField(f))
      else
        AllFieldsHeld(m);
        assert false;
        Err(UnknownFields({}))
  }

  /** A complete object has every catalogue key. */
  lemma CompleteKeys(m: Object)
    requires Complete(m)
    ensures EndpointSet <= m.Keys
  {
    forall k | k in EndpointSet ensures k in m {
      var f := FieldOf(k);
      CompleteHolds(m, f);
    }
  }

  /** An object that holds every listed field holds exactly the catalogue's keys. */
  lemma AllFieldsHeld(m: Object)
    requires m.Keys <= EndpointSet
    requires forall j | 0 <= j < |Fields| :: Holds(m, Fields[j])
    ensures Complete(m) && m.Keys == EndpointSet
  {
    assert Holds(m, Fields[0]) && Holds(m, Fields[1]) && Holds(m, Fields[2]) && Holds(m, Fields[3])
      && Holds(m, Fields[4]) && Holds(m, Fields[5]) && Holds(m, Fields[6]) && Holds(m, Fields[7])
      && Holds(m, Fields[8]) && Holds(m, Fields[9]) && Holds(m, Fields[10]) && Holds(m, Fields[11])
      && Holds(m, Fields[12]) && Holds(m, Fields[13]);
    CompleteKeys(m);
  }

  /** The field whose key is `k`. */
  lemma FieldOf(k: string) returns (f: Field)
    requires k in EndpointSet
    ensures f.Name() == k
  {
    FieldsAreEndpoints();
    var i :| 0 <= i < |Endpoints| && Endpoints[i] == k;
    f := Fields[i];
  }

  /** Reading field `f` of the built record gives back the object's entry for it. */
  lemma GetBuild(m: Object, f: Field)
    requires Complete(m)
    ensures Get(Build(m), f) == m[f.Name()]
  {
    CompleteHolds(m, f);
  }

  /** A record is determined by its fields' values. */
  lemma GetDetermines(a: Data, b: Data)
    requires forall f: Field :: Get(a, f) == Get(b, f)
    ensures a == b
  {
    assert Get(a, DoubleEndpoint) == Get(b, DoubleEndpoint);
    assert Get(a, IntegerEndpoint) == Get(b, IntegerEndpoint);
    assert Get(a, BooleanEndpoint) == Get(b, BooleanEndpoint);
    assert Get(a, LongintegerEndpoint) == Get(b, LongintegerEndpoint);
    assert Get(a, StringEndpoint) == Get(b, StringEndpoint);
    assert Get(a, BinaryblobEndpoint) == Get(b, BinaryblobEndpoint);
    assert Get(a, DatetimeEndpoint) == Get(b, DatetimeEndpoint);
    assert Get(a, DoublearrayEndpoint) == Get(b, DoublearrayEndpoint);
    assert Get(a, IntegerarrayEndpoint) == Get(b, IntegerarrayEndpoint);
    assert Get(a, BooleanarrayEndpoint) == Get(b, BooleanarrayEndpoint);
    assert Get(a, LongintegerarrayEndpoint) == Get(b, LongintegerarrayEndpoint);
    assert Get(a, StringarrayEndpoint) == Get(b, StringarrayEndpoint);
    assert Get(a, BinaryblobarrayEndpoint) == Get(b, BinaryblobarrayEndpoint);
    assert Get(a, DatetimearrayEndpoint) == Get(b, DatetimearrayEndpoint);
  }

  /** Each field of a decoded record is the object's entry under that field's key. */
  lemma DecodedEntry(m: Object, f: Field)
    requires FromAggregate(m).Ok?
    ensures f.Name() in m && Get(FromAggregate(m).value, f) == m[f.Name()]
  {
    CompleteHolds(m, f);
    GetBuild(m, f);
  }

  /** Decoding the aggregate of a record gives the record back. */
  lemma RoundTrip(d: Data)
    ensures FromAggregate(ToAggregate(d)) == Ok(d)
  {
    var m := ToAggregate(d);
    AllFieldsHeld(m);
    forall f: Field ensures Get(FromAggregate(m).value, f) == Get(d, f) {
      DecodedEntry(m, f);
    }
    GetDetermines(FromAggregate(m).value, d);
  }

  /** Only the aggregate of a record decodes to that record. */
  lemma DecodeOnlyAggregate(m: Object, d: Data)
    requires FromAggregate(m) == Ok(d)
    ensures m == ToAggregate(d)
  {
    var a := ToAggregate(d);
    forall k | k in m ensures m[k] == a[k] {
      var f := FieldOf(k);
      DecodedEntry(m, f);
    }
    assert m.Keys == a.Keys;
  }

  /**
   * Decoding is exact: an object decodes to `d` precisely when it is the aggregate
   * of `d`, so no other object (extra keys, missing keys, other values) decodes to it.
   */
  lemma DecodeExact(m: Object, d: Data)
    ensures FromAggregate(m) == Ok(d) <==> m == ToAggregate(d)
  {
    if FromAggregate(m) == Ok(d) {
      DecodeOnlyAggregate(m, d);
    } else if m == ToAggregate(d) {
      RoundTrip(d);
    }
  }

  // ---------------------------------------------------------------------------
  // The default fixture

  /** "aGVsbG8=" decoded as base64: the bytes of "hello". */
  const Hello: Blob := [0x68, 0x65, 0x6c, 0x6c, 0x6f]

  /** `Data::default()`: the oracle every phase compares against. */
  const DefaultData: Data := Data(
    F64(0x4011_5C28_F5C2_8F5C),                               // 4.34
    1,
    true,
    45543543534,
    "Hello",
    Hello,
    Timestamp(1632937608000),                                  // 2021-09-29T17:46:48.000Z
    [F64(0x4045_C000_0000_0000), F64(0x4025_0000_0000_0000),   // 43.5, 10.5,
     F64(0x4027_CCCC_CCCC_CCCD)],                              // 11.9
    [-4, 123, -2222, 30],
    [true, false],
    [53267895478, 53267895428, 53267895118],
    ["Test ", "String"],
    [Hello, Hello],
    [Timestamp(1635011208000), Timestamp(1636652808000)])     // 2021-10-23 and 2021-11-11, 17:46:48Z

  /** The shape of the default fixture; its 64-bit value does not fit 32 bits. */
  lemma DefaultFixture()
    ensures |DefaultData.doublearrayEndpoint| == 3
    ensures |DefaultData.integerarrayEndpoint| == 4
    ensures |DefaultData.booleanarrayEndpoint| == 2
    ensures |DefaultData.longintegerarrayEndpoint| == 3
    ensures |DefaultData.stringarrayEndpoint| == 2
    ensures |DefaultData.binaryblobarrayEndpoint| == 2
    ensures |DefaultData.datetimearrayEndpoint| == 2
    ensures DefaultData.longintegerEndpoint as int >= 0x8000_0000
    ensures forall v | v in DefaultData.longintegerarrayEndpoint :: v as int >= 0x8000_0000
  {
  }
}
