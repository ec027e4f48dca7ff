/**
 * The device half of the end-to-end test, `send_device_data`: publish the aggregate,
 * send every endpoint of the datastream and of the property interface as an individual
 * value, unset every property, and after each phase ask the inspection API (with
 * `retry(10, ...)`) whether the data arrived.
 *
 * The device client, the barrier and the API are not modelled as objects: the client's
 * answer to its `n`-th call is `clientOk(n)`, the API's answer to the `i`-th attempt of a
 * check is an input function of `i`, and the barrier is counted (`waits`).
 */
module DeviceSide {
  import opened Results
  import opened Ordering
  import opened Interfaces
  import opened Driver

  /** A call the test makes on the device client, in the order it makes them. */
  datatype Request =
    | SendObject(iface: string, path: string, data: Data)          // `send_object`
    | SendValue(iface: string, path: string, value: AstarteType)  // `send`
    | UnsetValue(iface: string, path: string)                     // `unset`

  /** Every check after a device phase is retried up to ten times. */
  const CheckAttempts: nat := 10

  /**
   * What the inspection API answers, attempt by attempt. An `Err` stands for any error
   * the API call returns; the driver only forwards it with `?`.
   */
  datatype DeviceEnv = DeviceEnv(
    clientOk: nat -> bool,                                    // the client accepts its n-th call
    aggregatePolls: nat -> Result<seq<Data>, ErrorKind>,      // `aggregate_value`, decoded
    individualChecks: (string, Object, nat) -> Result<(), ErrorKind>,  // `check_individual`
    propertyPolls: nat -> Result<Object, ErrorKind>)          // `property`

  /** `?` on an inspection-API call. */
  function FromApi<T>(answer: Result<T, ErrorKind>): (o: Outcome<T>)
    ensures o.Ok? <==> answer.Ok?
    ensures o.Ok? ==> o.value == answer.value
    ensures o.Err? ==> o == Err(Error(Api))
  {
    match answer
    case Ok(v) => Ok(v)
    case Err(_) => Err(Error(Api))
  }

  /**
   * `endpoints[i]` can still be removed after the earlier iterations: it is a key of the
   * aggregate and no earlier iteration removed it already.
   */
  ghost predicate Available(aggregate: Object, endpoints: seq<string>, i: nat)
    requires i < |endpoints|
  {
    endpoints[i] in aggregate && forall j | 0 <= j < i :: endpoints[j] != endpoints[i]
  }

  /**
   * A send loop of `send_device_data`: for each endpoint in order, remove it from the
   * aggregate (a missing key is "endpoint not found"), send the removed value at
   * `"/" + endpoint`, and wait at the barrier. The `n`-th request is the client's call
   * number `sent + n`. On success the map left over is returned.
   */
  method SendIndividuals(iface: string, endpoints: seq<string>, aggregate: Object, clientOk: nat -> bool, sent: nat)
    returns (r: Outcome<Object>, requests: seq<Request>, waits: nat)
    ensures |requests| <= |endpoints|
    ensures forall i | 0 <= i < |requests| ::
              Available(aggregate, endpoints, i)
              && requests[i] == SendValue(iface, EndpointPath(endpoints[i]), aggregate[endpoints[i]])
    ensures forall n | sent <= n < sent + waits :: clientOk(n)
    ensures r.Ok? <==>
              && (forall i | 0 <= i < |endpoints| :: Available(aggregate, endpoints, i))
              && (forall n | sent <= n < sent + |endpoints| :: clientOk(n))
    ensures r.Ok? ==> r.value == aggregate - (set e | e in endpoints) && waits == |requests| == |endpoints|
    ensures r.Err? ==> r == Err(Error(EndpointNotFound)) || r == Err(Error(Client))
    ensures r == Err(Error(EndpointNotFound)) ==>
              waits == |requests| < |endpoints| && !Available(aggregate, endpoints, |requests|)
    ensures r == Err(Error(Client)) ==> waits + 1 == |requests| && !clientOk(sent + waits)
  {
    var data := aggregate;
    requests := [];
    waits := 0;
    var i := 0;
    while i < |endpoints|
      invariant i <= |endpoints| && |requests| == waits == i
      invariant data == aggregate - (set j | 0 <= j < i :: endpoints[j])
      invariant forall n | sent <= n < sent + i :: clientOk(n)
      invariant forall j | 0 <= j < i ::
                  Available(aggregate, endpoints, j)
                  && requests[j] == SendValue(iface, EndpointPath(endpoints[j]), aggregate[endpoints[j]])
    {
      var endpoint := endpoints[i];
      if endpoint !in data {
        assert !Available(aggregate, endpoints, i);
        return Err(Error(EndpointNotFound)), requests, waits;
      }
      assert Available(aggregate, endpoints, i);
      var value := data[endpoint];
      data := data - {endpoint};
      requests := requests + [SendValue(iface, EndpointPath(endpoint), value)];
      if !clientOk(sent + i) {
        return Err(Error(Client)), requests, waits;
      }
      waits := waits + 1;
      assert (set j | 0 <= j < i + 1 :: endpoints[j]) == (set j | 0 <= j < i :: endpoints[j]) + {endpoint};
      i := i + 1;
    }
    assert (set j | 0 <= j < i :: endpoints[j]) == (set e | e in endpoints);
    r := Ok(data);
  }

  /**
   * The unset loop of `send_device_data`: for each endpoint in order, require it to be a
   * key of the (untouched) aggregate, unset it at `"/" + endpoint`, and wait at the barrier.
   */
  method UnsetEach(iface: string, endpoints: seq<string>, aggregate: Object, clientOk: nat -> bool, sent: nat)
    returns (r: Outcome<()>, requests: seq<Request>, waits: nat)
    ensures |requests| <= |endpoints|
    ensures forall i | 0 <= i < |requests| ::
              endpoints[i] in aggregate && requests[i] == UnsetValue(iface, EndpointPath(endpoints[i]))
    ensures forall n | sent <= n < sent + waits :: clientOk(n)
    ensures r.Ok? <==>
              && (forall i | 0 <= i < |endpoints| :: endpoints[i] in aggregate)
              && (forall n | sent <= n < sent + |endpoints| :: clientOk(n))
    ensures r.Ok? ==> waits == |requests| == |endpoints|
    ensures r.Err? ==> r == Err(Error(EndpointNotFound)) || r == Err(Error(Client))
    ensures r == Err(Error(EndpointNotFound)) ==>
              waits == |requests| < |endpoints| && endpoints[|requests|] !in aggregate
    ensures r == Err(Error(Client)) ==> waits + 1 == |requests| && !clientOk(sent + waits)
  {
    requests := [];
    waits := 0;
    var i := 0;
    while i < |endpoints|
      invariant i <= |endpoints| && |requests| == waits == i
      invariant forall n | sent <= n < sent + i :: clientOk(n)
      invariant forall j | 0 <= j < i ::
                  endpoints[j] in aggregate
                  && requests[j] == UnsetValue(iface, EndpointPath(endpoints[j]))
    {
      var endpoint := endpoints[i];
      if endpoint !in aggregate {
        return Err(Error(EndpointNotFound)), requests, waits;
      }
      requests := requests + [UnsetValue(iface, EndpointPath(endpoint))];
      if !clientOk(sent + i) {
        return Err(Error(Client)), requests, waits;
      }
      waits := waits + 1;
      i := i + 1;
    }
    r := Ok(());
  }

  /**
   * The retried closure after the aggregate was published: the API's list of published
   * objects must not be empty (else "missing data from publish", retried), and its last
   * element must equal the fixture (else `assert_eq!` panics, which ends the run).
   */
  function AggregateCheck(poll: Result<seq<Data>, ErrorKind>): (o: Outcome<()>)
    ensures o.Ok? <==> poll.Ok? && |poll.value| != 0 && poll.value[|poll.value| - 1] == DefaultData
    ensures poll.Err? ==> o == Err(Error(Api))
    ensures poll.Ok? && |poll.value| == 0 ==> o == Err(Error(MissingData))
    ensures poll.Ok? && |poll.value| != 0 && poll.value[|poll.value| - 1] != DefaultData ==>
              o == Err(Panic(AggregateData))
  {
    match poll
    case Err(_) => Err(Error(Api))
    case Ok(list) =>
      if |list| == 0 then Err(Error(MissingData))
      else if list[|list| - 1] != DefaultData then Err(Panic(AggregateData))
      else Ok(())
  }

  /** The retried closure after the unsets: the interface's property set must be empty. */
  function PropertyCheck(poll: Result<Object, ErrorKind>): (o: Outcome<()>)
    ensures o.Ok? <==> poll == Ok(map[])
    ensures o.Err? ==> Retryable(o)
    ensures poll.Ok? && poll.value != map[] ==> o == Err(Error(PropertyNotUnset))
  {
    match poll
    case Err(_) => Err(Error(Api))
    case Ok(data) => if |data| == 0 then Ok(()) else Err(Error(PropertyNotUnset))
  }

  /** The fixture every device phase publishes, as the SDK's aggregate object. */
  function Fixture(): (m: Object)
    ensures m.Keys == EndpointSet
  {
    ToAggregate(DefaultData)
  }

  /** The individual sends a send loop makes for interface `name`, in `ENDPOINTS` order. */
  function PlannedSends(name: string): (q: seq<Request>)
    ensures |q| == |Endpoints|
  {
    seq(|Endpoints|, i requires 0 <= i < |Endpoints| =>
      SendValue(name, EndpointPath(Endpoints[i]), Fixture()[Endpoints[i]]))
  }

  /** The unsets the last loop makes for interface `name`, in `ENDPOINTS` order. */
  function PlannedUnsets(name: string): (q: seq<Request>)
    ensures |q| == |Endpoints|
  {
    seq(|Endpoints|, i requires 0 <= i < |Endpoints| => UnsetValue(name, EndpointPath(Endpoints[i])))
  }

  /** Every client call `send_device_data` makes when nothing fails. */
  function ExpectedRequests(): (q: seq<Request>)
    ensures |q| == 1 + 3 * |Endpoints|
  {
    [SendObject(DeviceAggregate.Name(), SensorPath, DefaultData)]
      + PlannedSends(DeviceDatastream.Name())
      + PlannedSends(DeviceProperty.Name())
      + PlannedUnsets(DeviceProperty.Name())
  }

  /** The client accepts each of its calls numbered `from` up to (not including) `to`. */
  ghost predicate ClientAccepts(env: DeviceEnv, from: nat, to: nat) {
    forall n | from <= n < to :: env.clientOk(n)
  }

  /** Within ten attempts the API shows the aggregate, with no panic before. */
  ghost predicate AggregateSeen(env: DeviceEnv) {
    exists i | 0 <= i < CheckAttempts ::
      AggregateCheck(env.aggregatePolls(i)).Ok?
      && forall j | 0 <= j < i :: Retryable(AggregateCheck(env.aggregatePolls(j)))
  }

  /** Within ten attempts `check_individual(name, checked)` succeeds. */
  ghost predicate IndividualsSeen(env: DeviceEnv, name: string, checked: Object) {
    exists i | 0 <= i < CheckAttempts :: env.individualChecks(name, checked, i).Ok?
  }

  /** Within ten attempts the API reports no property left. */
  ghost predicate PropertiesCleared(env: DeviceEnv) {
    exists i | 0 <= i < CheckAttempts :: env.propertyPolls(i) == Ok(map[])
  }

  /** Each endpoint of the fixture can be removed in turn: the keys are `ENDPOINTS`, once each. */
  lemma FixtureAvailable()
    ensures forall i | 0 <= i < |Endpoints| :: Available(Fixture(), Endpoints, i)
  {
    EndpointsCatalog();
  }

  /**
   * Publish the aggregate fixture with `send_object`, wait at the barrier, then retry the
   * aggregate check up to ten times. This is the client's call number 0.
   */
  method AggregatePhase(env: DeviceEnv) returns (r: Outcome<()>, requests: seq<Request>, waits: nat)
    ensures requests == ExpectedRequests()[..1]
    ensures waits == (if env.clientOk(0) then 1 else 0)
    ensures !env.clientOk(0) ==> r == Err(Error(Client))
    ensures r.Ok? <==> env.clientOk(0) && AggregateSeen(env)
  {
    requests := [SendObject(DeviceAggregate.Name(), SensorPath, DefaultData)];
    if !env.clientOk(0) {
      return Err(Error(Client)), requests, 0;
    }
    waits := 1;
    var check := (i: nat) => AggregateCheck(env.aggregatePolls(i));
    var calls;
    r, calls := Retry(CheckAttempts, check);
    forall i | 0 <= i
      ensures check(i) == AggregateCheck(env.aggregatePolls(i))
    {
    }
    RetrySucceeds(CheckAttempts, check, 0);
  }

  /**
   * One send loop and the check after it, as the code should read: `check_individual`
   * is asked about the whole fixture, which holds every value the loop sent. The loop's
   * first call is the client's call number `sent`.
   */
  method IndividualPhase(iface: Interface, env: DeviceEnv, sent: nat)
    returns (r: Outcome<()>, requests: seq<Request>, waits: nat, checked: Object)
    ensures requests <= PlannedSends(iface.Name())
    ensures checked == Fixture()
    ensures forall i | 0 <= i < |requests| :: requests[i].value == checked[Endpoints[i]]
    ensures r.Ok? <==>
              ClientAccepts(env, sent, sent + |Endpoints|) && IndividualsSeen(env, iface.Name(), checked)
    ensures r.Ok? ==> requests == PlannedSends(iface.Name())
    ensures waits == |requests| || (waits + 1 == |requests| && r == Err(Error(Client)))
  {
    var aggregate := Fixture();
    checked := aggregate;
    var rest;
    rest, requests, waits := SendIndividuals(iface.Name(), Endpoints, aggregate, env.clientOk, sent);
    FixtureAvailable();
    if rest.Err? {
      return Err(rest.error), requests, waits, checked;
    }
    var check := (i: nat) => FromApi(env.individualChecks(iface.Name(), checked, i));
    var calls;
    r, calls := Retry(CheckAttempts, check);
    forall i | 0 <= i
      ensures check(i) == FromApi(env.individualChecks(iface.Name(), checked, i))
      ensures check(i).Ok? || Retryable(check(i))
    {
    }
    RetryWithoutPanics(CheckAttempts, check, 0);
  }

  /**
   * One send loop and the check after it, as `send_device_data` is written: the map
   * cloned into the check is what the loop left of the aggregate after removing every
   * endpoint, so `check_individual` is always asked about an empty object.
   */
  method IndividualPhaseAsWritten(iface: Interface, env: DeviceEnv, sent: nat)
    returns (r: Outcome<()>, requests: seq<Request>, waits: nat, checked: Option<Object>)
    ensures requests <= PlannedSends(iface.Name())
    ensures checked.Some? <==> ClientAccepts(env, sent, sent + |Endpoints|)
    ensures checked.Some? ==> checked.value == map[]
    ensures r.Ok? <==> checked.Some? && IndividualsSeen(env, iface.Name(), map[])
    ensures checked.Some? ==> requests == PlannedSends(iface.Name())
    ensures waits == |requests| || (waits + 1 == |requests| && r == Err(Error(Client)))
  {
    var aggregate := Fixture();
    var rest;
    rest, requests, waits := SendIndividuals(iface.Name(), Endpoints, aggregate, env.clientOk, sent);
    FixtureAvailable();
    if rest.Err? {
      return Err(rest.error), requests, waits, None;
    }
    NothingLeft(DefaultData);
    var value := rest.value;
    checked := Some(value);
    var check := (i: nat) => FromApi(env.individualChecks(iface.Name(), value, i));
    var calls;
    r, calls := Retry(CheckAttempts, check);
    forall i | 0 <= i
      ensures check(i) == FromApi(env.individualChecks(iface.Name(), value, i))
      ensures check(i).Ok? || Retryable(check(i))
    {
    }
    RetryWithoutPanics(CheckAttempts, check, 0);
  }

  /** Removing every endpoint from a record's aggregate leaves nothing. */
  lemma NothingLeft(d: Data)
    ensures ToAggregate(d) - (set e | e in Endpoints) == map[]
  {
    var m := ToAggregate(d) - (set e | e in Endpoints);
    assert m.Keys == {};
  }

  /**
   * The unset loop over the property interface and the check after it. The loop's first
   * call is the client's call number `sent`.
   */
  method UnsetPhase(env: DeviceEnv, sent: nat) returns (r: Outcome<()>, requests: seq<Request>, waits: nat)
    ensures requests <= PlannedUnsets(DeviceProperty.Name())
    ensures r.Ok? <==> ClientAccepts(env, sent, sent + |Endpoints|) && PropertiesCleared(env)
    ensures r.Ok? ==> requests == PlannedUnsets(DeviceProperty.Name())
    ensures waits == |requests| || (waits + 1 == |requests| && r == Err(Error(Client)))
  {
    var aggregate := Fixture();
    var unset;
    unset, requests, waits := UnsetEach(DeviceProperty.Name(), Endpoints, aggregate, env.clientOk, sent);
    if unset.Err? {
      return Err(unset.error), requests, waits;
    }
    var check := (i: nat) => PropertyCheck(env.propertyPolls(i));
    var calls;
    r, calls := Retry(CheckAttempts, check);
    forall i | 0 <= i
      ensures check(i) == PropertyCheck(env.propertyPolls(i))
      ensures check(i).Ok? || Retryable(check(i))
    {
    }
    RetryWithoutPanics(CheckAttempts, check, 0);
  }

  /** The client accepts a range of calls exactly when it accepts both halves of it. */
  lemma AcceptsSplit(env: DeviceEnv, a: nat, b: nat, c: nat)
    requires a <= b <= c
    ensures ClientAccepts(env, a, c) <==> ClientAccepts(env, a, b) && ClientAccepts(env, b, c)
  {
  }

  /**
   * `send_device_data`: the aggregate phase, the datastream and property send loops (each
   * followed by its check), and the unset loop (followed by the property check), stopping
   * at the first failure. The two send loops run as written, so each individual check is
   * asked about the emptied object (see `IndividualPhaseAsWritten`). The client only ever receives a prefix of `ExpectedRequests()`,
   * all of it on success, and the barrier is waited once after each accepted call.
   */
  method SendDeviceData(env: DeviceEnv) returns (r: Outcome<()>, requests: seq<Request>, waits: nat)
    ensures requests <= ExpectedRequests()
    ensures r.Ok? <==>
              && ClientAccepts(env, 0, 1 + 3 * |Endpoints|)
              && AggregateSeen(env)
              && IndividualsSeen(env, DeviceDatastream.Name(), map[])
              && IndividualsSeen(env, DeviceProperty.Name(), map[])
              && PropertiesCleared(env)
    ensures r.Ok? ==> requests == ExpectedRequests() && waits == 1 + 3 * |Endpoints|
    ensures waits == |requests| || (waits + 1 == |requests| && r == Err(Error(Client)))
  {
    var n := |Endpoints|;
    var head := ExpectedRequests()[..1];
    var datastream := PlannedSends(DeviceDatastream.Name());
    var property := PlannedSends(DeviceProperty.Name());
    var unsets := PlannedUnsets(DeviceProperty.Name());
    assert ExpectedRequests() == head + datastream + property + unsets;
    AcceptsSplit(env, 0, 1, 1 + 3 * n);
    AcceptsSplit(env, 1, 1 + n, 1 + 3 * n);
    AcceptsSplit(env, 1 + n, 1 + 2 * n, 1 + 3 * n);

    var q, w, checked;
    r, requests, waits := AggregatePhase(env);
    PrefixOfPlan([], requests, head, datastream + property + unsets);
    if r.Err? {
      return;
    }

    r, q, w, checked := IndividualPhaseAsWritten(DeviceDatastream, env, 1);
    PrefixOfPlan(requests, q, datastream, property + unsets);
    requests, waits := requests + q, waits + w;
    if r.Err? {
      return;
    }

    r, q, w, checked := IndividualPhaseAsWritten(DeviceProperty, env, 1 + n);
    PrefixOfPlan(requests, q, property, unsets);
    requests, waits := requests + q, waits + w;
    if r.Err? {
      return;
    }

    r, q, w := UnsetPhase(env, 1 + 2 * n);
    PrefixOfPlan(requests, q, unsets, []);
    requests, waits := requests + q, waits + w;
  }
}
