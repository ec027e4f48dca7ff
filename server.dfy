/**
 * The server half of the end-to-end test, `receive_server_data`: the inspection API
 * publishes the aggregate fixture, every entry of the datastream fixture, every entry of
 * the property fixture, and unsets every property, and after each publication the device
 * must receive exactly one matching event.
 *
 * The API's answer to its `n`-th call is `apiOk(n)` and the `n`-th event the node receives
 * is `events(n)`. Each step makes one API call followed by one receive, so the `n`-th call
 * and the `n`-th event belong to the same step: step 0 is the aggregate, then one step
 * per entry of each of the three loops.
 */
module ServerSide {
  import opened Results
  import opened Ordering
  import opened Interfaces
  import opened Driver

  /** The payload of a received event (the SDK's `Value`). */
  datatype EventValue =
    | ObjectValue(obj: Object)
    | IndividualValue(value: AstarteType)
    | UnsetMarker

  /** A received event: interface name, path and payload. */
  datatype Event = Event(iface: string, path: string, data: EventValue)

  /** A publication the test asks of the inspection API. */
  datatype Injection =
    | InjectObject(iface: string, path: string, data: Data)                // `send_interface`
    | InjectIndividual(iface: string, key: string, value: AstarteType)    // `send_individual`
    | InjectUnset(iface: string, key: string)                             // `unset`

  /**
   * The server's side of the run. The three orders are the iteration orders of the
   * fixture's aggregate object in the three loops; the object is a library type, so its
   * order is an input.
   */
  datatype ServerEnv = ServerEnv(
    apiOk: nat -> bool,
    events: nat -> Result<Event, ErrorKind>,
    datastreamOrder: seq<string>,
    propertyOrder: seq<string>,
    unsetOrder: seq<string>)

  /** Iterating over `m` yields each of its keys once. */
  ghost predicate Enumerates(order: seq<string>, m: Object) {
    Distinct(order) && (set k | k in order) == m.Keys
  }

  /**
   * The aggregate step: the API publishes the fixture object; the event received must be
   * on `ServerAggregate` at `/sendor_1` and carry exactly the fixture's aggregate.
   */
  function AggregateStep(apiOk: bool, event: Result<Event, ErrorKind>): (o: Outcome<()>)
    ensures o.Ok? <==>
              apiOk && event == Ok(Event(ServerAggregate.Name(), SensorPath, ObjectValue(ToAggregate(DefaultData))))
    ensures apiOk && event.Ok? && !event.value.data.ObjectValue? ==>
              (o.Err? && o.error.Panic?) || o == Err(Error(NotAnObject))
  {
    if !apiOk then Err(Error(Api))
    else if event.Err? then Err(Error(Recv))
    else if event.value.iface != ServerAggregate.Name() then Err(Panic(EventInterface))
    else if event.value.path != SensorPath then Err(Panic(EventPath))
    else if !event.value.data.ObjectValue? then Err(Error(NotAnObject))
    else if event.value.data.obj != ToAggregate(DefaultData) then Err(Panic(EventData))
    else Ok(())
  }

  /**
   * One step of a value loop: the API publishes `value` at `key` of interface `name`; the
   * event received must be on `name`, at `"/" + key`, and carry `value` as an individual.
   */
  function IndividualStep(name: string, key: string, value: AstarteType, apiOk: bool, event: Result<Event, ErrorKind>)
    : (o: Outcome<()>)
    ensures o.Ok? <==> apiOk && event == Ok(Event(name, EndpointPath(key), IndividualValue(value)))
    ensures apiOk && event.Ok? && !event.value.data.IndividualValue? ==>
              (o.Err? && o.error.Panic?) || o == Err(Error(NotAnObject))
  {
    if !apiOk then Err(Error(Api))
    else if event.Err? then Err(Error(Recv))
    else if event.value.iface != name then Err(Panic(EventInterface))
    else if event.value.path != EndpointPath(key) then Err(Panic(EventPath))
    else if !event.value.data.IndividualValue? then Err(Error(NotAnObject))
    else if event.value.data.value != value then Err(Panic(EventData))
    else Ok(())
  }

  /**
   * One step of the unset loop: the API unsets `key` of interface `name`; the event
   * received must be on `name`, at `"/" + key`, and carry the unset marker.
   */
  function UnsetStep(name: string, key: string, apiOk: bool, event: Result<Event, ErrorKind>): (o: Outcome<()>)
    ensures o.Ok? <==> apiOk && event == Ok(Event(name, EndpointPath(key), UnsetMarker))
    ensures apiOk && event.Ok? && !o.Ok? ==> o.Err? && o.error.Panic?
  {
    if !apiOk then Err(Error(Api))
    else if event.Err? then Err(Error(Recv))
    else if event.value.iface != name then Err(Panic(EventInterface))
    else if event.value.path != EndpointPath(key) then Err(Panic(EventPath))
    else if event.value.data != UnsetMarker then Err(Panic(EventData))
    else Ok(())
  }

  /** The `i`-th step of a value loop whose first step is number `at`. */
  function ValueStepAt(name: string, data: Object, order: seq<string>, env: ServerEnv, at: nat, i: nat): Outcome<()>
    requires i < |order| && order[i] in data
  {
    IndividualStep(name, order[i], data[order[i]], env.apiOk(at + i), env.events(at + i))
  }

  /** The `i`-th step of the unset loop whose first step is number `at`. */
  function UnsetStepAt(name: string, order: seq<string>, env: ServerEnv, at: nat, i: nat): Outcome<()>
    requires i < |order|
  {
    UnsetStep(name, order[i], env.apiOk(at + i), env.events(at + i))
  }

  /** The publications a value loop makes for interface `name` when nothing fails. */
  function PlannedValues(name: string, data: Object, order: seq<string>): (q: seq<Injection>)
    requires forall k | k in order :: k in data
    ensures |q| == |order|
    ensures forall i | 0 <= i < |q| :: q[i].InjectIndividual? && q[i].key == order[i]
  {
    seq(|order|, i requires 0 <= i < |order| => InjectIndividual(name, order[i], data[order[i]]))
  }

  /** The unsets the last loop makes for interface `name` when nothing fails. */
  function PlannedUnsets(name: string, order: seq<string>): (q: seq<Injection>)
    ensures |q| == |order|
    ensures forall i | 0 <= i < |q| :: q[i].InjectUnset? && q[i].key == order[i]
  {
    seq(|order|, i requires 0 <= i < |order| => InjectUnset(name, order[i]))
  }

  /**
   * A value loop of `receive_server_data`: for each entry `(k, v)` of the object, in its
   * iteration order, publish it and check the one event that follows. It stops at the
   * first step that fails, with that step's failure.
   */
  method ReceiveIndividuals(name: string, data: Object, order: seq<string>, env: ServerEnv, at: nat)
    returns (r: Outcome<()>, injections: seq<Injection>)
    requires forall k | k in order :: k in data
    ensures injections <= PlannedValues(name, data, order)
    ensures |injections| <= |order|
    ensures forall i | 0 <= i < |injections| :: injections[i] == InjectIndividual(name, order[i], data[order[i]])
    ensures forall i | 0 <= i < |injections| - 1 :: ValueStepAt(name, data, order, env, at, i).Ok?
    ensures r.Ok? <==> forall i | 0 <= i < |order| :: ValueStepAt(name, data, order, env, at, i).Ok?
    ensures r.Ok? ==> injections == PlannedValues(name, data, order)
    ensures r.Err? ==> 0 < |injections| && r == ValueStepAt(name, data, order, env, at, |injections| - 1)
  {
    injections := [];
    var i := 0;
    while i < |order|
      invariant i <= |order| && |injections| == i
      invariant forall j | 0 <= j < i ::
                  injections[j] == InjectIndividual(name, order[j], data[order[j]])
                  && ValueStepAt(name, data, order, env, at, j).Ok?
    {
      var key := order[i];
      var value := data[key];
      injections := injections + [InjectIndividual(name, key, value)];
      var step := IndividualStep(name, key, value, env.apiOk(at + i), env.events(at + i));
      assert step == ValueStepAt(name, data, order, env, at, i);
      if step.Err? {
        assert injections == PlannedValues(name, data, order)[..i + 1];
        return step, injections;
      }
      i := i + 1;
    }
    assert injections == PlannedValues(name, data, order);
    r := Ok(());
  }

  /**
   * The unset loop of `receive_server_data`: for each key of the property object, in its
   * iteration order, unset it and check the one event that follows.
   */
  method ReceiveUnsets(name: string, order: seq<string>, env: ServerEnv, at: nat)
    returns (r: Outcome<()>, injections: seq<Injection>)
    ensures injections <= PlannedUnsets(name, order)
    ensures |injections| <= |order|
    ensures forall i | 0 <= i < |injections| :: injections[i] == InjectUnset(name, order[i])
    ensures forall i | 0 <= i < |injections| - 1 :: UnsetStepAt(name, order, env, at, i).Ok?
    ensures r.Ok? <==> forall i | 0 <= i < |order| :: UnsetStepAt(name, order, env, at, i).Ok?
    ensures r.Ok? ==> injections == PlannedUnsets(name, order)
    ensures r.Err? ==> 0 < |injections| && r == UnsetStepAt(name, order, env, at, |injections| - 1)
  {
    injections := [];
    var i := 0;
    while i < |order|
      invariant i <= |order| && |injections| == i
      invariant forall j | 0 <= j < i ::
                  injections[j] == InjectUnset(name, order[j]) && UnsetStepAt(name, order, env, at, j).Ok?
    {
      var key := order[i];
      injections := injections + [InjectUnset(name, key)];
      var step := UnsetStep(name, key, env.apiOk(at + i), env.events(at + i));
      assert step == UnsetStepAt(name, order, env, at, i);
      if step.Err? {
        assert injections == PlannedUnsets(name, order)[..i + 1];
        return step, injections;
      }
      i := i + 1;
    }
    assert injections == PlannedUnsets(name, order);
    r := Ok(());
  }

  /** An enumeration of the fixture's aggregate has one key per endpoint. */
  lemma EnumerationLength(order: seq<string>)
    requires Enumerates(order, ToAggregate(DefaultData))
    ensures |order| == |Endpoints|
  {
    EndpointsCatalog();
    DistinctCardinality(order);
  }

  /** The number of the first step of each loop: the aggregate is step 0. */
  const DatastreamStart: nat := 1
  const PropertyStart: nat := 1 + |Endpoints|
  const UnsetStart: nat := 1 + 2 * |Endpoints|

  /**
   * Every publication `receive_server_data` asks of the API when nothing fails: the
   * aggregate fixture, then one per entry of each loop, in that loop's iteration order.
   */
  function PlannedInjections(env: ServerEnv): (q: seq<Injection>)
    requires Enumerates(env.datastreamOrder, ToAggregate(DefaultData))
    requires Enumerates(env.propertyOrder, ToAggregate(DefaultData))
    ensures |q| == 1 + |env.datastreamOrder| + |env.propertyOrder| + |env.unsetOrder|
    ensures q[0] == InjectObject(ServerAggregate.Name(), SensorPath, DefaultData)
  {
    var fixture := ToAggregate(DefaultData);
    [InjectObject(ServerAggregate.Name(), SensorPath, DefaultData)]
      + PlannedValues(ServerDatastream.Name(), fixture, env.datastreamOrder)
      + PlannedValues(ServerProperty.Name(), fixture, env.propertyOrder)
      + PlannedUnsets(ServerProperty.Name(), env.unsetOrder)
  }

  /**
   * Step `n` of the run is the `n`-th planned publication: the loops' publications sit at
   * `DatastreamStart`, `PropertyStart` and `UnsetStart` on, the numbers under which
   * `AllStepsPass` checks their events.
   */
  lemma PublicationOfStep(env: ServerEnv, i: nat)
    requires Enumerates(env.datastreamOrder, ToAggregate(DefaultData))
    requires Enumerates(env.propertyOrder, ToAggregate(DefaultData))
    requires Enumerates(env.unsetOrder, ToAggregate(DefaultData))
    ensures |PlannedInjections(env)| == 1 + 3 * |Endpoints|
    ensures |env.datastreamOrder| == |env.propertyOrder| == |env.unsetOrder| == |Endpoints|
    ensures i < |env.datastreamOrder| ==>
              var k := env.datastreamOrder[i];
              PlannedInjections(env)[DatastreamStart + i]
                == InjectIndividual(ServerDatastream.Name(), k, ToAggregate(DefaultData)[k])
    ensures i < |env.propertyOrder| ==>
              var k := env.propertyOrder[i];
              PlannedInjections(env)[PropertyStart + i]
                == InjectIndividual(ServerProperty.Name(), k, ToAggregate(DefaultData)[k])
    ensures i < |env.unsetOrder| ==>
              PlannedInjections(env)[UnsetStart + i] == InjectUnset(ServerProperty.Name(), env.unsetOrder[i])
  {
    EnumerationLength(env.datastreamOrder);
    EnumerationLength(env.propertyOrder);
    EnumerationLength(env.unsetOrder);
  }

  /** Every step of the run: the aggregate, then the three loops, in order. */
  ghost predicate AllStepsPass(env: ServerEnv)
    requires Enumerates(env.datastreamOrder, ToAggregate(DefaultData))
    requires Enumerates(env.propertyOrder, ToAggregate(DefaultData))
  {
    var fixture := ToAggregate(DefaultData);
    && AggregateStep(env.apiOk(0), env.events(0)).Ok?
    && (forall i | 0 <= i < |env.datastreamOrder| ::
          ValueStepAt(ServerDatastream.Name(), fixture, env.datastreamOrder, env, DatastreamStart, i).Ok?)
    && (forall i | 0 <= i < |env.propertyOrder| ::
          ValueStepAt(ServerProperty.Name(), fixture, env.propertyOrder, env, PropertyStart, i).Ok?)
    && (forall i | 0 <= i < |env.unsetOrder| ::
          UnsetStepAt(ServerProperty.Name(), env.unsetOrder, env, UnsetStart, i).Ok?)
  }

  /**
   * `receive_server_data`: the aggregate step, the datastream loop, the property loop and
   * the unset loop, stopping at the first failure. It passes exactly when every step
   * passes. The API is only ever asked for a prefix of `PlannedInjections(env)`, the aggregate
   * first; on success it made all `1 + 3 * |ENDPOINTS|` of them and the node received as many
   * events, one per publication.
   */
  method ReceiveServerData(env: ServerEnv) returns (r: Outcome<()>, injections: seq<Injection>)
    requires Enumerates(env.datastreamOrder, ToAggregate(DefaultData))
    requires Enumerates(env.propertyOrder, ToAggregate(DefaultData))
    requires Enumerates(env.unsetOrder, ToAggregate(DefaultData))
    ensures r.Ok? <==> AllStepsPass(env)
    ensures injections <= PlannedInjections(env)
    ensures r.Ok? ==> injections == PlannedInjections(env) && |injections| == 1 + 3 * |Endpoints|
    ensures 0 < |injections|
  {
    EnumerationLength(env.datastreamOrder);
    EnumerationLength(env.propertyOrder);
    EnumerationLength(env.unsetOrder);
    var fixture := ToAggregate(DefaultData);
    var head := [InjectObject(ServerAggregate.Name(), SensorPath, DefaultData)];
    var datastream := PlannedValues(ServerDatastream.Name(), fixture, env.datastreamOrder);
    var property := PlannedValues(ServerProperty.Name(), fixture, env.propertyOrder);
    var unsets := PlannedUnsets(ServerProperty.Name(), env.unsetOrder);
    assert PlannedInjections(env) == head + datastream + property + unsets;

    injections := head;
    PrefixOfPlan([], injections, head, datastream + property + unsets);
    r := AggregateStep(env.apiOk(0), env.events(0));
    if r.Err? {
      return;
    }

    var more;
    r, more := ReceiveIndividuals(ServerDatastream.Name(), fixture, env.datastreamOrder, env, DatastreamStart);
    PrefixOfPlan(injections, more, datastream, property + unsets);
    injections := injections + more;
    if r.Err? {
      return;
    }

    r, more := ReceiveIndividuals(ServerProperty.Name(), fixture, env.propertyOrder, env, PropertyStart);
    PrefixOfPlan(injections, more, property, unsets);
    injections := injections + more;
    if r.Err? {
      return;
    }

    r, more := ReceiveUnsets(ServerProperty.Name(), env.unsetOrder, env, UnsetStart);
    PrefixOfPlan(injections, more, unsets, []);
    injections := injections + more;
  }
}
