/**
 * `e2e_test`: wait until the message hub lists the six interfaces, run the device half,
 * run the server half, then close the node and the hub. Each stage runs only when every
 * earlier one passed.
 */
module EndToEnd {
  import opened Results
  import opened Interfaces
  import Discovery
  import DeviceSide
  import ServerSide

  /** Within twenty attempts the hub reports the six interfaces. */
  ghost predicate HubReady(polls: nat -> Result<seq<string>, ErrorKind>) {
    exists i | 0 <= i < Discovery.DiscoveryAttempts :: Discovery.DiscoveryAttempt(polls(i)).Ok?
  }

  /**
   * Everything the device half needs to pass, as the code is written: the two individual
   * checks are asked about the emptied object.
   */
  ghost predicate DevicePasses(env: DeviceSide.DeviceEnv) {
    && DeviceSide.ClientAccepts(env, 0, 1 + 3 * |Endpoints|)
    && DeviceSide.AggregateSeen(env)
    && DeviceSide.IndividualsSeen(env, DeviceDatastream.Name(), map[])
    && DeviceSide.IndividualsSeen(env, DeviceProperty.Name(), map[])
    && DeviceSide.PropertiesCleared(env)
  }

  /**
   * The whole run. `polls` are the hub's answers to the discovery check, `device` and
   * `server` the two halves' environments, and `closeOk` whether `node.close()` succeeds.
   * It passes exactly when every stage passes; nothing reaches the device client before
   * the hub is ready, and nothing is published by the API before the device half passed.
   */
  method E2eTest(polls: nat -> Result<seq<string>, ErrorKind>, device: DeviceSide.DeviceEnv,
                 server: ServerSide.ServerEnv, closeOk: bool)
    returns (r: Outcome<()>, requests: seq<DeviceSide.Request>, injections: seq<ServerSide.Injection>)
    requires ServerSide.Enumerates(server.datastreamOrder, ToAggregate(DefaultData))
    requires ServerSide.Enumerates(server.propertyOrder, ToAggregate(DefaultData))
    requires ServerSide.Enumerates(server.unsetOrder, ToAggregate(DefaultData))
    ensures r.Ok? <==>
              HubReady(polls) && DevicePasses(device) && ServerSide.AllStepsPass(server) && closeOk
    ensures !HubReady(polls) ==> r == Err(Error(TooManyAttempts)) && requests == [] && injections == []
    ensures !DevicePasses(device) ==> r.Err? && injections == []
    ensures requests <= DeviceSide.ExpectedRequests()
    ensures injections <= ServerSide.PlannedInjections(server)
    ensures r.Ok? ==> requests == DeviceSide.ExpectedRequests() && injections == ServerSide.PlannedInjections(server)
    ensures r.Ok? ==> |injections| == 1 + 3 * |Endpoints|
    ensures HubReady(polls) && DevicePasses(device) && ServerSide.AllStepsPass(server) && !closeOk ==>
              r == Err(Error(Close))
  {
    requests, injections := [], [];
    var attempts, waits;
    r, attempts := Discovery.Discover(polls);
    if r.Err? {
      return;
    }
    r, requests, waits := DeviceSide.SendDeviceData(device);
    if r.Err? {
      return;
    }
    r, injections := ServerSide.ReceiveServerData(server);
    if r.Err? {
      return;
    }
    if !closeOk {
      return Err(Error(Close)), requests, injections;
    }
  }
}
