/** The StorageCluster spec the controller asks for (getDesired*StorageCluster and
    reconcileStorageCluster), and what repeated reconciles make of its size. */
module StorageClusters {
  import opened Decimals
  import opened Prelude
  import Float64

  datatype DeploymentType = Converged | Consumer | Provider | Other(name: string)

  datatype Strategy = Strict | Untouched

  datatype DeviceSet = DeviceSet(name: string, count: int, layout: string)

  datatype External = External(onboardingTicket: string, providerEndpoint: string, capacity: string)

  datatype StorageClusterSpec = StorageClusterSpec(
    layout: string,
    deviceSets: seq<DeviceSet>,
    multiCloudGateway: string,
    external: External)

  datatype SpecError = InvalidSize | InvalidMCG | InvalidDeploymentType

  type Params = map<string, string>

  const SIZE_KEY := "size"
  const UNIT_KEY := "unit"
  const TICKET_KEY := "onboarding-ticket"
  const ENDPOINT_KEY := "storage-provider-endpoint"
  const ENABLE_MCG_KEY := "enable-mcg"
  const DEVICE_SET_NAME := "default"

  const BLANK := StorageClusterSpec("", [], "", External("", "", ""))
  const CONVERGED_TEMPLATE :=
    StorageClusterSpec("converged", [DeviceSet(DEVICE_SET_NAME, 1, "1Ti")], "ignore", External("", "", ""))
  const PROVIDER_TEMPLATE :=
    StorageClusterSpec("provider", [DeviceSet(DEVICE_SET_NAME, 1, "4Ti")], "ignore", External("", "", ""))
  const CONSUMER_TEMPLATE := StorageClusterSpec("consumer", [], "ignore", External("", "", ""))

  /** Reading an absent key of a Go map gives the empty string. */
  function Param(params: Params, key: string): string {
    if key in params then params[key] else ""
  }

  /** strconv.Atoi: an optional sign and at least one digit, within 64 bits. */
  function Atoi(s: string): Option<int> {
    var digits := if s != "" && (s[0] == '-' || s[0] == '+') then s[1..] else s;
    if digits == "" || !AllDigits(digits) then None
    else
      var n := if s[0] == '-' then -(DigitsValue(digits) as int) else DigitsValue(digits);
      if Float64.IsInt64(n) then Some(n) else None
  }

  /** strconv.ParseBool */
  function ParseBool(s: string): Option<bool> {
    if s in ["1", "t", "T", "TRUE", "true", "True"] then Some(true)
    else if s in ["0", "f", "F", "FALSE", "false", "False"] then Some(false)
    else None
  }

  function McgEnabled(params: Params): Option<bool> {
    ParseBool(if ENABLE_MCG_KEY in params then params[ENABLE_MCG_KEY] else "false")
  }

  /** Index of the first device set with this name. */
  function DeviceSetIndex(sets: seq<DeviceSet>, name: string): (r: Option<nat>)
    ensures r.Some? ==> r.value < |sets| && sets[r.value].name == name
    ensures r.Some? ==> forall i :: 0 <= i < r.value ==> sets[i].name != name
    ensures r.None? ==> forall i :: 0 <= i < |sets| ==> sets[i].name != name
  {
    if sets == [] then None
    else if sets[0].name == name then Some(0)
    else match DeviceSetIndex(sets[1..], name)
         case None => None
         case Some(i) => Some(i + 1)
  }

  /** The size of the default device set, 0 if there is none. */
  function DeviceCount(spec: StorageClusterSpec): int {
    match DeviceSetIndex(spec.deviceSets, DEVICE_SET_NAME)
    case None => 0
    case Some(i) => spec.deviceSets[i].count
  }

  /** The count the addon parameters ask for. */
  function RequestedCount(deployment: DeploymentType, size: int): int {
    if deployment.Provider? then Float64.ProviderDeviceSetCount(size) else size
  }

  predicate Sized(deployment: DeploymentType) {
    deployment.Converged? || deployment.Provider?
  }

  function Sizing(deployment: DeploymentType, count: int, mcg: bool): StorageClusterSpec
    requires Sized(deployment)
  {
    var base := if deployment.Provider? then PROVIDER_TEMPLATE else CONVERGED_TEMPLATE;
    base.(deviceSets := [base.deviceSets[0].(count := count)],
          multiCloudGateway := if mcg then "manage" else "ignore")
  }

  /** What a strict reconcile wants, given the spec the cluster has now. */
  function DesiredSpec(deployment: DeploymentType, params: Params, current: StorageClusterSpec)
    : Result<StorageClusterSpec, SpecError>
  {
    match deployment
    case Other(_) => Err(InvalidDeploymentType)
    case Consumer =>
      (match McgEnabled(params)
       case None => Err(InvalidMCG)
       case Some(mcg) =>
         Ok(CONSUMER_TEMPLATE.(
            multiCloudGateway := if mcg then "manage" else "ignore",
            external := External(Param(params, TICKET_KEY), Param(params, ENDPOINT_KEY),
                                 Param(params, SIZE_KEY) + Param(params, UNIT_KEY)))))
    case _ =>
      match Atoi(Param(params, SIZE_KEY))
      case None => Err(InvalidSize)
      case Some(size) =>
        match McgEnabled(params)
        case None => Err(InvalidMCG)
        case Some(mcg) =>
          Ok(Sizing(deployment, Max(DeviceCount(current), RequestedCount(deployment, size)), mcg))
  }

  /** The mutation reconcileStorageCluster applies to the spec: only strict mode touches it. */
  function Mutated(deployment: DeploymentType, strategy: Strategy, params: Params, current: StorageClusterSpec)
    : Result<StorageClusterSpec, SpecError>
  {
    if strategy.Untouched? then Ok(current) else DesiredSpec(deployment, params, current)
  }

  // ---- the controller's own code ----

  method FindStorageDeviceSet(sets: seq<DeviceSet>, name: string) returns (index: Option<nat>)
    ensures index == DeviceSetIndex(sets, name)
  {
    for i := 0 to |sets|
      invariant forall j :: 0 <= j < i ==> sets[j].name != name
    {
      if sets[i].name == name {
        return Some(i);
      }
    }
    return None;
  }

  /** Writes the count into the device set at `index`, never below the current one. */
  method SetDeviceSetCount(sets: seq<DeviceSet>, index: nat, desired: int, current: int)
    returns (updated: seq<DeviceSet>)
    requires index < |sets|
    ensures updated == sets[index := sets[index].(count := Max(current, desired))]
  {
    if current <= desired {
      updated := sets[index := sets[index].(count := desired)];
    } else {
      updated := sets[index := sets[index].(count := current)];
    }
  }

  method GetDesiredSizedStorageCluster(deployment: DeploymentType, params: Params, current: StorageClusterSpec)
    returns (desired: Result<StorageClusterSpec, SpecError>)
    requires Sized(deployment)
    ensures desired == DesiredSpec(deployment, params, current)
  {
    var enableMCG := "false";
    if ENABLE_MCG_KEY in params {
      enableMCG := params[ENABLE_MCG_KEY];
    }
    var size := Atoi(Param(params, SIZE_KEY));
    if size.None? {
      return Err(InvalidSize);
    }
    var desiredCount := size.value;
    if deployment.Provider? {
      desiredCount := Float64.ProviderDeviceSetCount(size.value);
    }
    var currentCount := 0;
    var found := FindStorageDeviceSet(current.deviceSets, DEVICE_SET_NAME);
    if found.Some? {
      currentCount := current.deviceSets[found.value].count;
    }
    var sc := if deployment.Provider? then PROVIDER_TEMPLATE else CONVERGED_TEMPLATE;
    var ds := FindStorageDeviceSet(sc.deviceSets, DEVICE_SET_NAME);
    assert DeviceSetIndex(sc.deviceSets, DEVICE_SET_NAME) == Some(0);
    var sets := SetDeviceSetCount(sc.deviceSets, ds.value, desiredCount, currentCount);
    assert sets == [sc.deviceSets[0].(count := Max(currentCount, desiredCount))];
    sc := sc.(deviceSets := sets);
    var mcg := ParseBool(enableMCG);
    if mcg.None? {
      return Err(InvalidMCG);
    }
    if mcg.value {
      sc := sc.(multiCloudGateway := "manage");
    }
    return Ok(sc);
  }

  method GetDesiredConsumerStorageCluster(params: Params, current: StorageClusterSpec)
    returns (desired: Result<StorageClusterSpec, SpecError>)
    ensures desired == DesiredSpec(Consumer, params, current)
  {
    var storageSize := Param(params, SIZE_KEY);
    var storageUnit := Param(params, UNIT_KEY);
    var onboardingTicket := Param(params, TICKET_KEY);
    var storageProviderEndpoint := Param(params, ENDPOINT_KEY);
    var enableMCG := "false";
    if ENABLE_MCG_KEY in params {
      enableMCG := params[ENABLE_MCG_KEY];
    }
    var sc := CONSUMER_TEMPLATE;
    sc := sc.(external := sc.external.(onboardingTicket := onboardingTicket));
    sc := sc.(external := sc.external.(providerEndpoint := storageProviderEndpoint));
    sc := sc.(external := sc.external.(capacity := storageSize + storageUnit));
    var mcg := ParseBool(enableMCG);
    if mcg.None? {
      return Err(InvalidMCG);
    }
    if mcg.value {
      sc := sc.(multiCloudGateway := "manage");
    }
    return Ok(sc);
  }

  // ---- what the add-on's parameters mean ----

  predicate GatewayReadable(params: Params) {
    "enable-mcg" in params ==> ParseBool(params["enable-mcg"]).Some?
  }

  predicate GatewayAsked(params: Params) {
    "enable-mcg" in params && ParseBool(params["enable-mcg"]) == Some(true)
  }

  predicate SizeReadable(params: Params) {
    "size" in params && Atoi(params["size"]).Some?
  }

  /** Everything a strict reconcile needs of the parameters is there and makes sense. */
  predicate Readable(deployment: DeploymentType, params: Params) {
    match deployment
    case Consumer => GatewayReadable(params)
    case Other(_) => false
    case _ => SizeReadable(params) && GatewayReadable(params)
  }

  /** The value of a parameter, and nothing if it is not given. */
  predicate Gives(params: Params, key: string, value: string) {
    (key in params ==> value == params[key]) && (key !in params ==> value == "")
  }

  /** Numbers are read as they are printed. */
  lemma AtoiOfPrinted(n: nat)
    requires n < Float64.TWO63
    ensures Atoi(Decimal(n)) == Some(n)
    ensures Atoi("+" + Decimal(n)) == Some(n)
    ensures Atoi("-" + Decimal(n)) == Some(-(n as int))
  {
    var s := Decimal(n);
    ValueOfDecimal(n);
    assert ("+" + s)[1..] == s && ("-" + s)[1..] == s;
    assert IsDigit(s[0]);
  }

  lemma AtoiOfNothing()
    ensures Atoi("") == None
  {
  }

  /** The size of a cluster is the count of its first device set of the name "default". */
  lemma DeviceCountMeaning(spec: StorageClusterSpec, i: nat)
    ensures (forall k :: 0 <= k < |spec.deviceSets| ==> spec.deviceSets[k].name != "default") ==> DeviceCount(spec) == 0
    ensures i < |spec.deviceSets| && spec.deviceSets[i].name == "default"
            && (forall k :: 0 <= k < i ==> spec.deviceSets[k].name != "default")
            ==> DeviceCount(spec) == spec.deviceSets[i].count
  {
  }

  /** Converged and provider clusters: the count is what "size" asks for, in sets of one or of four TiB, but never less
      than now. */
  lemma SizedSpecMeaning(deployment: DeploymentType, params: Params, current: StorageClusterSpec)
    requires Sized(deployment)
    ensures var r := DesiredSpec(deployment, params, current);
            && (r.Ok? <==> SizeReadable(params) && GatewayReadable(params))
            && (r.Ok? ==>
                  var size := Atoi(params["size"]).value;
                  var asked := if deployment.Provider? then Float64.ProviderDeviceSetCount(size) else size;
                  var count := if asked < DeviceCount(current) then DeviceCount(current) else asked;
                  && r.value.layout == (if deployment.Provider? then "provider" else "converged")
                  && r.value.deviceSets == [DeviceSet("default", count, if deployment.Provider? then "4Ti" else "1Ti")]
                  && r.value.multiCloudGateway == (if GatewayAsked(params) then "manage" else "ignore")
                  && r.value.external == External("", "", ""))
  {
    AtoiOfNothing();
    assert Atoi(Param(params, SIZE_KEY)).Some? <==> SizeReadable(params);
  }

  /** Consumer clusters: ticket and endpoint of the provider are the ones given, whatever the spec is now. */
  lemma ConsumerSpecMeaning(params: Params, current: StorageClusterSpec, other: StorageClusterSpec)
    ensures var r := DesiredSpec(Consumer, params, current);
            && r == DesiredSpec(Consumer, params, other)
            && (r.Ok? <==> GatewayReadable(params))
            && (r.Ok? ==>
                  && r.value.layout == "consumer" && r.value.deviceSets == []
                  && r.value.multiCloudGateway == (if GatewayAsked(params) then "manage" else "ignore")
                  && Gives(params, "onboarding-ticket", r.value.external.onboardingTicket)
                  && Gives(params, "storage-provider-endpoint", r.value.external.providerEndpoint)
                  && ("size" in params && "unit" in params ==>
                        r.value.external.capacity == params["size"] + params["unit"]))
  {
  }

  // ---- what repeated reconciles do ----

  lemma CountOfSizing(deployment: DeploymentType, count: int, mcg: bool)
    requires Sized(deployment)
    ensures DeviceCount(Sizing(deployment, count, mcg)) == count
  {
    var sets := Sizing(deployment, count, mcg).deviceSets;
    assert sets[0].name == DEVICE_SET_NAME;
  }

  /** A strict reconcile never shrinks the default device set, grows it to what was asked for, and
      turns the gateway to "manage" exactly when the parameter is true, whatever it was before. */
  lemma StrictReconcileMeaning(deployment: DeploymentType, params: Params, current: StorageClusterSpec)
    requires Sized(deployment)
    ensures var r := DesiredSpec(deployment, params, current);
            && (r.Ok? <==> Atoi(Param(params, SIZE_KEY)).Some? && McgEnabled(params).Some?)
            && (r.Ok? ==>
                  var size := Atoi(Param(params, SIZE_KEY)).value;
                  && DeviceCount(r.value) == Max(DeviceCount(current), RequestedCount(deployment, size))
                  && (r.value.multiCloudGateway == "manage" <==> McgEnabled(params) == Some(true)))
  {
    var r := DesiredSpec(deployment, params, current);
    if r.Ok? {
      var size := Atoi(Param(params, SIZE_KEY)).value;
      CountOfSizing(deployment, Max(DeviceCount(current), RequestedCount(deployment, size)), McgEnabled(params).value);
    }
  }

  /** Reconciling the result again, with the same parameters, changes nothing. */
  lemma MutatedIsIdempotent(deployment: DeploymentType, strategy: Strategy, params: Params, current: StorageClusterSpec)
    requires Mutated(deployment, strategy, params, current).Ok?
    ensures var once := Mutated(deployment, strategy, params, current).value;
            Mutated(deployment, strategy, params, once) == Ok(once)
  {
    if strategy.Strict? && Sized(deployment) {
      StrictReconcileMeaning(deployment, params, current);
    }
  }

  lemma MutatedNeverShrinks(deployment: DeploymentType, strategy: Strategy, params: Params, current: StorageClusterSpec)
    requires Sized(deployment)
    requires Mutated(deployment, strategy, params, current).Ok?
    ensures DeviceCount(current) <= DeviceCount(Mutated(deployment, strategy, params, current).value)
  {
    if strategy.Strict? {
      StrictReconcileMeaning(deployment, params, current);
    }
  }

  /** One reconcile with the strategy and parameters of that moment. */
  datatype Round = Round(strategy: Strategy, params: Params)

  /** A reconcile that fails leaves the spec as it is. */
  function AfterRound(deployment: DeploymentType, spec: StorageClusterSpec, round: Round): StorageClusterSpec {
    match Mutated(deployment, round.strategy, round.params, spec)
    case Ok(s) => s
    case Err(_) => spec
  }

  function AfterRounds(deployment: DeploymentType, spec: StorageClusterSpec, rounds: seq<Round>): StorageClusterSpec
    decreases |rounds|
  {
    if rounds == [] then spec
    else AfterRounds(deployment, AfterRound(deployment, spec, rounds[0]), rounds[1..])
  }

  /** The count a round asks for, if it is strict and its parameters are readable. */
  function Demand(deployment: DeploymentType, round: Round): Option<int> {
    if round.strategy.Untouched? || McgEnabled(round.params).None? then None
    else match Atoi(Param(round.params, SIZE_KEY))
         case None => None
         case Some(size) => Some(RequestedCount(deployment, size))
  }

  predicate IsDemanded(deployment: DeploymentType, rounds: seq<Round>, count: int) {
    exists i :: 0 <= i < |rounds| && Demand(deployment, rounds[i]) == Some(count)
  }

  /** After any rounds the count is the maximum of the initial one and everything strictly asked for:
      it bounds all of these from above and is one of them. */
  lemma {:induction false} RoundsReachTheMaximum(deployment: DeploymentType, spec: StorageClusterSpec,
                                                 rounds: seq<Round>)
    requires Sized(deployment)
    ensures var count := DeviceCount(AfterRounds(deployment, spec, rounds));
            && DeviceCount(spec) <= count
            && (forall i :: 0 <= i < |rounds| && Demand(deployment, rounds[i]).Some?
                            ==> Demand(deployment, rounds[i]).value <= count)
            && (count == DeviceCount(spec) || IsDemanded(deployment, rounds, count))
    decreases |rounds|
  {
    if rounds != [] {
      var next := AfterRound(deployment, spec, rounds[0]);
      StrictReconcileMeaning(deployment, rounds[0].params, spec);
      RoundsReachTheMaximum(deployment, next, rounds[1..]);
      var count := DeviceCount(AfterRounds(deployment, spec, rounds));
      forall i | 0 <= i < |rounds| && Demand(deployment, rounds[i]).Some?
        ensures Demand(deployment, rounds[i]).value <= count
      {
        if i > 0 {
          assert rounds[i] == rounds[1..][i - 1];
        }
      }
      if IsDemanded(deployment, rounds[1..], count) {
        var i :| 0 <= i < |rounds[1..]| && Demand(deployment, rounds[1..][i]) == Some(count);
        assert rounds[i + 1] == rounds[1..][i];
      } else if count != DeviceCount(spec) {
        assert Demand(deployment, rounds[0]) == Some(count);
      }
    }
  }

  /** In particular a cluster that starts without a negative count never gets one, even when
      negative sizes are asked for. */
  lemma CountNeverNegative(deployment: DeploymentType, rounds: seq<Round>)
    requires Sized(deployment)
    ensures 0 <= DeviceCount(AfterRounds(deployment, BLANK, rounds))
  {
    RoundsReachTheMaximum(deployment, BLANK, rounds);
  }
}
