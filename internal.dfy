/** The provider-independent cloud-account registry (Go package `internal`):
    a table from an account's (namespace, name) to its account config, the
    add / remove / lookup protocol on it, selector attachment, and the
    compute-inventory queries that collect records across service configs and
    across accounts.

    The collaborators whose code lies outside the registry (credential
    validation, service-config creation, the credential comparator, the
    periodic-sync scheduler, the resource-filter setter, the translation of
    cached cloud resources into records) appear here through their outcomes:
    a validator's or factory's result is a parameter, and the objects they
    act on carry the state they change (`credentials`, `syncRunning`,
    `filter`). */
module Internal {
  import opened Wrappers

  /** Registry key: `types.NamespacedName`. */
  datatype NamespacedName = NamespacedName(namespace: string, name: string)

  /** The parts of a CloudProviderAccount resource that `AddCloudAccount` reads. */
  datatype CloudProviderAccount = CloudProviderAccount(namespace: string, name: string, pollIntervalInSeconds: int)

  /** The key an account resource is registered under. */
  function AccountKey(account: CloudProviderAccount): NamespacedName {
    NamespacedName(account.namespace, account.name)
  }

  /** A CloudEntitySelector, as an opaque record. */
  datatype Selector = Selector(namespace: string, name: string)

  /** VirtualMachine and NetworkInterface records, reduced to the namespace
      they are created in and the cloud identifier they stand for. */
  datatype VirtualMachine = VirtualMachine(namespace: string, cloudID: string)
  datatype NetworkInterface = NetworkInterface(namespace: string, cloudID: string)

  /** `CloudServiceResourceCRDs`: the records one service config contributes. */
  datatype ResourceCRDs = ResourceCRDs(virtualMachines: seq<VirtualMachine>,
                                       virtualMachineNetworkInterfaces: seq<NetworkInterface>)
  {
    function Append(other: ResourceCRDs): ResourceCRDs {
      ResourceCRDs(virtualMachines + other.virtualMachines,
                   virtualMachineNetworkInterfaces + other.virtualMachineNetworkInterfaces)
    }
  }

  const NoCRDs := ResourceCRDs([], [])

  /** `CloudServiceType`; only the compute type is queried here. */
  datatype CloudServiceType = CloudServiceTypeCompute | OtherServiceType(tag: string)

  /** What the service-config factory creates for one service. */
  datatype ServiceSpec = ServiceSpec(name: string, serviceType: CloudServiceType)

  /** `CloudProviderAccountStatus`. */
  datatype AccountStatus = AccountStatus(error: string)

  datatype Error =
    | AccountNotFound(account: NamespacedName)
    | InventorySyncFailed(account: NamespacedName, cause: string)
    | ValidationFailed(cause: string)
    | ServiceConfigCreationFailed(cause: string)

  /** One VirtualMachine record per cached instance, in the given namespace. */
  function VirtualMachineRecords(namespace: string, ids: seq<string>): seq<VirtualMachine> {
    seq(|ids|, i requires 0 <= i < |ids| => VirtualMachine(namespace, ids[i]))
  }

  /** One NetworkInterface record per cached interface, in the given namespace. */
  function NetworkInterfaceRecords(namespace: string, ids: seq<string>): seq<NetworkInterface> {
    seq(|ids|, i requires 0 <= i < |ids| => NetworkInterface(namespace, ids[i]))
  }

  /** A service config of one account: its name and type are fixed, its
      resource filter and its caches change. */
  class ServiceConfig {
    const name: string
    const serviceType: CloudServiceType
    var filter: Option<Selector>
    var cachedInstances: seq<string>
    var cachedInterfaces: seq<string>
    var cachedVpcIDs: set<string>

    constructor (spec: ServiceSpec)
      ensures name == spec.name && serviceType == spec.serviceType
      ensures filter == None && cachedInstances == [] && cachedInterfaces == [] && cachedVpcIDs == {}
    {
      name := spec.name;
      serviceType := spec.serviceType;
      filter := None;
      cachedInstances := [];
      cachedInterfaces := [];
      cachedVpcIDs := {};
    }

    /** `setResourceFilters`: only the filter changes. */
    method SetResourceFilters(selector: Selector)
      modifies this`filter
      ensures filter == Some(selector)
    {
      filter := Some(selector);
    }

    /** `getResourceCRDs(namespace)`: the cached resources as records of that namespace. */
    function GetResourceCRDs(namespace: string): (r: ResourceCRDs)
      reads this
      ensures forall v :: v in r.virtualMachines ==> v.namespace == namespace && v.cloudID in cachedInstances
      ensures forall n :: n in r.virtualMachineNetworkInterfaces ==>
                n.namespace == namespace && n.cloudID in cachedInterfaces
    {
      ResourceCRDs(VirtualMachineRecords(namespace, cachedInstances),
                   NetworkInterfaceRecords(namespace, cachedInterfaces))
    }
  }

  /** The first service config with the given name, as `GetServiceConfigByName`
      finds it (None plays the part of its error). */
  function ServiceConfigByName(serviceConfigs: seq<ServiceConfig>, name: string): (r: Option<ServiceConfig>)
    ensures r.Some? ==> r.value in serviceConfigs && r.value.name == name
    ensures r.None? <==> forall s :: s in serviceConfigs ==> s.name != name
    ensures r.Some? ==> exists i :: 0 <= i < |serviceConfigs| && serviceConfigs[i] == r.value &&
                                  forall j :: 0 <= j < i ==> serviceConfigs[j].name != name
  {
    if serviceConfigs == [] then None
    else if serviceConfigs[0].name == name then Some(serviceConfigs[0])
    else ServiceConfigByName(serviceConfigs[1..], name)
  }

  /** An account config: its key, service configs and poll interval are
      fixed at creation; its credentials, sync state and status change. */
  class CloudAccount<C> {
    const namespacedName: NamespacedName
    const serviceConfigs: seq<ServiceConfig>
    const pollIntervalInSeconds: int
    var credentials: C
    var syncRunning: bool
    var status: AccountStatus

    constructor (namespacedName: NamespacedName, serviceConfigs: seq<ServiceConfig>,
                 credentials: C, pollIntervalInSeconds: int)
      ensures this.namespacedName == namespacedName && this.serviceConfigs == serviceConfigs
      ensures this.credentials == credentials && this.pollIntervalInSeconds == pollIntervalInSeconds
      ensures !syncRunning && status == AccountStatus("")
    {
      this.namespacedName := namespacedName;
      this.serviceConfigs := serviceConfigs;
      this.pollIntervalInSeconds := pollIntervalInSeconds;
      this.credentials := credentials;
      syncRunning := false;
      status := AccountStatus("");
    }

    ghost function ServiceConfigSet(): set<ServiceConfig> {
      set s | s in serviceConfigs
    }

    /** `startPeriodicInventorySync`: `failure` is the scheduler's error, if
        any. Starting an already running sync leaves it running. */
    method StartPeriodicInventorySync(failure: Option<string>) returns (err: Option<string>)
      modifies this`syncRunning
      ensures err == failure
      ensures syncRunning == (failure.None? || old(syncRunning))
    {
      if failure.None? {
        syncRunning := true;
      }
      err := failure;
    }

    /** `stopPeriodicInventorySync`; stopping a stopped sync is a no-op. */
    method StopPeriodicInventorySync()
      modifies this`syncRunning
      ensures !syncRunning
    {
      syncRunning := false;
    }

    /** The account's half of `updateCloudAccountConfig`: the validated new
        credentials replace the stored ones when the comparator reports a
        change; a validation error is returned and changes nothing. */
    method UpdateCredentials(validated: Result<C, Error>, changed: (C, C) -> bool) returns (err: Option<Error>)
      modifies this`credentials
      ensures validated.Failure? ==> err == Some(validated.error) && credentials == old(credentials)
      ensures validated.Success? ==> err == None
      ensures validated.Success? && changed(old(credentials), validated.value) ==> credentials == validated.value
      ensures validated.Success? && !changed(old(credentials), validated.value) ==> credentials == old(credentials)
    {
      if validated.Failure? {
        return Some(validated.error);
      }
      if changed(credentials, validated.value) {
        credentials := validated.value;
      }
      return None;
    }
  }

  /** What a service config adds to the compute query of an account in `namespace`. */
  function ComputeContribution(s: ServiceConfig, namespace: string): ResourceCRDs
    reads s
  {
    if s.serviceType == CloudServiceTypeCompute then s.GetResourceCRDs(namespace) else NoCRDs
  }

  /** The compute records of a list of service configs, in their order. */
  function ComputeCRDsOf(serviceConfigs: seq<ServiceConfig>, namespace: string): ResourceCRDs
    reads set s | s in serviceConfigs
    decreases |serviceConfigs|
  {
    if serviceConfigs == [] then NoCRDs
    else
      var last := serviceConfigs[|serviceConfigs| - 1];
      ComputeCRDsOf(serviceConfigs[..|serviceConfigs| - 1], namespace).Append(ComputeContribution(last, namespace))
  }

  /** The answer of the per-account compute query for a registered account. */
  function AccountComputeCRDs<C>(account: CloudAccount<C>): ResourceCRDs
    reads set s | s in account.serviceConfigs
  {
    ComputeCRDsOf(account.serviceConfigs, account.namespacedName.namespace)
  }

  /** A record is in the compute answer exactly when some compute service
      config of the list caches the resource it stands for; every record is
      in the requested namespace. */
  lemma {:induction false} ComputeCRDsMembership(serviceConfigs: seq<ServiceConfig>, namespace: string)
    ensures forall v :: v in ComputeCRDsOf(serviceConfigs, namespace).virtualMachines <==>
              v.namespace == namespace &&
              exists i :: 0 <= i < |serviceConfigs| && serviceConfigs[i].serviceType == CloudServiceTypeCompute &&
                          v.cloudID in serviceConfigs[i].cachedInstances
    ensures forall n :: n in ComputeCRDsOf(serviceConfigs, namespace).virtualMachineNetworkInterfaces <==>
              n.namespace == namespace &&
              exists i :: 0 <= i < |serviceConfigs| && serviceConfigs[i].serviceType == CloudServiceTypeCompute &&
                          n.cloudID in serviceConfigs[i].cachedInterfaces
    decreases |serviceConfigs|
  {
    if serviceConfigs != [] {
      var k := |serviceConfigs| - 1;
      var init := serviceConfigs[..k];
      ComputeCRDsMembership(init, namespace);
      var last := serviceConfigs[k];
      forall v ensures v in ComputeContribution(last, namespace).virtualMachines <==>
                       v.namespace == namespace && last.serviceType == CloudServiceTypeCompute &&
                       v.cloudID in last.cachedInstances
      {
        if v.namespace == namespace && last.serviceType == CloudServiceTypeCompute && v.cloudID in last.cachedInstances {
          var j :| 0 <= j < |last.cachedInstances| && last.cachedInstances[j] == v.cloudID;
          assert last.GetResourceCRDs(namespace).virtualMachines[j] == v;
        }
      }
      forall n ensures n in ComputeContribution(last, namespace).virtualMachineNetworkInterfaces <==>
                       n.namespace == namespace && last.serviceType == CloudServiceTypeCompute &&
                       n.cloudID in last.cachedInterfaces
      {
        if n.namespace == namespace && last.serviceType == CloudServiceTypeCompute && n.cloudID in last.cachedInterfaces {
          var j :| 0 <= j < |last.cachedInterfaces| && last.cachedInterfaces[j] == n.cloudID;
          assert last.GetResourceCRDs(namespace).virtualMachineNetworkInterfaces[j] == n;
        }
      }
      forall i | 0 <= i < k ensures init[i] == serviceConfigs[i] { }
    }
  }

  /** The registry (`cloudCommon`). */
  class CloudCommon<C> {
    var accountConfigs: map<NamespacedName, CloudAccount<C>>
    /** Holds every service config of every registered account. */
    ghost var Repr: set<ServiceConfig>

    /** Every account config is stored under its own key. */
    ghost predicate Valid()
      reads this
    {
      forall k :: k in accountConfigs ==>
        accountConfigs[k].namespacedName == k && accountConfigs[k].ServiceConfigSet() <= Repr
    }

    /** `NewCloudCommon`: an empty registry. */
    constructor ()
      ensures Valid() && accountConfigs == map[]
    {
      accountConfigs := map[];
      Repr := {};
    }

    /** The compute answer over the accounts visited in `order`. */
    function AllComputeCRDs(order: seq<NamespacedName>): ResourceCRDs
      requires Valid()
      reads this, Repr
      decreases |order|
    {
      if order == [] then NoCRDs
      else
        var k := order[|order| - 1];
        var add := if k in accountConfigs then AccountComputeCRDs(accountConfigs[k]) else NoCRDs;
        AllComputeCRDs(order[..|order| - 1]).Append(add)
    }

    /** Order does not matter for membership: a record is in the answer over
        `order` exactly when it is in the answer of an account in `order`. */
    lemma {:induction false} AllComputeCRDsMembership(order: seq<NamespacedName>)
      requires Valid()
      requires forall k :: k in order ==> k in accountConfigs
      ensures forall v :: v in AllComputeCRDs(order).virtualMachines <==>
                exists i :: 0 <= i < |order| && v in AccountComputeCRDs(accountConfigs[order[i]]).virtualMachines
      ensures forall n :: n in AllComputeCRDs(order).virtualMachineNetworkInterfaces <==>
                exists i :: 0 <= i < |order| &&
                            n in AccountComputeCRDs(accountConfigs[order[i]]).virtualMachineNetworkInterfaces
      decreases |order|
    {
      if order != [] {
        var m := |order| - 1;
        var init := order[..m];
        AllComputeCRDsMembership(init);
        forall i | 0 <= i < m ensures init[i] == order[i] { }
      }
    }

    /** `newCloudAccountConfig`: `validated` is the validator's outcome on the
        raw credentials, `services` the service-config factory's. */
    method NewCloudAccountConfig(namespacedName: NamespacedName, validated: Result<C, Error>,
                                 services: Result<seq<ServiceSpec>, Error>, pollIntervalInSeconds: int)
      returns (r: Result<CloudAccount<C>, Error>)
      ensures validated.Failure? ==> r == Failure(validated.error)
      ensures validated.Success? && services.Failure? ==> r == Failure(services.error)
      ensures validated.Success? && services.Success? ==> r.Success? && fresh(r.value)
      ensures r.Success? ==>
        && r.value.namespacedName == namespacedName
        && r.value.credentials == validated.value
        && r.value.pollIntervalInSeconds == pollIntervalInSeconds
        && !r.value.syncRunning
        && |r.value.serviceConfigs| == |services.value|
        && (forall i :: 0 <= i < |services.value| ==>
              fresh(r.value.serviceConfigs[i]) &&
              r.value.serviceConfigs[i].name == services.value[i].name &&
              r.value.serviceConfigs[i].serviceType == services.value[i].serviceType &&
              r.value.serviceConfigs[i].filter == None)
    {
      if validated.Failure? {
        return Failure(validated.error);
      }
      if services.Failure? {
        return Failure(services.error);
      }
      var specs := services.value;
      var serviceConfigs: seq<ServiceConfig> := [];
      for i := 0 to |specs|
        invariant |serviceConfigs| == i
        invariant forall j :: 0 <= j < i ==>
                    fresh(serviceConfigs[j]) &&
                    serviceConfigs[j].name == specs[j].name &&
                    serviceConfigs[j].serviceType == specs[j].serviceType &&
                    serviceConfigs[j].filter == None
      {
        var s := new ServiceConfig(specs[i]);
        serviceConfigs := serviceConfigs + [s];
      }
      var config := new CloudAccount(namespacedName, serviceConfigs, validated.value, pollIntervalInSeconds);
      return Success(config);
    }

    /** `AddCloudAccount`. A new key gets a freshly built account config (or
        the construction error, with the table unchanged); a known key is
        handed to the update path, which never inserts or replaces an entry. */
    method AddCloudAccount(account: CloudProviderAccount, validated: Result<C, Error>,
                           services: Result<seq<ServiceSpec>, Error>, changed: (C, C) -> bool)
      returns (err: Option<Error>)
      requires Valid()
      modifies this
      modifies (if AccountKey(account) in accountConfigs then {accountConfigs[AccountKey(account)]} else {})`credentials
      ensures Valid()
      ensures AccountKey(account) in old(accountConfigs) ==>
        && accountConfigs == old(accountConfigs)
        && (validated.Failure? ==> err == Some(validated.error))
        && (validated.Success? ==> err == None)
        && accountConfigs[AccountKey(account)].credentials ==
             (if validated.Success? && changed(old(accountConfigs[AccountKey(account)].credentials), validated.value)
              then validated.value
              else old(accountConfigs[AccountKey(account)].credentials))
      ensures AccountKey(account) !in old(accountConfigs) && (validated.Failure? || services.Failure?) ==>
        && accountConfigs == old(accountConfigs)
        && err == Some(if validated.Failure? then validated.error else services.error)
      ensures AccountKey(account) !in old(accountConfigs) && validated.Success? && services.Success? ==>
        && err == None
        && accountConfigs.Keys == old(accountConfigs).Keys + {AccountKey(account)}
        && (forall k :: k in old(accountConfigs) ==> accountConfigs[k] == old(accountConfigs)[k])
        && fresh(accountConfigs[AccountKey(account)])
        && accountConfigs[AccountKey(account)].credentials == validated.value
        && accountConfigs[AccountKey(account)].pollIntervalInSeconds == account.pollIntervalInSeconds
        && !accountConfigs[AccountKey(account)].syncRunning
        && |accountConfigs[AccountKey(account)].serviceConfigs| == |services.value|
        && (forall i :: 0 <= i < |services.value| ==>
              fresh(accountConfigs[AccountKey(account)].serviceConfigs[i]) &&
              accountConfigs[AccountKey(account)].serviceConfigs[i].name == services.value[i].name &&
              accountConfigs[AccountKey(account)].serviceConfigs[i].serviceType == services.value[i].serviceType &&
              accountConfigs[AccountKey(account)].serviceConfigs[i].filter == None)
    {
      var namespacedName := AccountKey(account);
      if namespacedName in accountConfigs {
        var existingConfig := accountConfigs[namespacedName];
        err := existingConfig.UpdateCredentials(validated, changed);
        return;
      }
      var config := NewCloudAccountConfig(namespacedName, validated, services, account.pollIntervalInSeconds);
      if config.Failure? {
        return Some(config.error);
      }
      accountConfigs := accountConfigs[config.value.namespacedName := config.value];
      Repr := Repr + config.value.ServiceConfigSet();
      return None;
    }

    /** `deleteCloudAccount`. */
    method DeleteCloudAccount(namespacedName: NamespacedName)
      requires Valid()
      modifies this`accountConfigs
      ensures Valid()
      ensures accountConfigs == old(accountConfigs) - {namespacedName}
    {
      accountConfigs := accountConfigs - {namespacedName};
    }

    /** `RemoveCloudAccount`: an absent key leaves the table as it is; a
        present key is deleted and every other entry stays. The account's
        periodic sync is not touched. */
    method RemoveCloudAccount(namespacedName: NamespacedName)
      requires Valid()
      modifies this`accountConfigs
      ensures Valid()
      ensures namespacedName !in old(accountConfigs) ==> accountConfigs == old(accountConfigs)
      ensures namespacedName in old(accountConfigs) ==>
        && accountConfigs.Keys == old(accountConfigs).Keys - {namespacedName}
        && |accountConfigs| == |old(accountConfigs)| - 1
        && (forall k :: k in accountConfigs ==> accountConfigs[k] == old(accountConfigs)[k])
    {
      var found := GetCloudAccountByName(namespacedName);
      if found.None? {
        return;
      }
      DeleteCloudAccount(namespacedName);
    }

    /** `GetCloudAccountByName`. */
    method GetCloudAccountByName(namespacedName: NamespacedName) returns (r: Option<CloudAccount<C>>)
      requires Valid()
      ensures r.Some? <==> namespacedName in accountConfigs
      ensures r.Some? ==> r.value == accountConfigs[namespacedName] && r.value.namespacedName == namespacedName
    {
      if namespacedName in accountConfigs {
        r := Some(accountConfigs[namespacedName]);
      } else {
        r := None;
      }
    }

    /** `GetCloudAccounts`: the table as it is at the call, every entry under its own key. */
    method GetCloudAccounts() returns (m: map<NamespacedName, CloudAccount<C>>)
      requires Valid()
      ensures m == accountConfigs
      ensures forall k :: k in m ==> m[k].namespacedName == k
    {
      m := accountConfigs;
    }

    /** `GetCloudAccountComputeResourceCRDs`. */
    method GetCloudAccountComputeResourceCRDs(accountNamespacedName: NamespacedName)
      returns (r: Result<ResourceCRDs, Error>)
      requires Valid()
      ensures accountNamespacedName !in accountConfigs ==> r == Failure(AccountNotFound(accountNamespacedName))
      ensures accountNamespacedName in accountConfigs ==>
                r == Success(AccountComputeCRDs(accountConfigs[accountNamespacedName]))
    {
      var accCfg := GetCloudAccountByName(accountNamespacedName);
      if accCfg.None? {
        return Failure(AccountNotFound(accountNamespacedName));
      }
      var namespace := accCfg.value.namespacedName.namespace;
      var computeCRDs: seq<VirtualMachine> := [];
      var computeInterfaceCRDs: seq<NetworkInterface> := [];
      var serviceConfigs := accCfg.value.serviceConfigs;
      for i := 0 to |serviceConfigs|
        invariant ResourceCRDs(computeCRDs, computeInterfaceCRDs) == ComputeCRDsOf(serviceConfigs[..i], namespace)
      {
        var serviceConfig := serviceConfigs[i];
        if serviceConfig.serviceType == CloudServiceTypeCompute {
          var resourceCRDs := serviceConfig.GetResourceCRDs(namespace);
          computeCRDs := computeCRDs + resourceCRDs.virtualMachines;
          computeInterfaceCRDs := computeInterfaceCRDs + resourceCRDs.virtualMachineNetworkInterfaces;
        }
        assert serviceConfigs[..i + 1][..i] == serviceConfigs[..i];
      }
      assert serviceConfigs[..|serviceConfigs|] == serviceConfigs;
      return Success(ResourceCRDs(computeCRDs, computeInterfaceCRDs));
    }

    /** `GetAllCloudAccountsComputeResourceCRDs`: the per-account answers of
        every account, concatenated in the (unspecified) iteration order
        `order`; a failing account would add its error to `errs` and keep the
        others' records, but every visited key comes from the table itself,
        so no account fails. */
    method GetAllCloudAccountsComputeResourceCRDs()
      returns (crds: ResourceCRDs, errs: seq<Error>, ghost order: seq<NamespacedName>)
      requires Valid()
      ensures errs == []
      ensures forall k :: k in order <==> k in accountConfigs
      ensures forall i, j :: 0 <= i < j < |order| ==> order[i] != order[j]
      ensures crds == AllComputeCRDs(order)
      ensures forall v :: v in crds.virtualMachines <==>
                exists i :: 0 <= i < |order| && v in AccountComputeCRDs(accountConfigs[order[i]]).virtualMachines
      ensures forall n :: n in crds.virtualMachineNetworkInterfaces <==>
                exists i :: 0 <= i < |order| && n in AccountComputeCRDs(accountConfigs[order[i]]).virtualMachineNetworkInterfaces
    {
      errs := [];
      var computeCRDs: seq<VirtualMachine> := [];
      var computeInterfaceCRDs: seq<NetworkInterface> := [];
      order := [];
      var accounts := GetCloudAccounts();
      var remaining := accounts.Keys;
      while remaining != {}
        invariant remaining <= accountConfigs.Keys
        invariant forall k :: k in order <==> k in accountConfigs && k !in remaining
        invariant forall i, j :: 0 <= i < j < |order| ==> order[i] != order[j]
        invariant ResourceCRDs(computeCRDs, computeInterfaceCRDs) == AllComputeCRDs(order)
        invariant errs == []
        decreases remaining
      {
        var namespacedName :| namespacedName in remaining;
        remaining := remaining - {namespacedName};
        var result := GetCloudAccountComputeResourceCRDs(namespacedName);
        ghost var add := AccountComputeCRDs(accountConfigs[namespacedName]);
        assert (order + [namespacedName])[..|order|] == order;
        assert AllComputeCRDs(order + [namespacedName]) == AllComputeCRDs(order).Append(add);
        match result {
          case Success(accountCRDs) =>
            computeCRDs := computeCRDs + accountCRDs.virtualMachines;
            computeInterfaceCRDs := computeInterfaceCRDs + accountCRDs.virtualMachineNetworkInterfaces;
          case Failure(e) =>
            errs := errs + [e];
        }
        order := order + [namespacedName];
      }
      crds := ResourceCRDs(computeCRDs, computeInterfaceCRDs);
      AllComputeCRDsMembership(order);
    }

    /** `AddSelector`: an unknown key is an error and nothing is touched; a
        known key gets the selector on every one of its service configs and
        its periodic sync started, a start failure being reported. */
    method AddSelector(accountNamespacedName: NamespacedName, selector: Selector, syncFailure: Option<string>)
      returns (err: Option<Error>)
      requires Valid()
      modifies (if accountNamespacedName in accountConfigs then {accountConfigs[accountNamespacedName]} else {})`syncRunning
      modifies (if accountNamespacedName in accountConfigs
                then accountConfigs[accountNamespacedName].ServiceConfigSet() else {})`filter
      ensures accountNamespacedName !in accountConfigs ==> err == Some(AccountNotFound(accountNamespacedName))
      ensures accountNamespacedName in accountConfigs ==>
        var accCfg := accountConfigs[accountNamespacedName];
        && (forall s :: s in accCfg.serviceConfigs ==> s.filter == Some(selector))
        && (syncFailure.None? ==> err == None && accCfg.syncRunning)
        && (syncFailure.Some? ==>
              err == Some(InventorySyncFailed(accountNamespacedName, syncFailure.value)) &&
              accCfg.syncRunning == old(accCfg.syncRunning))
    {
      var accCfg := GetCloudAccountByName(accountNamespacedName);
      if accCfg.None? {
        return Some(AccountNotFound(accountNamespacedName));
      }
      var config := accCfg.value;
      var serviceConfigs := config.serviceConfigs;
      for i := 0 to |serviceConfigs|
        invariant forall j :: 0 <= j < i ==> serviceConfigs[j].filter == Some(selector)
        modifies config.ServiceConfigSet()`filter
      {
        serviceConfigs[i].SetResourceFilters(selector);
      }
      var e := config.StartPeriodicInventorySync(syncFailure);
      if e.Some? {
        return Some(InventorySyncFailed(accountNamespacedName, e.value));
      }
      return None;
    }

    /** `RemoveSelector`: stops the account's periodic sync whatever
        `selectorName` is; an unknown key changes nothing. */
    method RemoveSelector(accNamespacedName: NamespacedName, selectorName: string)
      requires Valid()
      modifies (if accNamespacedName in accountConfigs then {accountConfigs[accNamespacedName]} else {})`syncRunning
      ensures accNamespacedName in accountConfigs ==> !accountConfigs[accNamespacedName].syncRunning
    {
      var accCfg := GetCloudAccountByName(accNamespacedName);
      if accCfg.None? {
        return;
      }
      accCfg.value.StopPeriodicInventorySync();
    }

    /** `GetStatus`: fails exactly for an unknown key. */
    method GetStatus(accountNamespacedName: NamespacedName) returns (r: Result<AccountStatus, Error>)
      requires Valid()
      ensures r.Failure? <==> accountNamespacedName !in accountConfigs
      ensures r.Failure? ==> r.error == AccountNotFound(accountNamespacedName)
      ensures r.Success? ==> r.value == accountConfigs[accountNamespacedName].status
    {
      var accCfg := GetCloudAccountByName(accountNamespacedName);
      if accCfg.None? {
        return Failure(AccountNotFound(accountNamespacedName));
      }
      return Success(accCfg.value.status);
    }
  }
}
