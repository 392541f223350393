/** How the API server finds the method an RPC call names: filters that
    admit only some root names or, during an upgrade, only a few methods;
    the lookup of a facade's type and method in the facade registry, with
    its error mapping; and the per-connection cache of facade objects. The
    facade registry and Go reflection are parameters: the registry as a
    record of lookup functions, reflection as opaque types and values and a
    type-compatibility predicate. */
module ApiRoot {
  import opened Wrappers

  /** The errors a method finder returns: rpcreflect's CallNotImplementedError,
      the in-upgrade error, and any other error, passed through. */
  datatype CallError =
    | CallNotImplemented(rootMethod: string, version: int, methodName: string)
    | InUpgrade
    | CallFailed(message: string)

  /** What a successful FindMethod hands back; what it calls is not modelled. */
  datatype MethodCaller = MethodCaller(id: nat)

  /** rpc.MethodFinder.FindMethod as a function value. */
  type Finder = (string, int, string) -> Result<MethodCaller, CallError>

  /** ApiFilter: a finder behind a table of admitted root names. A name
      missing from the table reads as false, like a Go map lookup. */
  datatype ApiFilter = ApiFilter(finder: Finder, filter: map<string, bool>)
  {
    predicate Allows(rootName: string)
    {
      rootName in filter && filter[rootName]
    }

    /** A root the filter does not admit gets CallNotImplemented with all
        three names; any other goes to the wrapped finder unchanged. */
    function FindMethod(rootName: string, version: int, methodName: string): (r: Result<MethodCaller, CallError>)
      ensures !Allows(rootName) ==> r == Failure(CallNotImplemented(rootName, version, methodName))
      ensures Allows(rootName) ==> r == finder(rootName, version, methodName)
    {
      if !Allows(rootName) then Failure(CallNotImplemented(rootName, version, methodName))
      else finder(rootName, version, methodName)
    }
  }

  /** The filter admits exactly the root names it was built with. */
  method NewApiFilter(finder: Finder, rootNames: seq<string>) returns (f: ApiFilter)
    ensures f.finder == finder
    ensures forall rootName :: f.Allows(rootName) <==> rootName in rootNames
    ensures forall rootName :: rootName in f.filter ==> f.filter[rootName]
  {
    var filter: map<string, bool> := map[];
    for i := 0 to |rootNames|
      invariant forall rootName :: rootName in filter <==> rootName in rootNames[..i]
      invariant forall rootName :: rootName in filter ==> filter[rootName]
    {
      filter := filter[rootNames[i] := true];
    }
    assert rootNames[..|rootNames|] == rootNames;
    f := ApiFilter(finder, filter);
  }

  /** A rejected call never reaches the wrapped finder: swapping the finder
      changes nothing for a root the filter does not admit. */
  lemma RejectedRootIgnoresFinder(f: ApiFilter, other: Finder, rootName: string, version: int, methodName: string)
    requires !f.Allows(rootName)
    ensures ApiFilter(other, f.filter).FindMethod(rootName, version, methodName) == f.FindMethod(rootName, version, methodName)
    ensures f.FindMethod(rootName, version, methodName).Failure?
  {
  }

  /** AnonRoot: the connection before login. Its own FindMethod looks the
      call up on the admin API; the finder it embeds is a filter over that
      lookup admitting only the "Admin" root. */
  datatype AnonRoot = AnonRoot(adminApi: Finder, methodFinder: ApiFilter)
  {
    function FindMethod(rootName: string, version: int, methodName: string): (r: Result<MethodCaller, CallError>)
      ensures r == adminApi(rootName, version, methodName)
    {
      adminApi(rootName, version, methodName)
    }
  }

  method NewAnonRoot(adminApi: Finder) returns (r: AnonRoot)
    ensures r.adminApi == adminApi && r.methodFinder.finder == adminApi
    ensures forall rootName :: r.methodFinder.Allows(rootName) <==> rootName == "Admin"
  {
    var filter := NewApiFilter(adminApi, ["Admin"]);
    r := AnonRoot(adminApi, filter);
  }

  /** AnonRoot's own FindMethod does not consult the filter it embeds: two
      anonymous roots over the same admin API answer alike, whatever their
      filters admit. */
  lemma AnonRootFindMethodIgnoresFilter(adminApi: Finder, f: ApiFilter, g: ApiFilter, rootName: string, version: int, methodName: string)
    requires !f.Allows(rootName)
    ensures AnonRoot(adminApi, f).FindMethod(rootName, version, methodName) == AnonRoot(adminApi, g).FindMethod(rootName, version, methodName)
    ensures AnonRoot(adminApi, f).FindMethod(rootName, version, methodName) == adminApi(rootName, version, methodName)
  {
  }

  /** Through the embedded filter, an anonymous connection reaches the admin
      API for "Admin" and gets CallNotImplemented for every other root. */
  lemma AnonRootAdmitsOnlyAdmin(r: AnonRoot, rootName: string, version: int, methodName: string)
    requires forall n :: r.methodFinder.Allows(n) <==> n == "Admin"
    requires r.methodFinder.finder == r.adminApi
    ensures rootName == "Admin" ==> r.methodFinder.FindMethod(rootName, version, methodName) == r.FindMethod(rootName, version, methodName)
    ensures rootName != "Admin" ==> r.methodFinder.FindMethod(rootName, version, methodName) == Failure(CallNotImplemented(rootName, version, methodName))
  {
  }

  /** The full names of the methods an upgrading server still serves. */
  const AllowedMethodsDuringUpgrades: set<string> :=
    {"Client.FullStatus", "Client.PrivateAddress", "Client.PublicAddress", "Client.WatchDebugLog"}

  /** A call is allowed when its "Facade.Method" name is on the list; that
      is, exactly the four Client methods. */
  predicate IsMethodAllowedDuringUpgrade(rootName: string, methodName: string): (b: bool)
    ensures b <==> rootName == "Client" && methodName in {"FullStatus", "PrivateAddress", "PublicAddress", "WatchDebugLog"}
  {
    AllowedDuringUpgradeIff(rootName, methodName);
    rootName + "." + methodName in AllowedMethodsDuringUpgrades
  }

  /** The only dot in each allowed name follows "Client". */
  lemma AllowedNamesHaveOneDot(full: string, i: int)
    requires full in AllowedMethodsDuringUpgrades
    requires 0 <= i < |full| && full[i] == '.'
    ensures i == 6 && full[..6] == "Client"
  {
  }

  /** The joined name is allowed exactly when the root is Client and the
      method one of the four: no other split of the names yields them. */
  lemma {:induction false} AllowedDuringUpgradeIff(rootName: string, methodName: string)
    ensures rootName + "." + methodName in AllowedMethodsDuringUpgrades <==>
      rootName == "Client" && methodName in {"FullStatus", "PrivateAddress", "PublicAddress", "WatchDebugLog"}
  {
    var full := rootName + "." + methodName;
    if full in AllowedMethodsDuringUpgrades {
      assert full[|rootName|] == '.';
      AllowedNamesHaveOneDot(full, |rootName|);
      assert rootName == full[..6];
      assert methodName == full[7..];
    } else if rootName == "Client" {
      assert "Client" + "." + methodName == "Client." + methodName;
      assert "Client.FullStatus" == "Client." + "FullStatus";
      assert "Client.PrivateAddress" == "Client." + "PrivateAddress";
      assert "Client.PublicAddress" == "Client." + "PublicAddress";
      assert "Client.WatchDebugLog" == "Client." + "WatchDebugLog";
    }
  }

  /** UpgradingRoot: a finder that serves only the allowed methods while an
      upgrade is in progress. */
  datatype UpgradingRoot = UpgradingRoot(finder: Finder)
  {
    function FindMethod(rootName: string, version: int, methodName: string): (r: Result<MethodCaller, CallError>)
      ensures !IsMethodAllowedDuringUpgrade(rootName, methodName) ==> r == Failure(InUpgrade)
      ensures IsMethodAllowedDuringUpgrade(rootName, methodName) ==> r == finder(rootName, version, methodName)
    {
      if !IsMethodAllowedDuringUpgrade(rootName, methodName) then Failure(InUpgrade)
      else finder(rootName, version, methodName)
    }
  }

  /** During an upgrade a call reaches the wrapped finder exactly when it is
      one of the four Client methods; every other call fails with the
      in-upgrade error whatever the wrapped finder would have said. */
  lemma UpgradingRootGate(finder: Finder, other: Finder, rootName: string, version: int, methodName: string)
    ensures rootName == "Client" && methodName in {"FullStatus", "PrivateAddress", "PublicAddress", "WatchDebugLog"}
      ==> UpgradingRoot(finder).FindMethod(rootName, version, methodName) == finder(rootName, version, methodName)
    ensures !(rootName == "Client" && methodName in {"FullStatus", "PrivateAddress", "PublicAddress", "WatchDebugLog"})
      ==> (&& UpgradingRoot(finder).FindMethod(rootName, version, methodName) == Failure(InUpgrade)
           && UpgradingRoot(other).FindMethod(rootName, version, methodName) == Failure(InUpgrade))
  {
    AllowedDuringUpgradeIff(rootName, methodName);
  }

  /** A facade's Go type, with whether it is an interface type. */
  datatype GoType = GoType(name: string, isInterface: bool)

  /** A facade method as rpcreflect describes it; opaque here. */
  datatype ObjMethod = ObjMethod(name: string)

  /** A reflected facade object: its dynamic or interface type and the object. */
  datatype Value = Value(typ: GoType, obj: nat)

  datatype TypeLookup = TypeFound(goType: GoType) | TypeNotFound | TypeLookupFailed(message: string)
  datatype MethodLookup = MethodFound(objMethod: ObjMethod) | MethodNotFound | MethodLookupFailed(message: string)

  /** A facade factory with the state, resources and authorizer already
      applied: it takes the object id. */
  type Factory = string -> Result<Value, CallError>

  datatype FacadeDescription = FacadeDescription(name: string, versions: seq<int>)

  /** The facade registry and the reflection the server uses on it:
      GetType, the method table of a type, GetFactory, List, and whether a
      value of one type may be assigned to another. */
  datatype Facades = Facades(
    getType: (string, int) -> TypeLookup,
    methodOf: (GoType, string) -> MethodLookup,
    getFactory: (string, int) -> Result<Factory, CallError>,
    list: seq<FacadeDescription>,
    assignableTo: (GoType, GoType) -> bool)

  datatype Lookup = Lookup(goType: GoType, objMethod: ObjMethod)

  /** lookupMethod: the facade's type, then the method on it. */
  function LookupMethod(facades: Facades, rootName: string, version: int, methodName: string): (r: Result<Lookup, CallError>)
    ensures facades.getType(rootName, version).TypeNotFound? ==> r == Failure(CallNotImplemented(rootName, version, ""))
    ensures facades.getType(rootName, version).TypeLookupFailed? ==> r == Failure(CallFailed(facades.getType(rootName, version).message))
    ensures facades.getType(rootName, version).TypeFound? ==>
      var goType := facades.getType(rootName, version).goType;
      var m := facades.methodOf(goType, methodName);
      && (m.MethodNotFound? ==> r == Failure(CallNotImplemented(rootName, version, methodName)))
      && (m.MethodLookupFailed? ==> r == Failure(CallFailed(m.message)))
      && (m.MethodFound? ==> r == Success(Lookup(goType, m.objMethod)))
  {
    match facades.getType(rootName, version)
    case TypeNotFound => Failure(CallNotImplemented(rootName, version, ""))
    case TypeLookupFailed(message) => Failure(CallFailed(message))
    case TypeFound(goType) =>
      match facades.methodOf(goType, methodName)
      case MethodNotFound => Failure(CallNotImplemented(rootName, version, methodName))
      case MethodLookupFailed(message) => Failure(CallFailed(message))
      case MethodFound(objMethod) => Success(Lookup(goType, objMethod))
  }

  /** The lookup reports CallNotImplemented exactly when the facade type or
      its method is missing, and succeeds exactly when both are found. */
  lemma LookupNotImplementedIff(facades: Facades, rootName: string, version: int, methodName: string)
    ensures var r := LookupMethod(facades, rootName, version, methodName);
      var t := facades.getType(rootName, version);
      && (r.Failure? && r.error.CallNotImplemented? <==>
          t.TypeNotFound? || (t.TypeFound? && facades.methodOf(t.goType, methodName).MethodNotFound?))
      && (r.Success? <==> t.TypeFound? && facades.methodOf(t.goType, methodName).MethodFound?)
      && (r.Failure? && r.error.CallNotImplemented? ==> r.error.rootMethod == rootName && r.error.version == version)
  {
  }

  /** The srvCaller FindMethod returns: what its creator needs to know. */
  datatype SrvCaller = SrvCaller(rootName: string, version: int, goType: GoType, objMethod: ObjMethod)

  datatype ObjectKey = ObjectKey(name: string, version: int, objId: string)

  /** How the creator makes a facade object it has not cached: factory
      errors pass through; a value whose type is not assignable to the
      facade's type is an internal error; a value for an interface type is
      re-wrapped to carry that type. */
  function Manufacture(facades: Facades, c: SrvCaller, id: string): (r: Result<Value, CallError>)
    ensures facades.getFactory(c.rootName, c.version).Failure? ==> r == Failure(facades.getFactory(c.rootName, c.version).error)
    ensures facades.getFactory(c.rootName, c.version).Success? ==>
      var made := facades.getFactory(c.rootName, c.version).value(id);
      && (made.Failure? ==> r == Failure(made.error))
      && (made.Success? && !facades.assignableTo(made.value.typ, c.goType) ==> r.Failure? && r.error.CallFailed?)
      && (made.Success? && facades.assignableTo(made.value.typ, c.goType) ==>
           r.Success? && r.value.obj == made.value.obj
           && r.value.typ == if c.goType.isInterface then c.goType else made.value.typ)
  {
    var factory := facades.getFactory(c.rootName, c.version);
    if factory.Failure? then Failure(factory.error)
    else
      var made := factory.value(id);
      if made.Failure? then Failure(made.error)
      else if !facades.assignableTo(made.value.typ, c.goType) then
        Failure(CallFailed("internal error, " + c.rootName + " claimed to return " + c.goType.name
                           + " but returned " + made.value.typ.name))
      else if c.goType.isInterface then Success(Value(c.goType, made.value.obj))
      else Success(made.value)
  }

  /** ApiRoot: dispatch to the facade registry, with the facade objects made
      so far cached by root name, version and object id. */
  class ApiRoot {
    const facades: Facades
    var objectCache: map<ObjectKey, Value>

    constructor (facades: Facades)
      ensures this.facades == facades && objectCache == map[]
    {
      this.facades := facades;
      objectCache := map[];
    }

    /** FindMethod: the lookup's error, or a caller whose creator knows the
        facade's root name, version and type. */
    function FindMethod(rootName: string, version: int, methodName: string): (r: Result<SrvCaller, CallError>)
      ensures r.Success? <==> LookupMethod(facades, rootName, version, methodName).Success?
      ensures r.Failure? ==> r.error == LookupMethod(facades, rootName, version, methodName).error
      ensures r.Success? ==>
        && r.value.rootName == rootName && r.value.version == version
        && Lookup(r.value.goType, r.value.objMethod) == LookupMethod(facades, rootName, version, methodName).value
    {
      var found := LookupMethod(facades, rootName, version, methodName);
      if found.Failure? then Failure(found.error)
      else Success(SrvCaller(rootName, version, found.value.goType, found.value.objMethod))
    }

    /** The creator of caller c for object id: a cached object is returned
        without making a new one; otherwise the object is made, and stored
        only when making it succeeded. */
    method Create(c: SrvCaller, id: string) returns (r: Result<Value, CallError>)
      modifies this`objectCache
      ensures var key := ObjectKey(c.rootName, c.version, id);
        if key in old(objectCache) then
          r == Success(old(objectCache)[key]) && objectCache == old(objectCache)
        else
          && r == Manufacture(facades, c, id)
          && (r.Success? ==> objectCache == old(objectCache)[key := r.value])
          && (r.Failure? ==> objectCache == old(objectCache))
    {
      var key := ObjectKey(c.rootName, c.version, id);
      if key in objectCache {
        return Success(objectCache[key]);
      }
      r := Manufacture(facades, c, id);
      if r.Success? {
        objectCache := objectCache[key := r.value];
      }
    }
  }

  /** Two calls of the same creator for the same id: the second returns the
      object the first made, and the cache gains at most that one entry. */
  method CreateTwice(root: ApiRoot, c: SrvCaller, id: string) returns (first: Result<Value, CallError>, second: Result<Value, CallError>)
    modifies root
    ensures first.Success? ==> second == first
    ensures first.Failure? ==> second == Manufacture(root.facades, c, id)
    ensures root.objectCache.Keys <= old(root.objectCache.Keys) + {ObjectKey(c.rootName, c.version, id)}
  {
    first := root.Create(c, id);
    second := root.Create(c, id);
  }

  /** The parameters type DescribeFacades returns. */
  datatype FacadeVersions = FacadeVersions(name: string, versions: seq<int>)

  /** DescribeFacades: one entry per registered facade, in registry order,
      with its name and versions. */
  method DescribeFacades(facades: Facades) returns (result: seq<FacadeVersions>)
    ensures |result| == |facades.list|
    ensures forall i :: 0 <= i < |result| ==>
      result[i].name == facades.list[i].name && result[i].versions == facades.list[i].versions
  {
    var list := facades.list;
    var a := new FacadeVersions[|list|];
    for i := 0 to |list|
      invariant forall j :: 0 <= j < i ==> a[j].name == list[j].name && a[j].versions == list[j].versions
    {
      a[i] := FacadeVersions(list[i].name, list[i].versions);
    }
    result := a[..];
  }
}
