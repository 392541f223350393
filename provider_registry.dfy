/** The storage provider registry: the package-level map from provider type
    to provider, and the map from environment type to the provider types
    that environment supports. The Go package keeps these as two package
    variables; here they are the two fields of one Registry object. */
module ProviderRegistry {
  import opened Wrappers
  import opened ApiErrors

  type ProviderType = string

  /** A storage provider implementation, known here only by name. A
      registered None is the Go nil provider. */
  datatype Provider = Provider(name: string)

  /** The entries of ps, in order and with their repeats, that are not in known. */
  function Unsupported(ps: seq<ProviderType>, known: seq<ProviderType>): (r: seq<ProviderType>)
    ensures |r| <= |ps|
    decreases |ps|
  {
    if ps == [] then []
    else
      var last := ps[|ps| - 1];
      Unsupported(ps[..|ps| - 1], known) + (if last in known then [] else [last])
  }

  /** Unsupported keeps exactly the entries of ps that are not known. */
  lemma {:induction false} UnsupportedMembers(ps: seq<ProviderType>, known: seq<ProviderType>)
    ensures forall p :: p in Unsupported(ps, known) <==> p in ps && p !in known
    decreases |ps|
  {
    if ps != [] {
      var init := ps[..|ps| - 1];
      UnsupportedMembers(init, known);
      assert ps == init + [ps[|ps| - 1]];
    }
  }

  /** Unsupported over one more entry of ps. */
  lemma UnsupportedStep(ps: seq<ProviderType>, i: int, known: seq<ProviderType>)
    requires 0 <= i < |ps|
    ensures Unsupported(ps[..i + 1], known) == Unsupported(ps[..i], known) + (if ps[i] in known then [] else [ps[i]])
  {
    assert ps[..i + 1][..i] == ps[..i];
  }

  predicate NoDuplicates(s: seq<ProviderType>)
  {
    forall i, j :: 0 <= i < j < |s| ==> s[i] != s[j]
  }

  /** What RegisterEnvironStorageProviders leaves as an environment's list,
      given the list before the call: that list, then the entries of ps not
      in it (repeats kept), then every common type not in it, once each, in
      some order. */
  ghost predicate RegisteredList(after: seq<ProviderType>, before: seq<ProviderType>, ps: seq<ProviderType>, common: set<ProviderType>)
  {
    var n := |before| + |Unsupported(ps, before)|;
    && n <= |after|
    && after[..n] == before + Unsupported(ps, before)
    && (forall p :: p in after[n..] <==> p in common && p !in before)
    && NoDuplicates(after[n..])
  }

  /** The list is the old one extended: a type is supported afterwards
      exactly when it was before or was asked for, and the types supported
      before are not appended again. */
  lemma {:induction false} RegisteredListContents(after: seq<ProviderType>, before: seq<ProviderType>, ps: seq<ProviderType>, common: set<ProviderType>)
    requires RegisteredList(after, before, ps, common)
    ensures before <= after
    ensures forall p :: p in after <==> p in before || p in ps || p in common
    ensures forall p :: p in before ==> p !in after[|before|..]
  {
    var n := |before| + |Unsupported(ps, before)|;
    UnsupportedMembers(ps, before);
    assert after == after[..n] + after[n..];
    assert after[..|before|] == before by {
      assert after[..|before|] == after[..n][..|before|];
    }
    assert after[|before|..] == Unsupported(ps, before) + after[n..] by {
      assert after[|before|..n] == after[..n][|before|..];
    }
  }

  /** The duplicate check reads the list as it stood before the call, so a
      type named in ps that is also common, and not supported before, is
      appended twice. */
  lemma {:induction false} CommonTypeInPsAppendedTwice(after: seq<ProviderType>, before: seq<ProviderType>, ps: seq<ProviderType>, common: set<ProviderType>, p: ProviderType)
    requires RegisteredList(after, before, ps, common)
    requires p in ps && p in common && p !in before
    ensures exists i, j :: 0 <= i < j < |after| && after[i] == p && after[j] == p
  {
    var n := |before| + |Unsupported(ps, before)|;
    var u := Unsupported(ps, before);
    UnsupportedMembers(ps, before);
    assert p in u;
    var k :| 0 <= k < |u| && u[k] == p;
    assert after[|before| + k] == (before + u)[|before| + k];
    assert p in after[n..];
    var m :| 0 <= m < |after[n..]| && after[n..][m] == p;
    assert after[|before| + k] == p && after[n + m] == p;
  }

  /** A type not yet known is appended once for each time ps names it;
      a known type is never appended. */
  lemma {:induction false} RepeatedTypeAppendedPerRepeat(ps: seq<ProviderType>, known: seq<ProviderType>, p: ProviderType)
    ensures multiset(Unsupported(ps, known))[p] == if p in known then 0 else multiset(ps)[p]
    decreases |ps|
  {
    if ps != [] {
      var init := ps[..|ps| - 1];
      RepeatedTypeAppendedPerRepeat(init, known, p);
      assert ps == init + [ps[|ps| - 1]];
    }
  }

  class Registry {
    var providers: map<ProviderType, Option<Provider>>
    var supported: map<string, seq<ProviderType>>

    constructor ()
      ensures providers == map[] && supported == map[]
    {
      providers := map[];
      supported := map[];
    }

    /** Registers p for providerType; panics (returns the panic's error and
        changes nothing) when a non-nil provider is already registered. */
    method RegisterProvider(providerType: ProviderType, p: Option<Provider>) returns (panicked: Option<Error>)
      modifies this`providers
      ensures panicked.Some? <==> providerType in old(providers) && old(providers)[providerType].Some?
      ensures panicked.Some? ==> providers == old(providers)
      ensures panicked.None? ==> providers == old(providers)[providerType := p]
    {
      if providerType in providers && providers[providerType].Some? {
        return Some(OtherError("juju: duplicate storage provider type"));
      }
      providers := providers[providerType := p];
      panicked := None;
    }

    /** The provider registered for providerType, or a not-found error. */
    function StorageProvider(providerType: ProviderType): (r: Result<Option<Provider>, Error>)
      reads this
      ensures r.Success? <==> providerType in providers
      ensures r.Success? ==> r.value == providers[providerType]
      ensures r.Failure? ==> IsNotFound(r.error)
    {
      if providerType in providers then Success(providers[providerType])
      else Failure(NotFound("storage provider"))
    }

    /** The list recorded for an environment type (nil when none is). */
    function EnvironList(envType: string): seq<ProviderType>
      reads this
    {
      if envType in supported then supported[envType] else []
    }

    predicate Supports(envType: string, providerType: ProviderType)
      reads this
    {
      envType in supported && providerType in supported[envType]
    }

    /** Linear search of the environment's list. */
    method IsProviderSupported(envType: string, providerType: ProviderType) returns (b: bool)
      ensures b == Supports(envType, providerType)
      ensures b ==> envType in supported
    {
      if envType !in supported {
        return false;
      }
      var providerTypes := supported[envType];
      for i := 0 to |providerTypes|
        invariant providerType !in providerTypes[..i]
      {
        if providerTypes[i] == providerType {
          return true;
        }
      }
      assert providerTypes[..|providerTypes|] == providerTypes;
      return false;
    }

    /** The first loop of RegisterEnvironStorageProviders: the list before
        the call, extended by each entry of ps that the unchanged registry
        does not support yet. */
    method AppendUnsupported(envType: string, ps: seq<ProviderType>) returns (existing: seq<ProviderType>)
      ensures existing == EnvironList(envType) + Unsupported(ps, EnvironList(envType))
    {
      existing := EnvironList(envType);
      ghost var before := existing;
      for i := 0 to |ps|
        invariant existing == before + Unsupported(ps[..i], before)
      {
        var ok := IsProviderSupported(envType, ps[i]);
        assert ok <==> ps[i] in before;
        UnsupportedStep(ps, i, before);
        if !ok {
          existing := existing + [ps[i]];
        }
      }
      assert ps[..|ps|] == ps;
    }

    /** The second loop: start extended by every common type that the
        unchanged registry does not support yet, once each. */
    method AppendCommon(envType: string, start: seq<ProviderType>, common: set<ProviderType>) returns (existing: seq<ProviderType>)
      ensures |start| <= |existing| && existing[..|start|] == start
      ensures forall p :: p in existing[|start|..] <==> p in common && !Supports(envType, p)
      ensures NoDuplicates(existing[|start|..])
    {
      existing := start;
      var remaining := common;
      while remaining != {}
        invariant remaining <= common
        invariant |start| <= |existing| && existing[..|start|] == start
        invariant forall p :: p in existing[|start|..] <==> p in common - remaining && !Supports(envType, p)
        invariant NoDuplicates(existing[|start|..])
        decreases remaining
      {
        var p :| p in remaining;
        remaining := remaining - {p};
        var ok := IsProviderSupported(envType, p);
        if !ok {
          assert existing[|start|..] + [p] == (existing + [p])[|start|..];
          existing := existing + [p];
        }
      }
    }

    /** Records that envType supports the types in ps and the common types.
        The Go code ranges over a map of common types, in no fixed order;
        here the order is an arbitrary choice from the set. */
    method RegisterEnvironStorageProviders(envType: string, ps: seq<ProviderType>, common: set<ProviderType>)
      modifies this`supported
      ensures forall e :: e in supported <==> e in old(supported) || e == envType
      ensures forall e :: e in old(supported) && e != envType ==> supported[e] == old(supported)[e]
      ensures RegisteredList(supported[envType], old(EnvironList(envType)), ps, common)
    {
      var existing := AppendUnsupported(envType, ps);
      existing := AppendCommon(envType, existing, common);
      supported := supported[envType := existing];
    }

    /** The OpenStack environment provider registers no types of its own,
        so it supports exactly the common types it did not already support. */
    method RegisterOpenStackStorage(common: set<ProviderType>)
      modifies this`supported
      ensures forall p :: Supports("openstack", p) <==> p in old(EnvironList("openstack")) || p in common
      ensures forall e :: e in old(supported) && e != "openstack" ==> e in supported && supported[e] == old(supported)[e]
    {
      RegisterEnvironStorageProviders("openstack", [], common);
      RegisteredListContents(supported["openstack"], old(EnvironList("openstack")), [], common);
    }
  }
}
