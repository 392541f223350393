/** Choosing the init system that will run a service: from the machine's
    own init process when that can be identified, otherwise from the OS
    and series of the agent's version. */
module ServiceDiscovery {
  import opened Wrappers
  import opened ApiErrors

  datatype OSType = UnknownOS | Ubuntu | Windows | OSX | CentOS

  datatype InitSystem = Upstart | Systemd | WindowsInit

  function InitSystemName(i: InitSystem): string
  {
    match i
    case Upstart => "upstart"
    case Systemd => "systemd"
    case WindowsInit => "windows"
  }

  /** The OS and series of a binary version. */
  datatype Binary = Binary(os: OSType, series: string)

  /** Release numbers (year * 100 + month) of the Ubuntu series the agent
      knows, oldest first; any other name, oneiric among them, is unknown. */
  function UbuntuRelease(series: string): (r: Option<int>)
    ensures r.Some? ==> 1204 <= r.value <= 1510
    ensures r.Some? <==> series in {"precise", "quantal", "raring", "saucy", "trusty", "utopic", "vivid", "wily"}
    ensures series == "oneiric" ==> r.None?
    ensures r.Some? ==> (r.value <= LastUpstartRelease <==> series !in {"vivid", "wily"})
  {
    match series
    case "precise" => Some(1204)
    case "quantal" => Some(1210)
    case "raring" => Some(1304)
    case "saucy" => Some(1310)
    case "trusty" => Some(1404)
    case "utopic" => Some(1410)
    case "vivid" => Some(1504)
    case "wily" => Some(1510)
    case _ => None
  }

  /** The last Ubuntu release whose default init system is upstart. */
  const LastUpstartRelease := 1410

  /** The init system that a version implies: windows on Windows; on a known
      Ubuntu series upstart up to utopic and systemd afterwards, unless the
      legacy-upstart feature flag is set; nothing for any other OS. */
  function VersionInitSystem(vers: Binary, legacyUpstart: bool): (r: Option<InitSystem>)
    ensures r == Some(WindowsInit) <==> vers.os == Windows
    ensures r.Some? ==> vers.os == Windows || (vers.os == Ubuntu && UbuntuRelease(vers.series).Some?)
    ensures r == Some(Systemd) ==> !legacyUpstart
    ensures vers.os == Ubuntu && UbuntuRelease(vers.series).Some? && UbuntuRelease(vers.series).value <= LastUpstartRelease
      ==> r == Some(Upstart)
  {
    match vers.os
    case Windows => Some(WindowsInit)
    case Ubuntu =>
      var release := UbuntuRelease(vers.series);
      if release.None? then None
      else if release.value <= LastUpstartRelease || legacyUpstart then Some(Upstart)
      else Some(Systemd)
    case _ => None
  }

  /** The legacy-upstart flag changes exactly one answer: systemd becomes upstart. */
  lemma LegacyUpstartOnlyReplacesSystemd(vers: Binary)
    ensures VersionInitSystem(vers, true) ==
      if VersionInitSystem(vers, false) == Some(Systemd) then Some(Upstart) else VersionInitSystem(vers, false)
  {
  }

  /** The rows of the discovery table, as the tests give them. */
  lemma DiscoveryTable(legacyUpstart: bool)
    ensures VersionInitSystem(Binary(Windows, ""), legacyUpstart) == Some(WindowsInit)
    ensures VersionInitSystem(Binary(Ubuntu, "oneiric"), legacyUpstart) == None
    ensures VersionInitSystem(Binary(Ubuntu, "precise"), legacyUpstart) == Some(Upstart)
    ensures VersionInitSystem(Binary(Ubuntu, "utopic"), legacyUpstart) == Some(Upstart)
    ensures VersionInitSystem(Binary(Ubuntu, "vivid"), legacyUpstart) == if legacyUpstart then Some(Upstart) else Some(Systemd)
    ensures VersionInitSystem(Binary(CentOS, ""), legacyUpstart) == None
    ensures VersionInitSystem(Binary(UnknownOS, ""), legacyUpstart) == None
  {
  }

  datatype Conf = Conf(desc: string, execStart: string)

  /** A service of the given init system, with its name and configuration. */
  datatype Service = Service(initSystem: InitSystem, name: string, conf: Conf)

  /** DiscoverService: the locally found init system when there is one
      (local stands for what inspecting the init process found), else the
      one the version implies, else a not-found error. */
  function DiscoverService(name: string, conf: Conf, local: Option<InitSystem>, vers: Binary, legacyUpstart: bool): (r: Result<Service, Error>)
    ensures r.Success? ==> r.value.name == name && r.value.conf == conf
    ensures local.Some? ==> r == Success(Service(local.value, name, conf))
    ensures local.None? ==> (r.Success? <==> VersionInitSystem(vers, legacyUpstart).Some?)
    ensures local.None? && r.Success? ==> Some(r.value.initSystem) == VersionInitSystem(vers, legacyUpstart)
    ensures r.Failure? ==> IsNotFound(r.error)
  {
    var initSystem := if local.Some? then local else VersionInitSystem(vers, legacyUpstart);
    if initSystem.None? then Failure(NotFound("init system"))
    else Success(Service(initSystem.value, name, conf))
  }
}
