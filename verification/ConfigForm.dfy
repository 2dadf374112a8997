/** The configuration form of config_editor.rs: validation into a configuration and display of one.
    Socket addresses are an abstract pair of a parser and a printer. */
module ConfigForm {
  import opened Wrappers
  import opened Bytes
  import opened Texts

  datatype SocketAddr = SocketAddr(host: string, port: u16)

  /** How socket addresses are read and written. */
  datatype Sockets = Sockets(parse: string -> Option<SocketAddr>, show: SocketAddr -> string)

  /** Every address that is read from some text prints as a text without white space around it that is
      read back as the same address. */
  ghost predicate Lawful(sockets: Sockets) {
    forall s: string | sockets.parse(s).Some? ::
      var shown := sockets.show(sockets.parse(s).value);
      sockets.parse(shown) == sockets.parse(s) && Trimmed(shown)
  }

  datatype Versions = Versions(
    azhash: string, cvhash: string, l2dhash: string, pichash: string, bgmhash: string,
    paintinghash: string, mangahash: string, cipherhash: string, dormhash: string)

  /** The six bind addresses, as typed or as parsed. */
  datatype Binds<T> = Binds(sdkHttp: T, sdkHttps: T, sdkProxy: T, sdkProxyUpstream: T, dispatch: T, gate: T)

  datatype Paths = Paths(mitmCaCert: string, mitmCaKey: string, tlsCert: string, tlsKey: string)

  datatype Form = Form(
    databaseUrl: string, sdkIp: string, dispatchIp: string, dispatchPort: string,
    serverIp: string, serverPort: string, serverName: string,
    versions: Versions, binds: Binds<string>, paths: Paths)

  datatype ServerInfo = ServerInfo(
    ids: seq<u32>, ip: string, port: u32, state: u32, name: string,
    tagState: Option<u32>, sort: Option<u32>, proxyIp: Option<string>, proxyPort: Option<u32>)

  datatype Config = Config(
    databaseUrl: string, sdkIp: string, dispatchIp: string, dispatchPort: u16,
    dispatchVersion: seq<string>, dispatchServers: seq<ServerInfo>,
    binds: Binds<SocketAddr>, paths: Paths)

  datatype FormError =
    | Empty(field: string)
    | NotSqlite
    | NotSocket(field: string)
    | SocketPortZero(field: string)
    | NotPort(field: string)
    | PortZero(field: string)
    | NotIpv4(field: string)
    | Wildcard(field: string)
    | Broadcast(field: string)
    | WrongVersionCount
    | NoServer

  function Required(value: string, field: string): Result<string, FormError> {
    var trimmed := Trim(value);
    if trimmed == [] then Failure(Empty(field)) else Success(trimmed)
  }

  function ParseSocket(sockets: Sockets, value: string, field: string): Result<SocketAddr, FormError> {
    match sockets.parse(Trim(value))
    case None => Failure(NotSocket(field))
    case Some(address) => if address.port == 0 then Failure(SocketPortZero(field)) else Success(address)
  }

  function ParsePort(value: string, field: string): Result<u16, FormError> {
    match ParseUnsigned(Trim(value), 65535)
    case None => Failure(NotPort(field))
    case Some(port) => if port == 0 then Failure(PortZero(field)) else Success(port)
  }

  function AdvertisedIpv4(value: string, field: string): Result<string, FormError> {
    var trimmed :- Required(value, field);
    match ParseIpv4(trimmed)
    case None => Failure(NotIpv4(field))
    case Some(octets) =>
      if octets == [0, 0, 0, 0] then Failure(Wildcard(field))
      else if octets == [255, 255, 255, 255] then Failure(Broadcast(field))
      else Success(PrintOctets(octets))
  }

  function RequiredVersions(v: Versions): Result<seq<string>, FormError> {
    var azhash :- Required(v.azhash, "azhash version");
    var cvhash :- Required(v.cvhash, "cvhash version");
    var l2dhash :- Required(v.l2dhash, "l2dhash version");
    var pichash :- Required(v.pichash, "pichash version");
    var bgmhash :- Required(v.bgmhash, "bgmhash version");
    var paintinghash :- Required(v.paintinghash, "paintinghash version");
    var mangahash :- Required(v.mangahash, "mangahash version");
    var cipherhash :- Required(v.cipherhash, "cipherhash version");
    var dormhash :- Required(v.dormhash, "dormhash version");
    Success([azhash, cvhash, l2dhash, pichash, bgmhash, paintinghash, mangahash, cipherhash, dormhash, "dTag-1"])
  }

  function IntoServer(f: Form): Result<ServerInfo, FormError> {
    var ip :- AdvertisedIpv4(f.serverIp, "Dispatch server IPv4");
    var port :- ParsePort(f.serverPort, "Dispatch server port");
    var name :- Required(f.serverName, "Dispatch server name");
    Success(ServerInfo([1], ip, port, 0, name, Some(2), Some(0), Some(ip), Some(port)))
  }

  function ParseBinds(sockets: Sockets, b: Binds<string>): Result<Binds<SocketAddr>, FormError> {
    var sdkHttp :- ParseSocket(sockets, b.sdkHttp, "SDK HTTP bind address");
    var sdkHttps :- ParseSocket(sockets, b.sdkHttps, "SDK HTTPS bind address");
    var sdkProxy :- ParseSocket(sockets, b.sdkProxy, "SDK proxy bind address");
    var sdkProxyUpstream :- ParseSocket(sockets, b.sdkProxyUpstream, "SDK proxy upstream");
    var dispatch :- ParseSocket(sockets, b.dispatch, "Dispatch bind address");
    var gate :- ParseSocket(sockets, b.gate, "Gate bind address");
    Success(Binds(sdkHttp, sdkHttps, sdkProxy, sdkProxyUpstream, dispatch, gate))
  }

  function RequiredPaths(p: Paths): Result<Paths, FormError> {
    var mitmCaCert :- Required(p.mitmCaCert, "MITM CA certificate path");
    var mitmCaKey :- Required(p.mitmCaKey, "MITM CA key path");
    var tlsCert :- Required(p.tlsCert, "SDK TLS certificate path");
    var tlsKey :- Required(p.tlsKey, "SDK TLS key path");
    Success(Paths(mitmCaCert, mitmCaKey, tlsCert, tlsKey))
  }

  /** Validates every field in the source's order and stops at the first bad one. */
  function IntoConfig(sockets: Sockets, f: Form): Result<Config, FormError> {
    var databaseUrl :- Required(f.databaseUrl, "Database URL");
    if !("sqlite:" <= databaseUrl) then Failure(NotSqlite)
    else
      var sdkIp :- AdvertisedIpv4(f.sdkIp, "SDK advertised IPv4");
      var dispatchIp :- AdvertisedIpv4(f.dispatchIp, "Dispatch advertised IPv4");
      var dispatchPort :- ParsePort(f.dispatchPort, "Dispatch advertised port");
      var server :- IntoServer(f);
      var dispatchVersion :- RequiredVersions(f.versions);
      var binds :- ParseBinds(sockets, f.binds);
      var paths :- RequiredPaths(f.paths);
      Success(Config(databaseUrl, sdkIp, dispatchIp, dispatchPort, dispatchVersion, [server], binds, paths))
  }

  predicate Tagged(version: string) {
    "dTag-" <= version
  }

  function Untagged(versions: seq<string>): seq<string> {
    if versions == [] then []
    else (if Tagged(versions[0]) then [] else [versions[0]]) + Untagged(versions[1..])
  }

  function ShowBinds(sockets: Sockets, b: Binds<SocketAddr>): Binds<string> {
    Binds(sockets.show(b.sdkHttp), sockets.show(b.sdkHttps), sockets.show(b.sdkProxy),
          sockets.show(b.sdkProxyUpstream), sockets.show(b.dispatch), sockets.show(b.gate))
  }

  function VersionsOf(v: seq<string>): Versions
    requires |v| == 9
  {
    Versions(v[0], v[1], v[2], v[3], v[4], v[5], v[6], v[7], v[8])
  }

  function FromConfig(sockets: Sockets, c: Config): Result<Form, FormError> {
    var v := Untagged(c.dispatchVersion);
    if |v| != 9 then Failure(WrongVersionCount)
    else if c.dispatchServers == [] then Failure(NoServer)
    else
      var server := c.dispatchServers[0];
      Success(Form(
        c.databaseUrl, c.sdkIp, c.dispatchIp, Print(c.dispatchPort),
        server.ip, Print(server.port), server.name,
        VersionsOf(v), ShowBinds(sockets, c.binds), c.paths))
  }

  // ---- Canonical forms ---------------------------------------------------------------------

  function CanonicalSocket(sockets: Sockets, value: string): string {
    match sockets.parse(Trim(value))
    case Some(address) => sockets.show(address)
    case None => Trim(value)
  }

  function CanonicalPort(value: string): string {
    match ParseUnsigned(Trim(value), 65535)
    case Some(port) => Print(port)
    case None => Trim(value)
  }

  function TrimVersions(v: Versions): Versions {
    Versions(Trim(v.azhash), Trim(v.cvhash), Trim(v.l2dhash), Trim(v.pichash), Trim(v.bgmhash),
             Trim(v.paintinghash), Trim(v.mangahash), Trim(v.cipherhash), Trim(v.dormhash))
  }

  function CanonicalBinds(sockets: Sockets, b: Binds<string>): Binds<string> {
    Binds(CanonicalSocket(sockets, b.sdkHttp), CanonicalSocket(sockets, b.sdkHttps),
          CanonicalSocket(sockets, b.sdkProxy), CanonicalSocket(sockets, b.sdkProxyUpstream),
          CanonicalSocket(sockets, b.dispatch), CanonicalSocket(sockets, b.gate))
  }

  function TrimPaths(p: Paths): Paths {
    Paths(Trim(p.mitmCaCert), Trim(p.mitmCaKey), Trim(p.tlsCert), Trim(p.tlsKey))
  }

  /** The form with every field trimmed, ports and socket addresses rewritten as they print. */
  function Canonicalised(sockets: Sockets, f: Form): Form {
    Form(Trim(f.databaseUrl), Trim(f.sdkIp), Trim(f.dispatchIp), CanonicalPort(f.dispatchPort),
         Trim(f.serverIp), CanonicalPort(f.serverPort), Trim(f.serverName),
         TrimVersions(f.versions), CanonicalBinds(sockets, f.binds), TrimPaths(f.paths))
  }

  function HashList(v: Versions): seq<string> {
    [v.azhash, v.cvhash, v.l2dhash, v.pichash, v.bgmhash, v.paintinghash, v.mangahash, v.cipherhash, v.dormhash]
  }

  /** No trimmed hash can be taken for the automatic tag entry. */
  predicate NoHashTagged(v: Versions) {
    forall i | 0 <= i < 9 :: !("dTag-" <= HashList(TrimVersions(v))[i])
  }

  // ---- Field by field ----------------------------------------------------------------------

  lemma RequiredIsStable(value: string, field: string)
    ensures Required(Trim(value), field) == Required(value, field)
  {
    TrimTrims(value);
  }

  lemma SocketIsStable(sockets: Sockets, value: string, field: string)
    requires Lawful(sockets)
    ensures ParseSocket(sockets, CanonicalSocket(sockets, value), field) == ParseSocket(sockets, value, field)
  {
    TrimTrims(value);
    match sockets.parse(Trim(value))
    case Some(a) => TrimTrims(sockets.show(a));
    case None =>
  }

  lemma PortIsStable(value: string, field: string)
    ensures ParsePort(CanonicalPort(value), field) == ParsePort(value, field)
    ensures ParsePort(value, field).Success? ==> CanonicalPort(value) == Print(ParsePort(value, field).value)
  {
    TrimTrims(value);
    match ParseUnsigned(Trim(value), 65535)
    case Some(port) => ParseUndoesPrint(port, 65535);
    case None =>
  }

  /** An accepted address is reported exactly as typed, trimmed. */
  lemma Ipv4IsStable(value: string, field: string)
    ensures AdvertisedIpv4(Trim(value), field) == AdvertisedIpv4(value, field)
    ensures AdvertisedIpv4(value, field).Success? ==> AdvertisedIpv4(value, field).value == Trim(value)
  {
    RequiredIsStable(value, field);
    if ParseIpv4(Trim(value)).Some? {
      OctetsAreCanonical(Trim(value), 4);
    }
  }

  lemma VersionsAreStable(v: Versions)
    ensures RequiredVersions(TrimVersions(v)) == RequiredVersions(v)
    ensures RequiredVersions(v).Success? ==>
              RequiredVersions(v).value == HashList(TrimVersions(v)) + ["dTag-1"]
  {
    TrimTrims(v.azhash);
    TrimTrims(v.cvhash);
    TrimTrims(v.l2dhash);
    TrimTrims(v.pichash);
    TrimTrims(v.bgmhash);
    TrimTrims(v.paintinghash);
    TrimTrims(v.mangahash);
    TrimTrims(v.cipherhash);
    TrimTrims(v.dormhash);
  }

  const VERSION_FIELDS := [
    "azhash version", "cvhash version", "l2dhash version", "pichash version", "bgmhash version",
    "paintinghash version", "mangahash version", "cipherhash version", "dormhash version"]

  /** The hashes are accepted if none is blank; otherwise the error names the first blank one. */
  lemma FirstBlankVersionIsNamed(v: Versions)
    ensures match RequiredVersions(v)
            case Success(_) => forall i | 0 <= i < 9 :: HashList(TrimVersions(v))[i] != []
            case Failure(e) =>
              exists i :: 0 <= i < 9 && e == Empty(VERSION_FIELDS[i]) && HashList(TrimVersions(v))[i] == []
                          && forall j | 0 <= j < i :: HashList(TrimVersions(v))[j] != []
  {
    hide Trim;
    var h := HashList(TrimVersions(v));
    var i := 0;
    while i < 9 && h[i] != []
      invariant 0 <= i <= 9 && forall j | 0 <= j < i :: h[j] != []
    {
      i := i + 1;
    }
    assert h[0] == Trim(v.azhash) && h[1] == Trim(v.cvhash) && h[2] == Trim(v.l2dhash) && h[3] == Trim(v.pichash);
    assert h[4] == Trim(v.bgmhash) && h[5] == Trim(v.paintinghash) && h[6] == Trim(v.mangahash);
    assert h[7] == Trim(v.cipherhash) && h[8] == Trim(v.dormhash);
    if i < 9 {
      assert RequiredVersions(v).Failure? && RequiredVersions(v).error == Empty(VERSION_FIELDS[i]);
    }
  }

  lemma BindsAreStable(sockets: Sockets, b: Binds<string>)
    requires Lawful(sockets)
    ensures ParseBinds(sockets, CanonicalBinds(sockets, b)) == ParseBinds(sockets, b)
  {
    SocketIsStable(sockets, b.sdkHttp, "SDK HTTP bind address");
    SocketIsStable(sockets, b.sdkHttps, "SDK HTTPS bind address");
    SocketIsStable(sockets, b.sdkProxy, "SDK proxy bind address");
    SocketIsStable(sockets, b.sdkProxyUpstream, "SDK proxy upstream");
    SocketIsStable(sockets, b.dispatch, "Dispatch bind address");
    SocketIsStable(sockets, b.gate, "Gate bind address");
  }

  lemma PathsAreStable(p: Paths)
    ensures RequiredPaths(TrimPaths(p)) == RequiredPaths(p)
    ensures RequiredPaths(p).Success? ==> RequiredPaths(p).value == TrimPaths(p)
  {
    TrimTrims(p.mitmCaCert);
    TrimTrims(p.mitmCaKey);
    TrimTrims(p.tlsCert);
    TrimTrims(p.tlsKey);
  }

  lemma ServerIsStable(sockets: Sockets, f: Form)
    ensures IntoServer(Canonicalised(sockets, f)) == IntoServer(f)
    ensures IntoServer(f).Success? ==>
              var s := IntoServer(f).value;
              && s.ip == Trim(f.serverIp) && s.name == Trim(f.serverName)
              && Print(s.port) == CanonicalPort(f.serverPort)
  {
    Ipv4IsStable(f.serverIp, "Dispatch server IPv4");
    PortIsStable(f.serverPort, "Dispatch server port");
    RequiredIsStable(f.serverName, "Dispatch server name");
  }

  lemma {:induction false} UntaggedKeepsAllIffNoneTagged(hashes: seq<string>)
    ensures var kept := Untagged(hashes + ["dTag-1"]);
            && |kept| <= |hashes|
            && (|kept| == |hashes| <==> forall i | 0 <= i < |hashes| :: !Tagged(hashes[i]))
            && (|kept| == |hashes| ==> kept == hashes)
  {
    var all := hashes + ["dTag-1"];
    if hashes == [] {
      assert all[1..] == [];
    } else {
      assert all[1..] == hashes[1..] + ["dTag-1"];
      UntaggedKeepsAllIffNoneTagged(hashes[1..]);
      assert forall i | 0 < i < |hashes| :: hashes[i] == hashes[1..][i - 1];
    }
  }

  // ---- The whole form ----------------------------------------------------------------------

  /** Canonicalising a form changes neither the configuration it yields nor the error it meets. */
  lemma CanonicalFormMeansTheSame(sockets: Sockets, f: Form)
    requires Lawful(sockets)
    ensures IntoConfig(sockets, Canonicalised(sockets, f)) == IntoConfig(sockets, f)
  {
    RequiredIsStable(f.databaseUrl, "Database URL");
    Ipv4IsStable(f.sdkIp, "SDK advertised IPv4");
    Ipv4IsStable(f.dispatchIp, "Dispatch advertised IPv4");
    PortIsStable(f.dispatchPort, "Dispatch advertised port");
    ServerIsStable(sockets, f);
    VersionsAreStable(f.versions);
    BindsAreStable(sockets, f.binds);
    PathsAreStable(f.paths);
  }

  /** Where each part of an accepted configuration comes from. */
  lemma AcceptedParts(sockets: Sockets, f: Form, c: Config)
    requires IntoConfig(sockets, f) == Success(c)
    ensures Required(f.databaseUrl, "Database URL") == Success(c.databaseUrl) && "sqlite:" <= c.databaseUrl
    ensures AdvertisedIpv4(f.sdkIp, "SDK advertised IPv4") == Success(c.sdkIp)
    ensures AdvertisedIpv4(f.dispatchIp, "Dispatch advertised IPv4") == Success(c.dispatchIp)
    ensures ParsePort(f.dispatchPort, "Dispatch advertised port") == Success(c.dispatchPort)
    ensures |c.dispatchServers| == 1 && IntoServer(f) == Success(c.dispatchServers[0])
    ensures RequiredVersions(f.versions) == Success(c.dispatchVersion)
    ensures ParseBinds(sockets, f.binds) == Success(c.binds)
    ensures RequiredPaths(f.paths) == Success(c.paths)
  {
    hide Required, AdvertisedIpv4, ParsePort, IntoServer, RequiredVersions, ParseBinds, RequiredPaths;
  }

  lemma BindsAreShown(sockets: Sockets, b: Binds<string>)
    requires ParseBinds(sockets, b).Success?
    ensures ShowBinds(sockets, ParseBinds(sockets, b).value) == CanonicalBinds(sockets, b)
  {
  }

  lemma VersionsAreShown(v: Versions, versions: seq<string>)
    requires versions == HashList(TrimVersions(v)) + ["dTag-1"]
    ensures var u := Untagged(versions);
            && (|u| == 9 <==> NoHashTagged(v))
            && (|u| == 9 ==> Versions(u[0], u[1], u[2], u[3], u[4], u[5], u[6], u[7], u[8]) == TrimVersions(v))
  {
    UntaggedKeepsAllIffNoneTagged(HashList(TrimVersions(v)));
  }

  lemma ShownParts(sockets: Sockets, f: Form, c: Config)
    requires c.databaseUrl == Trim(f.databaseUrl) && c.sdkIp == Trim(f.sdkIp) && c.dispatchIp == Trim(f.dispatchIp)
    requires Print(c.dispatchPort) == CanonicalPort(f.dispatchPort) && |c.dispatchServers| == 1
    requires c.dispatchServers[0].ip == Trim(f.serverIp) && c.dispatchServers[0].name == Trim(f.serverName)
    requires Print(c.dispatchServers[0].port) == CanonicalPort(f.serverPort)
    requires c.dispatchVersion == HashList(TrimVersions(f.versions)) + ["dTag-1"]
    requires ShowBinds(sockets, c.binds) == CanonicalBinds(sockets, f.binds) && c.paths == TrimPaths(f.paths)
    ensures FromConfig(sockets, c).Success? <==> NoHashTagged(f.versions)
    ensures FromConfig(sockets, c).Success? ==> FromConfig(sockets, c).value == Canonicalised(sockets, f)
  {
    VersionsAreShown(f.versions, c.dispatchVersion);
  }

  /** An accepted configuration can be displayed again if and only if no trimmed hash starts with
      "dTag-"; it is then displayed as the canonicalised form. */
  lemma AcceptedFormIsDisplayedIffUntagged(sockets: Sockets, f: Form)
    ensures IntoConfig(sockets, f).Success? ==>
              var shown := FromConfig(sockets, IntoConfig(sockets, f).value);
              && (shown.Success? <==> NoHashTagged(f.versions))
              && (shown.Success? ==> shown.value == Canonicalised(sockets, f))
  {
    if IntoConfig(sockets, f).Failure? {
      return;
    }
    var c := IntoConfig(sockets, f).value;
    AcceptedParts(sockets, f, c);
    VersionsAreStable(f.versions);
    Ipv4IsStable(f.sdkIp, "SDK advertised IPv4");
    Ipv4IsStable(f.dispatchIp, "Dispatch advertised IPv4");
    PortIsStable(f.dispatchPort, "Dispatch advertised port");
    ServerIsStable(sockets, f);
    BindsAreShown(sockets, f.binds);
    PathsAreStable(f.paths);
    ShownParts(sockets, f, c);
  }

  lemma RetaggedVersions(v: Versions, hash: string)
    requires RequiredVersions(v).Success? && "dTag-" <= Trim(hash)
    ensures RequiredVersions(v.(azhash := hash)).Success? && !NoHashTagged(v.(azhash := hash))
  {
    hide Trim;
    assert "dTag-" <= HashList(TrimVersions(v.(azhash := hash)))[0];
  }

  lemma RetaggedForm(sockets: Sockets, f: Form, v: Versions)
    requires IntoConfig(sockets, f).Success? && RequiredVersions(v).Success?
    ensures IntoConfig(sockets, f.(versions := v)).Success?
  {
    hide Trim, RequiredVersions, ParseBinds, RequiredPaths, AdvertisedIpv4, ParsePort, Required;
    assert IntoServer(f.(versions := v)) == IntoServer(f);
  }

  /** The failing forms are real: put a hash that starts with "dTag-" into any accepted form, and it is
      still accepted but can no longer be displayed. */
  lemma TaggedHashIsAcceptedButNotShown(sockets: Sockets, f: Form, hash: string)
    requires IntoConfig(sockets, f).Success? && "dTag-" <= Trim(hash)
    ensures var g := f.(versions := f.versions.(azhash := hash));
            && IntoConfig(sockets, g).Success?
            && FromConfig(sockets, IntoConfig(sockets, g).value).Failure?
  {
    var g := f.(versions := f.versions.(azhash := hash));
    AcceptedParts(sockets, f, IntoConfig(sockets, f).value);
    hide IntoConfig, FromConfig, NoHashTagged, RequiredVersions, Trim;
    hide Required, ParseBinds, RequiredPaths, IntoServer, AdvertisedIpv4, ParsePort;
    RetaggedVersions(f.versions, hash);
    RetaggedForm(sockets, f, g.versions);
    AcceptedFormIsDisplayedIffUntagged(sockets, g);
  }

  /** Reachable by clients: neither the wildcard nor the broadcast address. */
  predicate Reachable(ip: string) {
    var octets := ParseIpv4(ip);
    octets.Some? && octets.value != [0, 0, 0, 0] && octets.value != [255, 255, 255, 255]
  }

  lemma AcceptedIpv4IsReachable(value: string, field: string)
    requires AdvertisedIpv4(value, field).Success?
    ensures Reachable(AdvertisedIpv4(value, field).value)
  {
    Ipv4IsStable(value, field);
  }

  predicate Servable(c: Config) {
    && "sqlite:" <= c.databaseUrl
    && Reachable(c.sdkIp) && Reachable(c.dispatchIp) && c.dispatchPort > 0
    && NoPortZero(c.binds)
    && |c.dispatchVersion| == 10 && c.dispatchVersion[9] == "dTag-1" && [] !in c.dispatchVersion
    && |c.dispatchServers| == 1 && SelfProxied(c.dispatchServers[0])
  }

  predicate NoPortZero(b: Binds<SocketAddr>) {
    && b.sdkHttp.port > 0 && b.sdkHttps.port > 0 && b.sdkProxy.port > 0
    && b.sdkProxyUpstream.port > 0 && b.dispatch.port > 0 && b.gate.port > 0
  }

  predicate SelfProxied(s: ServerInfo) {
    && Reachable(s.ip) && 0 < s.port < 65536 && s.name != []
    && s.proxyIp == Some(s.ip) && s.proxyPort == Some(s.port)
  }

  lemma AcceptedVersions(v: Versions)
    requires RequiredVersions(v).Success?
    ensures var list := RequiredVersions(v).value; |list| == 10 && list[9] == "dTag-1" && [] !in list
  {
  }

  lemma AcceptedServer(f: Form)
    requires IntoServer(f).Success?
    ensures SelfProxied(IntoServer(f).value)
  {
    AcceptedIpv4IsReachable(f.serverIp, "Dispatch server IPv4");
  }

  lemma AcceptedBinds(sockets: Sockets, b: Binds<string>)
    requires ParseBinds(sockets, b).Success?
    ensures NoPortZero(ParseBinds(sockets, b).value)
  {
  }

  /** Whatever is accepted can be served: a SQLite database, reachable advertised addresses, no zero
      port anywhere, one server that is its own proxy, nine hashes and the tag. */
  lemma AcceptedConfigIsServable(sockets: Sockets, f: Form)
    ensures IntoConfig(sockets, f).Success? ==> Servable(IntoConfig(sockets, f).value)
  {
    if IntoConfig(sockets, f).Failure? {
      return;
    }
    AcceptedParts(sockets, f, IntoConfig(sockets, f).value);
    AcceptedIpv4IsReachable(f.sdkIp, "SDK advertised IPv4");
    AcceptedIpv4IsReachable(f.dispatchIp, "Dispatch advertised IPv4");
    AcceptedVersions(f.versions);
    AcceptedServer(f);
    AcceptedBinds(sockets, f.binds);
    hide IntoConfig, Required, AdvertisedIpv4, IntoServer, RequiredVersions, ParseBinds, RequiredPaths, Reachable;
  }

  // ---- From a loaded configuration and back ------------------------------------------------

  predicate Filled(s: string) {
    s != [] && Trimmed(s)
  }

  /** The addresses have been read from some text, as every loaded address has. */
  ghost predicate ReadFromText(sockets: Sockets, b: Binds<SocketAddr>) {
    && IsRead(sockets, b.sdkHttp) && IsRead(sockets, b.sdkHttps) && IsRead(sockets, b.sdkProxy)
    && IsRead(sockets, b.sdkProxyUpstream) && IsRead(sockets, b.dispatch) && IsRead(sockets, b.gate)
  }

  ghost predicate IsRead(sockets: Sockets, a: SocketAddr) {
    exists s: string :: sockets.parse(s) == Some(a)
  }

  predicate EditableIp(ip: string) {
    Trimmed(ip) && Reachable(ip)
  }

  /** Nine plain hashes, and the tag of this program behind them. */
  predicate EditableVersions(list: seq<string>) {
    && |list| == 10 && list[9] == "dTag-1"
    && forall i | 0 <= i < 9 :: Filled(list[i]) && !("dTag-" <= list[i])
  }

  /** The form shows a server's address, port and name; all else must be what the form would write. */
  predicate EditableServer(s: ServerInfo) {
    && EditableIp(s.ip) && 0 < s.port < 65536 && Filled(s.name)
    && s == ServerInfo([1], s.ip, s.port, 0, s.name, Some(2), Some(0), Some(s.ip), Some(s.port))
  }

  predicate EditablePaths(p: Paths) {
    Filled(p.mitmCaCert) && Filled(p.mitmCaKey) && Filled(p.tlsCert) && Filled(p.tlsKey)
  }

  predicate Editable(c: Config) {
    && Trimmed(c.databaseUrl) && "sqlite:" <= c.databaseUrl
    && EditableIp(c.sdkIp) && EditableIp(c.dispatchIp) && c.dispatchPort > 0
    && EditableVersions(c.dispatchVersion)
    && |c.dispatchServers| == 1 && EditableServer(c.dispatchServers[0])
    && NoPortZero(c.binds) && EditablePaths(c.paths)
  }

  lemma RequiredKeeps(value: string, field: string)
    ensures Required(value, field) == Success(value) <==> Filled(value)
  {
    TrimTrims(value);
  }

  lemma Ipv4Keeps(value: string, field: string)
    ensures AdvertisedIpv4(value, field) == Success(value) <==> EditableIp(value)
  {
    TrimTrims(value);
    Ipv4IsStable(value, field);
  }

  lemma PortKeeps(port: nat, field: string)
    ensures ParsePort(Print(port), field).Success? <==> 0 < port < 65536
    ensures ParsePort(Print(port), field).Success? ==> ParsePort(Print(port), field).value == port
  {
    ParseUndoesPrint(port, 65535);
  }

  lemma ServerKeeps(f: Form, s: ServerInfo)
    requires f.serverIp == s.ip && f.serverPort == Print(s.port) && f.serverName == s.name
    ensures IntoServer(f) == Success(s) <==> EditableServer(s)
  {
    Ipv4Keeps(s.ip, "Dispatch server IPv4");
    PortKeeps(s.port, "Dispatch server port");
    RequiredKeeps(s.name, "Dispatch server name");
    hide EditableIp, Filled, AdvertisedIpv4, ParsePort, Required, Print;
  }

  lemma SocketKeeps(sockets: Sockets, a: SocketAddr, field: string)
    requires Lawful(sockets) && IsRead(sockets, a)
    ensures ParseSocket(sockets, sockets.show(a), field)
            == if a.port == 0 then Failure(SocketPortZero(field)) else Success(a)
  {
    var s :| sockets.parse(s) == Some(a);
    TrimTrims(sockets.show(a));
  }

  lemma BindsKeep(sockets: Sockets, b: Binds<SocketAddr>)
    requires Lawful(sockets) && ReadFromText(sockets, b)
    ensures ParseBinds(sockets, ShowBinds(sockets, b)) == Success(b) <==> NoPortZero(b)
  {
    hide ParseSocket;
    SocketKeeps(sockets, b.sdkHttp, "SDK HTTP bind address");
    SocketKeeps(sockets, b.sdkHttps, "SDK HTTPS bind address");
    SocketKeeps(sockets, b.sdkProxy, "SDK proxy bind address");
    SocketKeeps(sockets, b.sdkProxyUpstream, "SDK proxy upstream");
    SocketKeeps(sockets, b.dispatch, "Dispatch bind address");
    SocketKeeps(sockets, b.gate, "Gate bind address");
  }

  lemma PathsKeep(p: Paths)
    ensures RequiredPaths(p) == Success(p) <==> EditablePaths(p)
  {
    hide Required, Filled;
    RequiredKeeps(p.mitmCaCert, "MITM CA certificate path");
    RequiredKeeps(p.mitmCaKey, "MITM CA key path");
    RequiredKeeps(p.tlsCert, "SDK TLS certificate path");
    RequiredKeeps(p.tlsKey, "SDK TLS key path");
  }

  lemma HashesRequired(v: Versions)
    ensures RequiredVersions(v).Success? <==> forall i | 0 <= i < 9 :: HashList(TrimVersions(v))[i] != []
  {
    FirstBlankVersionIsNamed(v);
    hide Trim, RequiredVersions;
  }

  lemma TrimmedHashes(v: Versions)
    ensures forall i | 0 <= i < 9 :: HashList(TrimVersions(v))[i] == Trim(HashList(v)[i])
  {
    hide Trim;
  }

  lemma FilledHashesKeep(v: Versions)
    requires forall i | 0 <= i < 9 :: Filled(HashList(v)[i])
    ensures RequiredVersions(v) == Success(HashList(v) + ["dTag-1"])
  {
    hide Trim, RequiredVersions, Trimmed;
    VersionsAreStable(v);
    HashesRequired(v);
    TrimmedHashes(v);
    forall i | 0 <= i < 9
      ensures Trim(HashList(v)[i]) == HashList(v)[i]
    {
      assert Filled(HashList(v)[i]);
      TrimTrims(HashList(v)[i]);
    }
    assert HashList(TrimVersions(v)) == HashList(v);
  }

  lemma VersionsKeep(list: seq<string>)
    ensures EditableVersions(list) <==>
            |Untagged(list)| == 9 && RequiredVersions(VersionsOf(Untagged(list))) == Success(list)
  {
    hide Trim, RequiredVersions, Trimmed;
    if EditableVersions(list) {
      var h := list[..9];
      assert list == h + ["dTag-1"];
      UntaggedKeepsAllIffNoneTagged(h);
      assert HashList(VersionsOf(h)) == h;
      FilledHashesKeep(VersionsOf(h));
    }
    if |Untagged(list)| == 9 && RequiredVersions(VersionsOf(Untagged(list))) == Success(list) {
      var v := VersionsOf(Untagged(list));
      var h := HashList(TrimVersions(v));
      VersionsAreStable(v);
      UntaggedKeepsAllIffNoneTagged(h);
      HashesRequired(v);
      TrimmedHashes(v);
      assert HashList(v) == Untagged(list) == h;
      forall i | 0 <= i < 9
        ensures Filled(list[i]) && !("dTag-" <= list[i])
      {
        assert list[i] == h[i] == Trim(h[i]);
        TrimTrims(h[i]);
      }
    }
  }

  lemma PartsAccepted(sockets: Sockets, f: Form, c: Config)
    requires Required(f.databaseUrl, "Database URL") == Success(c.databaseUrl) && "sqlite:" <= c.databaseUrl
    requires AdvertisedIpv4(f.sdkIp, "SDK advertised IPv4") == Success(c.sdkIp)
    requires AdvertisedIpv4(f.dispatchIp, "Dispatch advertised IPv4") == Success(c.dispatchIp)
    requires ParsePort(f.dispatchPort, "Dispatch advertised port") == Success(c.dispatchPort)
    requires |c.dispatchServers| == 1 && IntoServer(f) == Success(c.dispatchServers[0])
    requires RequiredVersions(f.versions) == Success(c.dispatchVersion)
    requires ParseBinds(sockets, f.binds) == Success(c.binds) && RequiredPaths(f.paths) == Success(c.paths)
    ensures IntoConfig(sockets, f) == Success(c)
  {
    hide Required, AdvertisedIpv4, ParsePort, IntoServer, RequiredVersions, ParseBinds, RequiredPaths;
    assert c.dispatchServers == [c.dispatchServers[0]];
  }

  /** What the form shows of a configuration, field by field, is taken back exactly as it was if and only
      if the field is editable. */
  lemma ShownFieldsKeep(sockets: Sockets, f: Form, c: Config)
    requires Lawful(sockets) && ReadFromText(sockets, c.binds) && c.dispatchServers != []
    requires FromConfig(sockets, c) == Success(f)
    ensures Required(f.databaseUrl, "Database URL") == Success(c.databaseUrl) <==> Filled(c.databaseUrl)
    ensures AdvertisedIpv4(f.sdkIp, "SDK advertised IPv4") == Success(c.sdkIp) <==> EditableIp(c.sdkIp)
    ensures AdvertisedIpv4(f.dispatchIp, "Dispatch advertised IPv4") == Success(c.dispatchIp)
            <==> EditableIp(c.dispatchIp)
    ensures ParsePort(f.dispatchPort, "Dispatch advertised port") == Success(c.dispatchPort) <==> c.dispatchPort > 0
    ensures IntoServer(f) == Success(c.dispatchServers[0]) <==> EditableServer(c.dispatchServers[0])
    ensures RequiredVersions(f.versions) == Success(c.dispatchVersion) <==> EditableVersions(c.dispatchVersion)
    ensures ParseBinds(sockets, f.binds) == Success(c.binds) <==> NoPortZero(c.binds)
    ensures RequiredPaths(f.paths) == Success(c.paths) <==> EditablePaths(c.paths)
  {
    RequiredKeeps(c.databaseUrl, "Database URL");
    Ipv4Keeps(c.sdkIp, "SDK advertised IPv4");
    Ipv4Keeps(c.dispatchIp, "Dispatch advertised IPv4");
    PortKeeps(c.dispatchPort, "Dispatch advertised port");
    ServerKeeps(f, c.dispatchServers[0]);
    VersionsKeep(c.dispatchVersion);
    BindsKeep(sockets, c.binds);
    PathsKeep(c.paths);
    hide Required, AdvertisedIpv4, ParsePort, IntoServer, RequiredVersions, ParseBinds, RequiredPaths;
    hide ShowBinds, Untagged;
    hide EditableIp, EditableServer, EditableVersions, NoPortZero, EditablePaths, Filled, Lawful, ReadFromText, Print;
  }

  /** Showing a loaded configuration in the form and taking it back gives the same configuration if and
      only if it is editable. A second server, other ids, state, sort or proxy of the first one, a tag in
      another place, or blanks around a text, are lost or refused. */
  lemma LoadedConfigSurvivesIffEditable(sockets: Sockets, c: Config)
    requires Lawful(sockets) && ReadFromText(sockets, c.binds)
    ensures Editable(c) <==>
            && FromConfig(sockets, c).Success?
            && IntoConfig(sockets, FromConfig(sockets, c).value) == Success(c)
  {
    if FromConfig(sockets, c).Success? {
      var f := FromConfig(sockets, c).value;
      ShownFieldsKeep(sockets, f, c);
      hide FromConfig, IntoConfig, Required, AdvertisedIpv4, ParsePort, IntoServer, RequiredVersions, ParseBinds;
      hide RequiredPaths, EditableIp, EditableServer, EditableVersions, NoPortZero, EditablePaths, Lawful, ReadFromText;
      if IntoConfig(sockets, f) == Success(c) {
        AcceptedParts(sockets, f, c);
      }
      if Editable(c) {
        PartsAccepted(sockets, f, c);
      }
    } else {
      VersionsKeep(c.dispatchVersion);
    }
  }

  // ---- Which error is reported -------------------------------------------------------------

  function ErrorOf<T>(r: Result<T, FormError>): Option<FormError> {
    if r.Failure? then Some(r.error) else None
  }

  function BlankError(value: string, field: string): Option<FormError> {
    if Trim(value) == [] then Some(Empty(field)) else None
  }

  function IpError(value: string, field: string): Option<FormError> {
    var octets := ParseIpv4(Trim(value));
    if Trim(value) == [] then Some(Empty(field))
    else if octets.None? then Some(NotIpv4(field))
    else if octets.value == [0, 0, 0, 0] then Some(Wildcard(field))
    else if octets.value == [255, 255, 255, 255] then Some(Broadcast(field))
    else None
  }

  function PortError(value: string, field: string): Option<FormError> {
    var port := ParseUnsigned(Trim(value), 65535);
    if port.None? then Some(NotPort(field)) else if port.value == 0 then Some(PortZero(field)) else None
  }

  function SocketError(sockets: Sockets, value: string, field: string): Option<FormError> {
    var address := sockets.parse(Trim(value));
    if address.None? then Some(NotSocket(field))
    else if address.value.port == 0 then Some(SocketPortZero(field)) else None
  }

  /** `e` is the first verdict that is an error, or there is none. */
  ghost predicate Reports(verdicts: seq<Option<FormError>>, e: Option<FormError>) {
    if e.None? then forall i | 0 <= i < |verdicts| :: verdicts[i] == None
    else exists i :: 0 <= i < |verdicts| && verdicts[i] == e && forall j | 0 <= j < i :: verdicts[j] == None
  }

  lemma ReportsBoth(a: seq<Option<FormError>>, b: seq<Option<FormError>>, ea: Option<FormError>, eb: Option<FormError>)
    requires Reports(a, ea) && Reports(b, eb)
    ensures Reports(a + b, if ea.Some? then ea else eb)
  {
    var all := a + b;
    assert forall i | 0 <= i < |a| :: all[i] == a[i];
    if ea.Some? {
      var i :| 0 <= i < |a| && a[i] == ea && forall j | 0 <= j < i :: a[j] == None;
      assert all[i] == ea;
    } else if eb.Some? {
      var i :| 0 <= i < |b| && b[i] == eb && forall j | 0 <= j < i :: b[j] == None;
      assert all[|a| + i] == eb;
    }
  }

  function VersionVerdicts(v: Versions): seq<Option<FormError>> {
    [BlankError(v.azhash, "azhash version"), BlankError(v.cvhash, "cvhash version"),
     BlankError(v.l2dhash, "l2dhash version"), BlankError(v.pichash, "pichash version"),
     BlankError(v.bgmhash, "bgmhash version"), BlankError(v.paintinghash, "paintinghash version"),
     BlankError(v.mangahash, "mangahash version"), BlankError(v.cipherhash, "cipherhash version"),
     BlankError(v.dormhash, "dormhash version")]
  }

  function BindVerdicts(sockets: Sockets, b: Binds<string>): seq<Option<FormError>> {
    [SocketError(sockets, b.sdkHttp, "SDK HTTP bind address"),
     SocketError(sockets, b.sdkHttps, "SDK HTTPS bind address"),
     SocketError(sockets, b.sdkProxy, "SDK proxy bind address"),
     SocketError(sockets, b.sdkProxyUpstream, "SDK proxy upstream"),
     SocketError(sockets, b.dispatch, "Dispatch bind address"),
     SocketError(sockets, b.gate, "Gate bind address")]
  }

  function PathVerdicts(p: Paths): seq<Option<FormError>> {
    [BlankError(p.mitmCaCert, "MITM CA certificate path"), BlankError(p.mitmCaKey, "MITM CA key path"),
     BlankError(p.tlsCert, "SDK TLS certificate path"), BlankError(p.tlsKey, "SDK TLS key path")]
  }

  function UrlVerdicts(url: string): seq<Option<FormError>> {
    [BlankError(url, "Database URL"), if "sqlite:" <= Trim(url) then None else Some(NotSqlite)]
  }

  function AdvertisedVerdicts(f: Form): seq<Option<FormError>> {
    [IpError(f.sdkIp, "SDK advertised IPv4"), IpError(f.dispatchIp, "Dispatch advertised IPv4"),
     PortError(f.dispatchPort, "Dispatch advertised port"), IpError(f.serverIp, "Dispatch server IPv4"),
     PortError(f.serverPort, "Dispatch server port"), BlankError(f.serverName, "Dispatch server name")]
  }

  /** The verdict on every field, in the order in which the form is checked. */
  function Verdicts(sockets: Sockets, f: Form): seq<Option<FormError>> {
    UrlVerdicts(f.databaseUrl)
    + (AdvertisedVerdicts(f)
       + (VersionVerdicts(f.versions) + (BindVerdicts(sockets, f.binds) + PathVerdicts(f.paths))))
  }

  lemma FieldErrors(sockets: Sockets, value: string, field: string)
    ensures ErrorOf(Required(value, field)) == BlankError(value, field)
    ensures ErrorOf(AdvertisedIpv4(value, field)) == IpError(value, field)
    ensures ErrorOf(ParsePort(value, field)) == PortError(value, field)
    ensures ErrorOf(ParseSocket(sockets, value, field)) == SocketError(sockets, value, field)
  {
    hide Trim, ParseUnsigned, ParseIpv4, PrintOctets;
  }

  lemma FirstError(verdicts: seq<Option<FormError>>) returns (i: nat)
    ensures i <= |verdicts| && (i < |verdicts| ==> verdicts[i].Some?)
    ensures forall j | 0 <= j < i :: verdicts[j] == None
  {
    i := 0;
    while i < |verdicts| && verdicts[i].None?
      invariant i <= |verdicts| && forall j | 0 <= j < i :: verdicts[j] == None
    {
      i := i + 1;
    }
  }

  lemma VersionsReport(v: Versions)
    ensures Reports(VersionVerdicts(v), ErrorOf(RequiredVersions(v)))
  {
    hide Trim;
    var verdicts := VersionVerdicts(v);
    var i := FirstError(verdicts);
    assert verdicts[0] == BlankError(v.azhash, "azhash version");
    assert verdicts[1] == BlankError(v.cvhash, "cvhash version");
    assert verdicts[2] == BlankError(v.l2dhash, "l2dhash version");
    assert verdicts[3] == BlankError(v.pichash, "pichash version");
    assert verdicts[4] == BlankError(v.bgmhash, "bgmhash version");
    assert verdicts[5] == BlankError(v.paintinghash, "paintinghash version");
    assert verdicts[6] == BlankError(v.mangahash, "mangahash version");
    assert verdicts[7] == BlankError(v.cipherhash, "cipherhash version");
    assert verdicts[8] == BlankError(v.dormhash, "dormhash version");
    assert i < 9 ==> ErrorOf(RequiredVersions(v)) == verdicts[i];
  }

  lemma BindsReport(sockets: Sockets, b: Binds<string>)
    ensures Reports(BindVerdicts(sockets, b), ErrorOf(ParseBinds(sockets, b)))
  {
    hide Trim;
    var verdicts := BindVerdicts(sockets, b);
    var i := FirstError(verdicts);
    assert verdicts[0] == SocketError(sockets, b.sdkHttp, "SDK HTTP bind address");
    assert verdicts[1] == SocketError(sockets, b.sdkHttps, "SDK HTTPS bind address");
    assert verdicts[2] == SocketError(sockets, b.sdkProxy, "SDK proxy bind address");
    assert verdicts[3] == SocketError(sockets, b.sdkProxyUpstream, "SDK proxy upstream");
    assert verdicts[4] == SocketError(sockets, b.dispatch, "Dispatch bind address");
    assert verdicts[5] == SocketError(sockets, b.gate, "Gate bind address");
    assert i < 6 ==> ErrorOf(ParseBinds(sockets, b)) == verdicts[i];
  }

  lemma PathsReport(p: Paths)
    ensures Reports(PathVerdicts(p), ErrorOf(RequiredPaths(p)))
  {
    hide Trim;
    var verdicts := PathVerdicts(p);
    var i := FirstError(verdicts);
    assert verdicts[0] == BlankError(p.mitmCaCert, "MITM CA certificate path");
    assert verdicts[1] == BlankError(p.mitmCaKey, "MITM CA key path");
    assert verdicts[2] == BlankError(p.tlsCert, "SDK TLS certificate path");
    assert verdicts[3] == BlankError(p.tlsKey, "SDK TLS key path");
    assert i < 4 ==> ErrorOf(RequiredPaths(p)) == verdicts[i];
  }

  function AdvertisedError(f: Form): Option<FormError> {
    var sdkIp := AdvertisedIpv4(f.sdkIp, "SDK advertised IPv4");
    var dispatchIp := AdvertisedIpv4(f.dispatchIp, "Dispatch advertised IPv4");
    var dispatchPort := ParsePort(f.dispatchPort, "Dispatch advertised port");
    if sdkIp.Failure? then Some(sdkIp.error)
    else if dispatchIp.Failure? then Some(dispatchIp.error)
    else if dispatchPort.Failure? then Some(dispatchPort.error)
    else ErrorOf(IntoServer(f))
  }

  lemma AdvertisedReport(sockets: Sockets, f: Form)
    ensures Reports(AdvertisedVerdicts(f), AdvertisedError(f))
  {
    FieldErrors(sockets, f.sdkIp, "SDK advertised IPv4");
    FieldErrors(sockets, f.dispatchIp, "Dispatch advertised IPv4");
    FieldErrors(sockets, f.dispatchPort, "Dispatch advertised port");
    FieldErrors(sockets, f.serverIp, "Dispatch server IPv4");
    FieldErrors(sockets, f.serverPort, "Dispatch server port");
    FieldErrors(sockets, f.serverName, "Dispatch server name");
    hide AdvertisedIpv4, ParsePort, Required, ParseSocket, IpError, PortError, BlankError, SocketError;
    var verdicts := AdvertisedVerdicts(f);
    var i := FirstError(verdicts);
    assert verdicts[0] == ErrorOf(AdvertisedIpv4(f.sdkIp, "SDK advertised IPv4"));
    assert verdicts[1] == ErrorOf(AdvertisedIpv4(f.dispatchIp, "Dispatch advertised IPv4"));
    assert verdicts[2] == ErrorOf(ParsePort(f.dispatchPort, "Dispatch advertised port"));
    assert verdicts[3] == ErrorOf(AdvertisedIpv4(f.serverIp, "Dispatch server IPv4"));
    assert verdicts[4] == ErrorOf(ParsePort(f.serverPort, "Dispatch server port"));
    assert verdicts[5] == ErrorOf(Required(f.serverName, "Dispatch server name"));
    assert i < 6 ==> AdvertisedError(f) == verdicts[i];
  }

  lemma ErrorParts(sockets: Sockets, f: Form)
    ensures ErrorOf(IntoConfig(sockets, f)) ==
            if Trim(f.databaseUrl) == [] then Some(Empty("Database URL"))
            else if !("sqlite:" <= Trim(f.databaseUrl)) then Some(NotSqlite)
            else if AdvertisedError(f).Some? then AdvertisedError(f)
            else if RequiredVersions(f.versions).Failure? then Some(RequiredVersions(f.versions).error)
            else if ParseBinds(sockets, f.binds).Failure? then Some(ParseBinds(sockets, f.binds).error)
            else ErrorOf(RequiredPaths(f.paths))
  {
    hide Trim, AdvertisedIpv4, ParsePort, IntoServer, RequiredVersions, ParseBinds, RequiredPaths;
  }

  /** The error reported for a form is the first one in the order of the fields: URL, advertised addresses
      and port, server, the nine hashes, the six bind addresses, the four paths. */
  lemma FirstErrorIsReported(sockets: Sockets, f: Form)
    ensures Reports(Verdicts(sockets, f), ErrorOf(IntoConfig(sockets, f)))
  {
    ErrorParts(sockets, f);
    var url := if Trim(f.databaseUrl) == [] then Some(Empty("Database URL"))
               else if !("sqlite:" <= Trim(f.databaseUrl)) then Some(NotSqlite) else None;
    assert Reports(UrlVerdicts(f.databaseUrl), url) by { UrlReport(f.databaseUrl); }
    AdvertisedReport(sockets, f);
    VersionsReport(f.versions);
    BindsReport(sockets, f.binds);
    PathsReport(f.paths);
    hide Trim, Reports, IntoConfig, AdvertisedError, RequiredVersions, ParseBinds, RequiredPaths;
    hide UrlVerdicts, AdvertisedVerdicts, VersionVerdicts, BindVerdicts, PathVerdicts;
    var versions, binds := ErrorOf(RequiredVersions(f.versions)), ErrorOf(ParseBinds(sockets, f.binds));
    var paths := ErrorOf(RequiredPaths(f.paths));
    var last := BindVerdicts(sockets, f.binds) + PathVerdicts(f.paths);
    ReportsBoth(BindVerdicts(sockets, f.binds), PathVerdicts(f.paths), binds, paths);
    ReportsBoth(VersionVerdicts(f.versions), last, versions, if binds.Some? then binds else paths);
    ReportsBoth(AdvertisedVerdicts(f), VersionVerdicts(f.versions) + last, AdvertisedError(f),
                if versions.Some? then versions else if binds.Some? then binds else paths);
    ReportsBoth(UrlVerdicts(f.databaseUrl), AdvertisedVerdicts(f) + (VersionVerdicts(f.versions) + last), url,
                if AdvertisedError(f).Some? then AdvertisedError(f)
                else if versions.Some? then versions else if binds.Some? then binds else paths);
  }

  lemma UrlReport(url: string)
    ensures Reports(UrlVerdicts(url), if Trim(url) == [] then Some(Empty("Database URL"))
                                      else if !("sqlite:" <= Trim(url)) then Some(NotSqlite) else None)
  {
    hide Trim;
    var verdicts := UrlVerdicts(url);
    assert Trim(url) == [] ==> verdicts[0] == Some(Empty("Database URL"));
    assert verdicts[1] == if "sqlite:" <= Trim(url) then None else Some(NotSqlite);
  }
}
