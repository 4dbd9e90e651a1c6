/** internal/config/config.go on values: what three layers of configuration, and the steps after them,
    make of one server. The heap version is in ConfigHeap. */
module ConfigLayers {
  import opened Basics

  type StringMap = map<string, string>

  datatype Port = Port(hostPort: int, containerPort: int, protocol: string)

  datatype Volume = Volume(hostPath: string, containerPath: string, mode: string)

  /** The fields that are maps and slices. */
  datatype Collections = Collections(env: StringMap, labels: StringMap, ports: seq<Port>, volumes: seq<Volume>)

  /** The other fields of a server; the Set flags tell whether its YAML node had the key. */
  datatype Plain = Plain(
    key: string, containerName: string, mode: string, slot: int, port: int, execConfig: string,
    restartPolicy: string, groups: seq<string>,
    workshopMapID: string, maxPlayers: int, workingDir: string, networkMode: string, image: string,
    entrypoint: seq<string>, command: seq<string>, commandTemplate: seq<string>,
    stdinOpen: bool, tty: bool, startAfterMonitor: bool,
    stdinOpenSet: bool, ttySet: bool, startAfterMonitorSet: bool)

  datatype PlainDefaults = PlainDefaults(
    restartPolicy: string, workshopMapID: string, maxPlayers: int, workingDir: string, networkMode: string, image: string,
    entrypoint: seq<string>, command: seq<string>, commandTemplate: seq<string>,
    stdinOpen: bool, tty: bool, startAfterMonitor: Option<bool>)

  datatype PlainMode = PlainMode(
    groups: seq<string>, workshopMapID: string, maxPlayers: int, workingDir: string, networkMode: string,
    command: seq<string>, commandTemplate: seq<string>,
    stdinOpen: Option<bool>, tty: Option<bool>, startAfterMonitor: Option<bool>)

  datatype Server = Server(plain: Plain, data: Collections)

  datatype Defaults = Defaults(plain: PlainDefaults, data: Collections)

  datatype Mode = Mode(plain: PlainMode, data: Collections)

  /** Go's zero value, the result of looking up a mode that is not there. */
  const NO_MODE := Mode(PlainMode([], "", 0, "", "", [], [], None, None, None), Collections(map[], map[], [], []))

  function Or(a: string, b: string): string { if a == "" then b else a }

  function OrList(a: seq<string>, b: seq<string>): seq<string> { if a == [] then b else a }

  // ---- the two passes, as the program makes them ----

  /** applyDefaults; maps are merged, ports and volumes put in front. */
  function WithDefaults(s: Server, d: Defaults): Server {
    Server(PlainWithDefaults(s.plain, d.plain), DataWithDefaults(s.data, d.data))
  }

  function PlainWithDefaults(s: Plain, d: PlainDefaults): Plain {
    s.(workshopMapID := Or(s.workshopMapID, d.workshopMapID),
       maxPlayers := if s.maxPlayers <= 0 then d.maxPlayers else s.maxPlayers,
       workingDir := Or(s.workingDir, d.workingDir),
       networkMode := Or(s.networkMode, d.networkMode),
       restartPolicy := Or(s.restartPolicy, d.restartPolicy),
       image := Or(s.image, d.image),
       entrypoint := OrList(s.entrypoint, d.entrypoint),
       command := OrList(s.command, d.command),
       commandTemplate := OrList(s.commandTemplate, d.commandTemplate),
       stdinOpen := (d.stdinOpen && !s.stdinOpenSet) || s.stdinOpen,
       tty := (d.tty && !s.ttySet) || s.tty,
       startAfterMonitor := if d.startAfterMonitor.Some? && !s.startAfterMonitorSet then d.startAfterMonitor.value
                            else s.startAfterMonitor)
  }

  function DataWithDefaults(s: Collections, d: Collections): Collections {
    Collections(d.env + s.env, d.labels + s.labels, d.ports + s.ports, d.volumes + s.volumes)
  }

  /** withoutTrailingPorts and withoutTrailingVolumes: cut off as many items as the server brought. */
  function WithoutTrailing<T>(values: seq<T>, n: nat): seq<T> {
    if |values| < n then values else values[..|values| - n]
  }

  function Overridden(isSet: bool, mode: Option<bool>, current: bool): bool {
    if mode.Some? && !isSet then mode.value else current
  }

  /** applyMode; o is the server before applyDefaults. */
  function WithMode(s: Server, m: Mode, o: Server): Server {
    Server(PlainWithMode(s.plain, m.plain, o.plain), DataWithMode(s.data, m.data, o.data))
  }

  function PlainWithMode(s: Plain, m: PlainMode, o: Plain): Plain {
    s.(groups := if m.groups != [] && s.groups == [] then m.groups else s.groups,
       workshopMapID := if o.workshopMapID == "" && m.workshopMapID != "" then m.workshopMapID else s.workshopMapID,
       maxPlayers := if o.maxPlayers <= 0 && m.maxPlayers > 0 then m.maxPlayers else s.maxPlayers,
       workingDir := if o.workingDir == "" && m.workingDir != "" then m.workingDir else s.workingDir,
       networkMode := if o.networkMode == "" && m.networkMode != "" then m.networkMode else s.networkMode,
       command := if o.command == [] && m.command != [] then m.command else s.command,
       commandTemplate := if o.commandTemplate == [] && m.commandTemplate != [] then m.commandTemplate
                          else s.commandTemplate,
       stdinOpen := Overridden(o.stdinOpenSet, m.stdinOpen, s.stdinOpen),
       tty := Overridden(o.ttySet, m.tty, s.tty),
       startAfterMonitor := Overridden(o.startAfterMonitorSet, m.startAfterMonitor, s.startAfterMonitor))
  }

  function MapWithMode(s: StringMap, m: StringMap, o: StringMap): StringMap {
    if m != map[] then s + m + o else s
  }

  function ListWithMode<T>(s: seq<T>, m: seq<T>, o: seq<T>): seq<T> {
    if |m| > 0 then WithoutTrailing(s, |o|) + m + o else s
  }

  function DataWithMode(s: Collections, m: Collections, o: Collections): Collections {
    Collections(MapWithMode(s.env, m.env, o.env), MapWithMode(s.labels, m.labels, o.labels),
                ListWithMode(s.ports, m.ports, o.ports), ListWithMode(s.volumes, m.volumes, o.volumes))
  }

  // ---- the direct lookup ----

  /** The most specific layer that has the key. */
  function Lookup(server: StringMap, mode: StringMap, defaults: StringMap, key: string): Option<string> {
    if key in server then Some(server[key])
    else if key in mode then Some(mode[key])
    else if key in defaults then Some(defaults[key])
    else None
  }

  function Get(m: StringMap, key: string): Option<string> { if key in m then Some(m[key]) else None }

  /** A flag: the server's if its YAML sets it, else the mode's, else the defaults', else what the server
      has without any of them. */
  function Flag(server: bool, isSet: bool, mode: Option<bool>, defaults: Option<bool>): bool {
    if isSet then server
    else if mode.Some? then mode.value
    else if defaults.Some? then defaults.value
    else server
  }

  function SetIf(b: bool): Option<bool> { if b then Some(true) else None }

  ghost predicate MapLayered(r: StringMap, server: StringMap, mode: StringMap, defaults: StringMap) {
    forall k :: Get(r, k) == Lookup(server, mode, defaults, k)
  }

  ghost predicate CollectionsLayered(r: Collections, s: Collections, m: Collections, d: Collections) {
    && MapLayered(r.env, s.env, m.env, d.env)
    && MapLayered(r.labels, s.labels, m.labels, d.labels)
    && r.ports == d.ports + m.ports + s.ports
    && r.volumes == d.volumes + m.volumes + s.volumes
  }

  ghost predicate ScalarsLayered(r: Plain, s: Plain, m: PlainMode, d: PlainDefaults) {
    && r.workshopMapID == Or(s.workshopMapID, Or(m.workshopMapID, d.workshopMapID))
    && r.workingDir == Or(s.workingDir, Or(m.workingDir, d.workingDir))
    && r.networkMode == Or(s.networkMode, Or(m.networkMode, d.networkMode))
    && r.image == Or(s.image, d.image)
    && r.restartPolicy == Or(s.restartPolicy, d.restartPolicy)   // decoding has filled it in
    && r.maxPlayers == (if s.maxPlayers > 0 then s.maxPlayers else if m.maxPlayers > 0 then m.maxPlayers else d.maxPlayers)
    && (r.key, r.containerName, r.mode, r.slot) == (s.key, s.containerName, s.mode, s.slot)
    && (r.port, r.execConfig) == (s.port, s.execConfig)
  }

  ghost predicate ListsLayered(r: Plain, s: Plain, m: PlainMode, d: PlainDefaults) {
    && r.groups == OrList(s.groups, m.groups)
    && r.entrypoint == OrList(s.entrypoint, d.entrypoint)
    && r.command == OrList(s.command, OrList(m.command, d.command))
    && r.commandTemplate == OrList(s.commandTemplate, OrList(m.commandTemplate, d.commandTemplate))
  }

  ghost predicate FlagsLayered(r: Plain, s: Plain, m: PlainMode, d: PlainDefaults) {
    && r.stdinOpen == Flag(s.stdinOpen, s.stdinOpenSet, m.stdinOpen, SetIf(d.stdinOpen))
    && r.tty == Flag(s.tty, s.ttySet, m.tty, SetIf(d.tty))
    && r.startAfterMonitor == Flag(s.startAfterMonitor, s.startAfterMonitorSet, m.startAfterMonitor, d.startAfterMonitor)
  }

  lemma LayeredMap(s: StringMap, m: StringMap, d: StringMap)
    ensures MapLayered(MapWithMode(d + s, m, s), s, m, d)
  {
  }

  lemma LayeredList<T>(s: seq<T>, m: seq<T>, d: seq<T>)
    ensures ListWithMode(d + s, m, s) == d + m + s
  {
    assert WithoutTrailing(d + s, |s|) == d;
    assert |m| == 0 ==> d + m == d;
  }

  lemma DataLayered(s: Collections, m: Collections, d: Collections)
    ensures CollectionsLayered(DataWithMode(DataWithDefaults(s, d), m, s), s, m, d)
  {
    LayeredMap(s.env, m.env, d.env);
    LayeredMap(s.labels, m.labels, d.labels);
    LayeredList(s.ports, m.ports, d.ports);
    LayeredList(s.volumes, m.volumes, d.volumes);
  }

  lemma PlainLayered(s: Plain, m: PlainMode, d: PlainDefaults)
    ensures var r := PlainWithMode(PlainWithDefaults(s, d), m, s);
            ScalarsLayered(r, s, m, d) && ListsLayered(r, s, m, d) && FlagsLayered(r, s, m, d)
  {
  }

  /** applyDefaults followed by applyMode is the direct three-layer lookup. */
  lemma PassesAreLayered(s: Server, m: Mode, d: Defaults)
    ensures var r := WithMode(WithDefaults(s, d), m, s);
            && CollectionsLayered(r.data, s.data, m.data, d.data)
            && ScalarsLayered(r.plain, s.plain, m.plain, d.plain)
            && ListsLayered(r.plain, s.plain, m.plain, d.plain)
            && FlagsLayered(r.plain, s.plain, m.plain, d.plain)
  {
    DataLayered(s.data, m.data, d.data);
    PlainLayered(s.plain, m.plain, d.plain);
  }

  /** The command after the layers: the most specific one there is. Only if there is none is the most
      specific template rendered, so a server's own template is ignored when a mode or the defaults bring a
      command. */
  lemma CommandIs(s: Server, m: Mode, d: Defaults, o: Options)
    ensures var r := Finalized(WithMode(WithDefaults(s, d), m, s), o).plain;
            var command := OrList(s.plain.command, OrList(m.plain.command, d.plain.command));
            var template := OrList(s.plain.commandTemplate, OrList(m.plain.commandTemplate, d.plain.commandTemplate));
            && r.commandTemplate == template
            && r.command == if command != [] then command
                            else o.render(OrList(template, o.defaultTemplate), r.(command := []))
  {
    PlainLayered(s.plain, m.plain, d.plain);
    FinalCommand(PlainWithMode(PlainWithDefaults(s.plain, d.plain), m.plain, s.plain), o);
  }

  lemma FinalCommand(s: Plain, o: Options)
    ensures var r := FinalPlain(s, o);
            && r.commandTemplate == s.commandTemplate
            && r.command == if s.command != [] then s.command
                            else o.render(OrList(s.commandTemplate, o.defaultTemplate), r.(command := []))
  {
    var t := s.(groups := FinalGroups(s), execConfig := FinalExecConfig(s, FinalGroups(s), o));
    assert s.command == [] ==> FinalPlain(s, o).(command := []) == t;
  }

  /** The failing case by itself: a server with its own template, and a command from another layer. */
  lemma TemplateShadowed(s: Server, m: Mode, d: Defaults, o: Options)
    requires s.plain.command == [] && (m.plain.command != [] || d.plain.command != [])
    ensures Finalized(WithMode(WithDefaults(s, d), m, s), o).plain.command == OrList(m.plain.command, d.plain.command)
  {
    CommandIs(s, m, d, o);
  }

  // ---- finalizeServer and the server loop of normalize ----

  /** Library functions and formats that the model does not look into. */
  datatype Options = Options(
    execName: (string, int) -> string,                 // fmt.Sprintf("kepcs_%s_%d.cfg", mode, slot)
    render: (seq<string>, Plain) -> seq<string>,       // renderCommand; it sees plain fields only
    containerName: (string, int) -> string,            // fmt.Sprintf("kepcs-%s-%d", mod, slot)
    defaultTemplate: seq<string>,
    lower: string -> string)                           // strings.ToLower

  const MOD := "kepcs.mod"
  const SERVER_KEY := "kepcs.server_key"
  const EXEC_CFG := "kepcs.exec_cfg"

  /** A label that is missing or empty is filled in. */
  function Fill(labels: StringMap, key: string, value: string): StringMap {
    if value != "" && (key !in labels || labels[key] == "") then labels[key := value] else labels
  }

  function FirstString(values: seq<string>): string { if values == [] then "" else TrimSpace(values[0]) }

  function FirstNonEmpty(a: string, b: string): string { Or(TrimSpace(a), TrimSpace(b)) }

  function FinalExecConfig(s: Plain, groups: seq<string>, o: Options): string {
    var name := FirstNonEmpty(s.mode, FirstString(groups));
    if s.execConfig == "" && s.slot > 0 && name != "" then o.execName(name, s.slot) else s.execConfig
  }

  /** A port without bindings is published for both protocols. */
  function FinalPorts(port: int, ports: seq<Port>): seq<Port> {
    if port > 0 && ports == [] then [Port(port, port, "tcp"), Port(port, port, "udp")] else ports
  }

  function FinalLabels(labels: StringMap, mode: string, key: string, execConfig: string): StringMap {
    Fill(Fill(Fill(labels, MOD, mode), SERVER_KEY, key), EXEC_CFG, execConfig)
  }

  function FinalGroups(s: Plain): seq<string> {
    if s.groups == [] && TrimSpace(s.mode) != "" then [TrimSpace(s.mode)] else s.groups
  }

  /** The plain fields; the command is rendered once the groups and the exec config are known. */
  function FinalPlain(s: Plain, o: Options): Plain {
    var groups := FinalGroups(s);
    var t := s.(groups := groups, execConfig := FinalExecConfig(s, groups, o));
    if s.command != [] then t
    else t.(command := o.render(if s.commandTemplate == [] then o.defaultTemplate else s.commandTemplate, t))
  }

  function FinalData(c: Collections, mode: string, key: string, execConfig: string, port: int): Collections {
    c.(labels := FinalLabels(c.labels, mode, key, execConfig), ports := FinalPorts(port, c.ports))
  }

  function Finalized(s: Server, o: Options): Server {
    var t := FinalPlain(s.plain, o);
    Server(t, FinalData(s.data, t.mode, t.key, t.execConfig, t.port))
  }

  /** Labels that say something are never overwritten, and no label but the three is added. */
  lemma FinalLabelsKeep(labels: StringMap, mode: string, key: string, execConfig: string, k: string)
    ensures var r := FinalLabels(labels, mode, key, execConfig);
            && (k in labels && labels[k] != "" ==> Get(r, k) == Get(labels, k))
            && (k != MOD && k != SERVER_KEY && k != EXEC_CFG ==> Get(r, k) == Get(labels, k))
  {
    Distinct3();
  }

  /** Each of the three labels ends up with its explicit value or with the server's. */
  lemma FinalLabelsFilled(labels: StringMap, mode: string, key: string, execConfig: string)
    ensures var r := FinalLabels(labels, mode, key, execConfig);
            && (mode != "" ==> Get(r, MOD) == Some(Explicit(labels, MOD, mode)))
            && (key != "" ==> Get(r, SERVER_KEY) == Some(Explicit(labels, SERVER_KEY, key)))
            && (execConfig != "" ==> Get(r, EXEC_CFG) == Some(Explicit(labels, EXEC_CFG, execConfig)))
  {
    Distinct3();
  }

  function Explicit(labels: StringMap, key: string, other: string): string {
    if key in labels && labels[key] != "" then labels[key] else other
  }

  lemma Distinct3()
    ensures MOD != SERVER_KEY && MOD != EXEC_CFG && SERVER_KEY != EXEC_CFG
  {
    assert MOD[6] == 'm' && SERVER_KEY[6] == 's' && EXEC_CFG[6] == 'e';
  }

  const PROXY_KEYS: seq<string> := ["HTTP_PROXY", "HTTPS_PROXY", "ALL_PROXY", "http_proxy", "https_proxy", "all_proxy"]

  predicate Blank(env: StringMap, key: string) { key !in env || TrimSpace(env[key]) == "" }

  /** applyDockerProxyEnv over a list of keys. */
  function Proxied(env: StringMap, keys: seq<string>, url: string): StringMap {
    if keys == [] then env
    else
      var before := Proxied(env, keys[..|keys| - 1], url);
      var key := keys[|keys| - 1];
      if Blank(before, key) then before[key := url] else before
  }

  /** The proxy goes exactly where the environment says nothing; the rest is untouched. */
  lemma {:induction false} ProxiedAt(env: StringMap, keys: seq<string>, url: string, k: string)
    requires TrimSpace(url) != ""
    ensures Get(Proxied(env, keys, url), k) == if k in keys && Blank(env, k) then Some(url) else Get(env, k)
  {
    if keys == [] {
    } else {
      var before := keys[..|keys| - 1];
      assert keys == before + [keys[|keys| - 1]];
      ProxiedAt(env, before, url, k);
      ProxiedAt(env, before, url, keys[|keys| - 1]);
    }
  }

  function WithProxy(env: StringMap, proxyURL: string): StringMap {
    var url := TrimSpace(proxyURL);
    if url == "" then env else Proxied(env, PROXY_KEYS, url)
  }

  function NormalPort(p: Port, o: Options): Port { p.(protocol := o.lower(Or(p.protocol, "tcp"))) }

  function NormalVolume(v: Volume): Volume { v.(mode := Or(v.mode, "rw")) }

  function NormalPorts(ports: seq<Port>, o: Options): (r: seq<Port>)
    ensures |r| == |ports| && forall i :: 0 <= i < |r| ==> r[i] == NormalPort(ports[i], o)
  {
    seq(|ports|, i requires 0 <= i < |ports| => NormalPort(ports[i], o))
  }

  function NormalVolumes(volumes: seq<Volume>): (r: seq<Volume>)
    ensures |r| == |volumes| && forall i :: 0 <= i < |r| ==> r[i] == NormalVolume(volumes[i])
  {
    seq(|volumes|, i requires 0 <= i < |volumes| => NormalVolume(volumes[i]))
  }

  /** The server loop of normalize, for one server. */
  function Normalized(c: Collections, proxyURL: string, o: Options): Collections {
    c.(env := WithProxy(c.env, proxyURL), ports := NormalPorts(c.ports, o), volumes := NormalVolumes(c.volumes))
  }

  // ---- everything, for one server ----

  /** A server without a mode takes its first group for one. */
  function WithModeName(s: Plain): Plain {
    if TrimSpace(s.mode) == "" && s.groups != [] then s.(mode := TrimSpace(s.groups[0])) else s
  }

  function ExpandedPlain(s: Plain, d: PlainDefaults, m: PlainMode, o: Options): Plain {
    var t := WithModeName(s);
    FinalPlain(PlainWithMode(PlainWithDefaults(t, d), m, t), o)
  }

  function ExpandedData(c: Collections, d: Collections, m: Collections, p: Plain): Collections {
    FinalData(DataWithMode(DataWithDefaults(c, d), m, c), p.mode, p.key, p.execConfig, p.port)
  }

  /** applyServerDefaults for one server; m is the mode its name selects. */
  function Expanded(s: Server, d: Defaults, m: Mode, o: Options): Server {
    var p := ExpandedPlain(s.plain, d.plain, m.plain, o);
    Server(p, ExpandedData(s.data, d.data, m.data, p))
  }

  /** It is the three passes, one after the other, on the server with its mode name filled in. */
  lemma ExpandedIsPasses(s: Server, d: Defaults, m: Mode, o: Options)
    ensures var t := Server(WithModeName(s.plain), s.data);
            Expanded(s, d, m, o) == Finalized(WithMode(WithDefaults(t, d), m, t), o)
  {
  }

  // ---- what normalize leaves behind, from what the layers say ----

  const UNLESS_STOPPED := "unless-stopped"

  /** A server without a container name is named after its label or its first group, and its slot. */
  function NormalName(s: Plain, labels: StringMap, o: Options): string {
    var mod := Or(TrimSpace(if MOD in labels then labels[MOD] else ""), FirstString(s.groups));
    if s.containerName == "" && mod != "" && s.slot > 0 then o.containerName(mod, s.slot) else s.containerName
  }

  function NormalPlain(s: Plain, labels: StringMap, o: Options): Plain {
    Named(s, Or(s.restartPolicy, UNLESS_STOPPED), NormalName(s, labels, o))
  }

  function Named(s: Plain, policy: string, name: string): Plain { s.(restartPolicy := policy, containerName := name) }

  /** What follows applyServerDefaults in the server loop of normalize. */
  function NormalizedServer(v: Server, proxyURL: string, o: Options): Server {
    Server(NormalPlain(v.plain, v.data.labels, o), Normalized(v.data, proxyURL, o))
  }

  /** The container name: the server's own, or one made of the kepcs.mod label the layers give, else the
      mode name, else the first group. */
  lemma NormalizedName(s: Server, m: Mode, d: Defaults, proxyURL: string, o: Options)
    ensures var r := NormalizedServer(Expanded(s, d, m, o), proxyURL, o).plain;
            var given := Lookup(s.data.labels, m.data.labels, d.data.labels, MOD);
            var name := WithModeName(s.plain).mode;
            var mod := Or(TrimSpace(if given.Some? && given.value != "" then given.value else name), FirstString(r.groups));
            r.containerName == if s.plain.containerName == "" && mod != "" && s.plain.slot > 0
                               then o.containerName(mod, s.plain.slot) else s.plain.containerName
  {
    var labels := MapWithMode(d.data.labels + s.data.labels, m.data.labels, s.data.labels);
    LayeredMap(s.data.labels, m.data.labels, d.data.labels);
    assert Get(labels, MOD) == Lookup(s.data.labels, m.data.labels, d.data.labels, MOD);
    var p := ExpandedPlain(s.plain, d.plain, m.plain, o);
    ExpandedKeeps(s.plain, d.plain, m.plain, o);
    FinalLabelMod(labels, p.mode, p.key, p.execConfig);
    assert Expanded(s, d, m, o).data.labels == FinalLabels(labels, p.mode, p.key, p.execConfig);
  }

  ghost predicate SameNames(a: Plain, b: Plain) { a.containerName == b.containerName && a.slot == b.slot && a.mode == b.mode }

  lemma DefaultsKeepNames(s: Plain, d: PlainDefaults)
    ensures SameNames(PlainWithDefaults(s, d), s)
  {
  }

  lemma ModeKeepsNames(s: Plain, m: PlainMode, o: Plain)
    ensures SameNames(PlainWithMode(s, m, o), s)
  {
  }

  lemma FinalKeepsNames(s: Plain, o: Options)
    ensures SameNames(FinalPlain(s, o), s)
  {
  }

  lemma ExpandedKeeps(s: Plain, d: PlainDefaults, m: PlainMode, o: Options)
    ensures SameNames(ExpandedPlain(s, d, m, o), WithModeName(s))
    ensures WithModeName(s).containerName == s.containerName && WithModeName(s).slot == s.slot
  {
    var t := WithModeName(s);
    var u := PlainWithDefaults(t, d);
    var v := PlainWithMode(u, m, t);
    DefaultsKeepNames(t, d);
    ModeKeepsNames(u, m, t);
    FinalKeepsNames(v, o);
  }

  lemma FinalLabelMod(labels: StringMap, mode: string, key: string, execConfig: string)
    ensures var r := FinalLabels(labels, mode, key, execConfig);
            (if MOD in r then r[MOD] else "") == if MOD in labels && labels[MOD] != "" then labels[MOD] else mode
  {
    Distinct3();
  }

  lemma TrimTwice(s: string)
    ensures TrimSpace(TrimSpace(s)) == TrimSpace(s)
  {
  }

  /** One environment variable: the most specific layer, or the proxy where that is blank. */
  lemma NormalizedEnv(s: Server, m: Mode, d: Defaults, proxyURL: string, o: Options, k: string)
    ensures var own := Lookup(s.data.env, m.data.env, d.data.env, k);
            var url := TrimSpace(proxyURL);
            Get(NormalizedServer(Expanded(s, d, m, o), proxyURL, o).data.env, k)
            == if url != "" && k in PROXY_KEYS && (own == None || TrimSpace(own.value) == "") then Some(url) else own
  {
    var env := MapWithMode(d.data.env + s.data.env, m.data.env, s.data.env);
    LayeredMap(s.data.env, m.data.env, d.data.env);
    assert Get(env, k) == Lookup(s.data.env, m.data.env, d.data.env, k);
    TrimTwice(proxyURL);
    if TrimSpace(proxyURL) != "" {
      ProxiedAt(env, PROXY_KEYS, TrimSpace(proxyURL), k);
    }
  }

  /** The defaults' ports, then the mode's, then the server's; the server's main port only if there are none. */
  lemma NormalizedPorts(s: Server, m: Mode, d: Defaults, proxyURL: string, o: Options)
    ensures var all := d.data.ports + m.data.ports + s.data.ports;
            NormalizedServer(Expanded(s, d, m, o), proxyURL, o).data.ports
            == NormalPorts(if all == [] && s.plain.port > 0
                           then [Port(s.plain.port, s.plain.port, "tcp"), Port(s.plain.port, s.plain.port, "udp")]
                           else all, o)
  {
    LayeredList(s.data.ports, m.data.ports, d.data.ports);
  }

  // ---- a normalized server in plain terms ----

  ghost predicate IsProxyKey(k: string) {
    || k == "HTTP_PROXY" || k == "HTTPS_PROXY" || k == "ALL_PROXY"
    || k == "http_proxy" || k == "https_proxy" || k == "all_proxy"
  }

  /** Every variable is that of the most specific layer, or the proxy where that is blank. */
  ghost predicate EnvIs(r: StringMap, s: StringMap, m: StringMap, d: StringMap, proxyURL: string) {
    forall k ::
      var own := Lookup(s, m, d, k);
      Get(r, k) == if TrimSpace(proxyURL) != "" && IsProxyKey(k) && (own == None || TrimSpace(own.value) == "")
                   then Some(TrimSpace(proxyURL)) else own
  }

  /** Every label is that of the most specific layer, or one of three values where that is empty. */
  ghost predicate LabelsAre(r: StringMap, s: StringMap, m: StringMap, d: StringMap,
                            mode: string, key: string, execConfig: string) {
    forall k ::
      var own := Lookup(s, m, d, k);
      var other := if k == "kepcs.mod" then mode else if k == "kepcs.server_key" then key
                   else if k == "kepcs.exec_cfg" then execConfig else "";
      Get(r, k) == if other != "" && (own == None || own.value == "") then Some(other) else own
  }

  /** The defaults' ports, the mode's, the server's, or without any of them the main port twice. */
  ghost predicate PortsAre(r: seq<Port>, s: seq<Port>, m: seq<Port>, d: seq<Port>, port: int, o: Options) {
    var all := if d + m + s == [] && port > 0 then [Port(port, port, "tcp"), Port(port, port, "udp")] else d + m + s;
    |r| == |all| && forall i :: 0 <= i < |r| ==>
      && r[i].hostPort == all[i].hostPort && r[i].containerPort == all[i].containerPort
      && r[i].protocol == o.lower(if all[i].protocol == "" then "tcp" else all[i].protocol)
  }

  ghost predicate VolumesAre(r: seq<Volume>, s: seq<Volume>, m: seq<Volume>, d: seq<Volume>) {
    var all := d + m + s;
    |r| == |all| && forall i :: 0 <= i < |r| ==>
      && r[i].hostPath == all[i].hostPath && r[i].containerPath == all[i].containerPath
      && r[i].mode == if all[i].mode == "" then "rw" else all[i].mode
  }

  ghost predicate ScalarsAre(r: Plain, s: Plain, m: PlainMode, d: PlainDefaults) {
    && r.mode == (if TrimSpace(s.mode) == "" && s.groups != [] then TrimSpace(s.groups[0]) else s.mode)
    && r.key == s.key && r.slot == s.slot && r.port == s.port
    && r.workshopMapID == (if s.workshopMapID != "" then s.workshopMapID
                           else if m.workshopMapID != "" then m.workshopMapID else d.workshopMapID)
    && r.workingDir == (if s.workingDir != "" then s.workingDir
                        else if m.workingDir != "" then m.workingDir else d.workingDir)
    && r.networkMode == (if s.networkMode != "" then s.networkMode
                         else if m.networkMode != "" then m.networkMode else d.networkMode)
    && r.maxPlayers == (if s.maxPlayers > 0 then s.maxPlayers
                        else if m.maxPlayers > 0 then m.maxPlayers else d.maxPlayers)
    && r.image == (if s.image != "" then s.image else d.image)
    && r.restartPolicy == (if s.restartPolicy != "" then s.restartPolicy
                           else if d.restartPolicy != "" then d.restartPolicy else "unless-stopped")
  }

  /** The flags: what the server's YAML sets, else the mode's, else the defaults', else what decoding left. */
  ghost predicate FlagsAre(r: Plain, s: Plain, m: PlainMode, d: PlainDefaults) {
    && r.stdinOpen == (if s.stdinOpenSet then s.stdinOpen else if m.stdinOpen.Some? then m.stdinOpen.value
                       else d.stdinOpen || s.stdinOpen)
    && r.tty == (if s.ttySet then s.tty else if m.tty.Some? then m.tty.value else d.tty || s.tty)
    && r.startAfterMonitor == (if s.startAfterMonitorSet then s.startAfterMonitor
                               else if m.startAfterMonitor.Some? then m.startAfterMonitor.value
                               else if d.startAfterMonitor.Some? then d.startAfterMonitor.value
                               else s.startAfterMonitor)
  }

  ghost predicate ListsAre(r: Plain, s: Plain, m: PlainMode, d: PlainDefaults) {
    && r.groups == (if s.groups != [] then s.groups else if m.groups != [] then m.groups
                    else if TrimSpace(r.mode) != "" then [TrimSpace(r.mode)] else [])
    && r.entrypoint == (if s.entrypoint != [] then s.entrypoint else d.entrypoint)
    && r.commandTemplate == (if s.commandTemplate != [] then s.commandTemplate
                             else if m.commandTemplate != [] then m.commandTemplate else d.commandTemplate)
  }

  /** The most specific command; without any, the template rendered, before the names are filled in. */
  ghost predicate CommandOf(r: Plain, s: Plain, m: PlainMode, d: PlainDefaults, o: Options) {
    r.command ==
      if s.command != [] then s.command
      else if m.command != [] then m.command
      else if d.command != [] then d.command
      else o.render(if r.commandTemplate == [] then o.defaultTemplate else r.commandTemplate,
                    r.(command := [], containerName := s.containerName,
                       restartPolicy := if s.restartPolicy != "" then s.restartPolicy else d.restartPolicy))
  }

  /** The exec config and the container name, made of the mode or the first group and the slot. */
  ghost predicate NamesAre(r: Plain, s: Plain, labels: StringMap, o: Options) {
    var group := if r.groups == [] then "" else TrimSpace(r.groups[0]);
    var mode := if TrimSpace(r.mode) != "" then TrimSpace(r.mode) else group;
    var given := if "kepcs.mod" in labels then TrimSpace(labels["kepcs.mod"]) else "";
    var mod := if given != "" then given else group;
    && r.execConfig == (if s.execConfig == "" && s.slot > 0 && mode != "" then o.execName(mode, s.slot) else s.execConfig)
    && r.containerName == (if s.containerName == "" && s.slot > 0 && mod != "" then o.containerName(mod, s.slot)
                           else s.containerName)
  }

  ghost predicate DataIs(r: Server, s: Server, m: Mode, d: Defaults, proxyURL: string, o: Options) {
    && EnvIs(r.data.env, s.data.env, m.data.env, d.data.env, proxyURL)
    && LabelsAre(r.data.labels, s.data.labels, m.data.labels, d.data.labels, r.plain.mode, r.plain.key, r.plain.execConfig)
    && PortsAre(r.data.ports, s.data.ports, m.data.ports, d.data.ports, s.plain.port, o)
    && VolumesAre(r.data.volumes, s.data.volumes, m.data.volumes, d.data.volumes)
  }

  ghost predicate PlainIs(r: Server, s: Plain, m: PlainMode, d: PlainDefaults, o: Options) {
    && ScalarsAre(r.plain, s, m, d) && FlagsAre(r.plain, s, m, d) && ListsAre(r.plain, s, m, d)
    && CommandOf(r.plain, s, m, d, o) && NamesAre(r.plain, s, r.data.labels, o)
  }

  /** The normalized server r of a server s: the mode is looked up by the server's mode name or else its
      first group, without outer white space; with a mode there are three layers, without one two. */
  ghost predicate Configured(r: Server, s: Server, d: Defaults, modes: map<string, Mode>, proxyURL: string, o: Options) {
    var name := if TrimSpace(s.plain.mode) == "" && s.plain.groups != [] then TrimSpace(s.plain.groups[0])
                else TrimSpace(s.plain.mode);
    if name in modes then
      DataIs(r, s, modes[name], d, proxyURL, o) && PlainIs(r, s.plain, modes[name].plain, d.plain, o)
    else
      var none := Mode(PlainMode([], "", 0, "", "", [], [], None, None, None), Collections(map[], map[], [], []));
      DataIs(r, s, none, d, proxyURL, o) && PlainIs(r, s.plain, none.plain, d.plain, o)
  }

  lemma ProxyKeys(k: string)
    ensures k in PROXY_KEYS <==> IsProxyKey(k)
  {
    assert forall i :: 0 <= i < |PROXY_KEYS| ==> PROXY_KEYS[i] in PROXY_KEYS;
  }

  lemma EnvOf(s: Server, m: Mode, d: Defaults, proxyURL: string, o: Options)
    ensures EnvIs(NormalizedServer(Expanded(s, d, m, o), proxyURL, o).data.env, s.data.env, m.data.env, d.data.env, proxyURL)
  {
    var r := NormalizedServer(Expanded(s, d, m, o), proxyURL, o).data.env;
    forall k
      ensures var own := Lookup(s.data.env, m.data.env, d.data.env, k);
              Get(r, k) == if TrimSpace(proxyURL) != "" && IsProxyKey(k) && (own == None || TrimSpace(own.value) == "")
                           then Some(TrimSpace(proxyURL)) else own
    {
      NormalizedEnv(s, m, d, proxyURL, o, k);
      ProxyKeys(k);
    }
  }

  lemma LabelAt(labels: StringMap, mode: string, key: string, execConfig: string, k: string)
    ensures var own := Get(labels, k);
            var other := if k == "kepcs.mod" then mode else if k == "kepcs.server_key" then key
                         else if k == "kepcs.exec_cfg" then execConfig else "";
            Get(FinalLabels(labels, mode, key, execConfig), k)
            == if other != "" && (own == None || own.value == "") then Some(other) else own
  {
    Distinct3();
  }

  lemma LabelsOf(s: StringMap, m: StringMap, d: StringMap, mode: string, key: string, execConfig: string)
    ensures LabelsAre(FinalLabels(MapWithMode(d + s, m, s), mode, key, execConfig), s, m, d, mode, key, execConfig)
  {
    var labels := MapWithMode(d + s, m, s);
    LayeredMap(s, m, d);
    forall k
      ensures var own := Lookup(s, m, d, k);
              var other := if k == "kepcs.mod" then mode else if k == "kepcs.server_key" then key
                           else if k == "kepcs.exec_cfg" then execConfig else "";
              Get(FinalLabels(labels, mode, key, execConfig), k)
              == if other != "" && (own == None || own.value == "") then Some(other) else own
    {
      LabelAt(labels, mode, key, execConfig, k);
      assert Get(labels, k) == Lookup(s, m, d, k);
    }
  }

  /** The fields that nothing after the layers touches. */
  ghost predicate SameRest(a: Plain, b: Plain) {
    && a.key == b.key && a.mode == b.mode && a.slot == b.slot && a.port == b.port
    && a.workshopMapID == b.workshopMapID && a.maxPlayers == b.maxPlayers && a.workingDir == b.workingDir
    && a.networkMode == b.networkMode && a.image == b.image && a.entrypoint == b.entrypoint
    && a.commandTemplate == b.commandTemplate
    && a.stdinOpen == b.stdinOpen && a.tty == b.tty && a.startAfterMonitor == b.startAfterMonitor
  }

  lemma FinalFields(v: Plain, o: Options)
    ensures var p := FinalPlain(v, o);
            && p == v.(groups := p.groups, execConfig := p.execConfig, command := p.command)
            && p.groups == FinalGroups(v) && p.execConfig == FinalExecConfig(v, FinalGroups(v), o)
  {
  }

  lemma FinalRest(v: Plain, p: Plain)
    requires p == v.(groups := p.groups, execConfig := p.execConfig, command := p.command)
    ensures SameRest(p, v) && p.restartPolicy == v.restartPolicy && p.containerName == v.containerName
  {
  }

  lemma NormalRest(p: Plain, labels: StringMap, o: Options)
    ensures var r := NormalPlain(p, labels, o);
            && SameRest(r, p) && r.restartPolicy == Or(p.restartPolicy, UNLESS_STOPPED)
            && r.containerName == NormalName(p, labels, o)
            && r.groups == p.groups && r.execConfig == p.execConfig && r.command == p.command
            && r.(containerName := p.containerName, restartPolicy := p.restartPolicy) == p
  {
  }

  /** What the mode name is, and what it leaves alone. */
  lemma WithModeNameIs(s: Plain)
    ensures var t := WithModeName(s);
            && t.mode == (if TrimSpace(s.mode) == "" && s.groups != [] then TrimSpace(s.groups[0]) else s.mode)
            && t == s.(mode := t.mode)
  {
  }

  lemma LayeredPlainIs(r: Plain, s: Plain, m: PlainMode, d: PlainDefaults, v: Plain, o: Options)
    requires var t := WithModeName(s); v == PlainWithMode(PlainWithDefaults(t, d), m, t)
    requires SameRest(r, v) && r.restartPolicy == Or(v.restartPolicy, UNLESS_STOPPED) && r.groups == FinalGroups(v)
    ensures ScalarsAre(r, s, m, d) && FlagsAre(r, s, m, d) && ListsAre(r, s, m, d)
  {
    WithModeNameIs(s);
    PlainLayered(WithModeName(s), m, d);
  }

  lemma NamesOf(r: Plain, v: Plain, s: Plain, labels: StringMap, o: Options)
    requires SameRest(r, v) && r.mode == v.mode && r.slot == s.slot
    requires v.execConfig == s.execConfig && v.containerName == s.containerName && v.slot == s.slot
    requires r.execConfig == FinalExecConfig(v, r.groups, o)
    requires var p := v.(groups := r.groups); r.containerName == NormalName(p, labels, o)
    ensures NamesAre(r, s, labels, o)
  {
    if r.groups != [] {
      TrimTwice(r.groups[0]);
    }
  }

  lemma CommandIsOf(r: Plain, p: Plain, v: Plain, s: Plain, m: PlainMode, d: PlainDefaults, o: Options)
    requires v.command == OrList(s.command, OrList(m.command, d.command)) && p == FinalPlain(v, o)
    requires r.commandTemplate == v.commandTemplate && r.command == p.command
    requires r.(containerName := p.containerName, restartPolicy := p.restartPolicy) == p
    requires p.containerName == s.containerName && p.restartPolicy == Or(s.restartPolicy, d.restartPolicy)
    ensures CommandOf(r, s, m, d, o)
  {
    FinalCommand(v, o);
  }

  lemma PlainOf(s: Plain, m: PlainMode, d: PlainDefaults, labels: StringMap, data: Collections, o: Options)
    requires data.labels == labels
    ensures PlainIs(Server(NormalPlain(ExpandedPlain(s, d, m, o), labels, o), data), s, m, d, o)
  {
    var t := WithModeName(s);
    var v := PlainWithMode(PlainWithDefaults(t, d), m, t);
    var p := FinalPlain(v, o);
    var r := NormalPlain(p, labels, o);
    WithModeNameIs(s);
    PlainLayered(t, m, d);
    FinalFields(v, o);
    FinalRest(v, p);
    NormalRest(p, labels, o);
    LayeredPlainIs(r, s, m, d, v, o);
    NamesOf(r, v, s, labels, o);
    CommandIsOf(r, p, v, s, m, d, o);
  }

  lemma PortsOf(s: Server, m: Mode, d: Defaults, proxyURL: string, o: Options)
    ensures var r := NormalizedServer(Expanded(s, d, m, o), proxyURL, o).data;
            && PortsAre(r.ports, s.data.ports, m.data.ports, d.data.ports, s.plain.port, o)
            && VolumesAre(r.volumes, s.data.volumes, m.data.volumes, d.data.volumes)
  {
    NormalizedPorts(s, m, d, proxyURL, o);
    LayeredList(s.data.volumes, m.data.volumes, d.data.volumes);
  }

  /** For one server: what the passes make of it is what the layers say, field by field. */
  lemma NormalizedIs(s: Server, m: Mode, d: Defaults, proxyURL: string, o: Options)
    ensures var r := NormalizedServer(Expanded(s, d, m, o), proxyURL, o);
            DataIs(r, s, m, d, proxyURL, o) && PlainIs(r, s.plain, m.plain, d.plain, o)
  {
    var x := Expanded(s, d, m, o);
    var r := NormalizedServer(x, proxyURL, o);
    EnvOf(s, m, d, proxyURL, o);
    LabelsOf(s.data.labels, m.data.labels, d.data.labels, x.plain.mode, x.plain.key, x.plain.execConfig);
    NormalRest(x.plain, x.data.labels, o);
    PortsOf(s, m, d, proxyURL, o);
    PlainOf(s.plain, m.plain, d.plain, x.data.labels, r.data, o);
  }
}
