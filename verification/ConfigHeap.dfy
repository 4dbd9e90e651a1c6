/** internal/config/config.go with its maps and slices as heap objects: the steps of normalize change
    servers in place, and what they must not change is the configuration they are filled from. */
module ConfigHeap {
  import opened Basics
  import opened ConfigLayers

  /** A Go map; null is the nil map. */
  class MapObject {
    var m: StringMap
    constructor (m: StringMap) ensures this.m == m { this.m := m; }
  }

  ghost function Contents(o: MapObject?): StringMap reads o { if o == null then map[] else o.m }

  /** The backing store of a Go slice; null is the nil slice. */
  class SliceObject<T> {
    var items: seq<T>
    constructor (items: seq<T>) ensures this.items == items { this.items := items; }
  }

  ghost function Items<T>(a: SliceObject?<T>): seq<T> reads a { if a == null then [] else a.items }

  /** The objects a server refers to. */
  datatype Refs = Refs(env: MapObject?, labels: MapObject?, ports: SliceObject?<Port>, volumes: SliceObject?<Volume>)

  /** Nothing here existed before. */
  twostate predicate New(new r: Refs) {
    && (r.env != null ==> fresh(r.env)) && (r.labels != null ==> fresh(r.labels))
    && (r.ports != null ==> fresh(r.ports)) && (r.volumes != null ==> fresh(r.volumes))
  }

  /** What is not as before is new. */
  twostate predicate KeptOrNew(new r: Refs, new was: Refs) {
    && (r.env == was.env || fresh(r.env)) && (r.labels == was.labels || fresh(r.labels))
    && (r.ports == was.ports || fresh(r.ports)) && (r.volumes == was.volumes || fresh(r.volumes))
  }

  ghost function Data(r: Refs): Collections reads r.env, r.labels, r.ports, r.volumes {
    Collections(Contents(r.env), Contents(r.labels), Items(r.ports), Items(r.volumes))
  }

  ghost predicate Holds(r: Refs, c: Collections) reads r.env, r.labels, r.ports, r.volumes { Data(r) == c }

  /** The plain fields are one value; the maps and slices are behind refs. */
  datatype DefaultsRef = DefaultsRef(plain: PlainDefaults, refs: Refs)
  {
    ghost function View(): Defaults reads refs.env, refs.labels, refs.ports, refs.volumes { Defaults(plain, Data(refs)) }
  }

  datatype ModeRef = ModeRef(plain: PlainMode, refs: Refs)
  {
    ghost function View(): Mode reads refs.env, refs.labels, refs.ports, refs.volumes { Mode(plain, Data(refs)) }
  }

  class ServerObject {
    var plain: Plain
    var refs: Refs

    ghost function View(): Server reads this, refs.env, refs.labels, refs.ports, refs.volumes { Server(plain, Data(refs)) }
  }

  // ---- maps and slices ----

  /** The entries that a loop over the map has visited, in whatever order. */
  ghost function Without(m: StringMap, unvisited: set<string>): (r: StringMap)
    ensures unvisited == {} ==> r == m
    ensures unvisited == m.Keys ==> r == map[]
  {
    m - unvisited
  }

  lemma CopyOne(start: StringMap, m: StringMap, keys: set<string>, key: string)
    requires key in keys && key in m
    ensures (start + Without(m, keys))[key := m[key]] == start + Without(m, keys - {key})
    ensures Without(m, keys)[key := m[key]] == Without(m, keys - {key})
  {
  }

  method CloneMap(input: MapObject?) returns (output: MapObject?)
    ensures output == null <==> input == null
    ensures output != null ==> fresh(output) && output.m == input.m
  {
    if input == null {
      return null;
    }
    output := new MapObject(map[]);
    var keys := input.m.Keys;
    while keys != {}
      invariant keys <= input.m.Keys && fresh(output)
      invariant output.m == Without(input.m, keys)
      decreases keys
    {
      var key :| key in keys;
      CopyOne(map[], input.m, keys, key);
      output.m := output.m[key := input.m[key]];
      keys := keys - {key};
    }
  }

  method MergeMap(base: MapObject?, override: MapObject?) returns (result: MapObject)
    ensures fresh(result) && result.m == Contents(base) + Contents(override)
  {
    var clone := CloneMap(base);
    if clone == null {
      result := new MapObject(map[]);
    } else {
      result := clone;
    }
    if override == null {
      return;
    }
    ghost var start := result.m;
    var keys := override.m.Keys;
    while keys != {}
      invariant keys <= override.m.Keys && fresh(result)
      invariant result.m == start + Without(override.m, keys)
      decreases keys
    {
      var key :| key in keys;
      CopyOne(start, override.m, keys, key);
      result.m := result.m[key := override.m[key]];
      keys := keys - {key};
    }
  }

  /** clonePorts and cloneVolumes: append to a nil slice, which stays nil if there is nothing. */
  method CloneSlice<T>(input: SliceObject?<T>) returns (output: SliceObject?<T>)
    ensures Items(output) == Items(input)
    ensures output != null ==> fresh(output)
  {
    if input == null || input.items == [] {
      return null;
    }
    output := new SliceObject(input.items);
  }

  /** append(a, b...) for a slice nobody else has; with nothing to append it is a itself. */
  method Append<T>(a: SliceObject?<T>, b: SliceObject?<T>) returns (r: SliceObject?<T>)
    ensures Items(r) == Items(a) + Items(b)
    ensures r == a || (r != null && fresh(r))
  {
    if b == null || b.items == [] {
      return a;
    }
    r := new SliceObject((if a == null then [] else a.items) + b.items);
  }

  method CutTrailing<T>(values: SliceObject?<T>, trailing: SliceObject?<T>) returns (r: SliceObject?<T>)
    ensures Items(r) == WithoutTrailing(Items(values), |Items(trailing)|)
    ensures r != null ==> fresh(r)
  {
    var n := if trailing == null then 0 else |trailing.items|;
    if values == null || n == 0 || |values.items| < n {
      r := CloneSlice(values);
    } else {
      var kept := new SliceObject(values.items[..|values.items| - n]);
      r := CloneSlice(kept);
    }
  }

  // ---- the per-server steps ----

  ghost predicate Separate(r: Refs) { r.env == null || r.env != r.labels }

  method DefaultMap(own: MapObject?, defaults: MapObject?) returns (r: MapObject?)
    ensures Contents(r) == Contents(defaults) + Contents(own)
    ensures r != null ==> fresh(r)
  {
    if own == null || own.m == map[] {
      r := CloneMap(defaults);
    } else {
      r := MergeMap(defaults, own);
    }
  }

  method DefaultSlice<T>(own: SliceObject?<T>, defaults: SliceObject?<T>) returns (r: SliceObject?<T>)
    ensures Items(r) == Items(defaults) + Items(own)
    ensures r != null ==> fresh(r)
  {
    r := CloneSlice(defaults);
    if own != null && own.items != [] {
      r := Append(r, own);
    }
  }

  method DefaultRefs(own: Refs, defaults: Refs) returns (r: Refs)
    ensures Holds(r, DataWithDefaults(Data(own), Data(defaults)))
    ensures New(r) && Separate(r)
  {
    var env := DefaultMap(own.env, defaults.env);
    var labels := DefaultMap(own.labels, defaults.labels);
    var ports := DefaultSlice(own.ports, defaults.ports);
    var volumes := DefaultSlice(own.volumes, defaults.volumes);
    r := Refs(env, labels, ports, volumes);
  }

  method ApplyDefaults(server: ServerObject, d: DefaultsRef, ghost own: Collections, ghost dd: Collections)
    requires Holds(server.refs, own) && Holds(d.refs, dd)
    modifies server
    ensures server.plain == PlainWithDefaults(old(server.plain), d.plain)
    ensures Holds(server.refs, DataWithDefaults(own, dd))
    ensures New(server.refs) && Separate(server.refs)
  {
    var refs := DefaultRefs(server.refs, d.refs);
    server.plain := PlainWithDefaults(server.plain, d.plain);
    server.refs := refs;
  }

  method ModeMap(current: MapObject?, mode: MapObject?, original: MapObject?) returns (r: MapObject?)
    ensures Contents(r) == MapWithMode(Contents(current), Contents(mode), Contents(original))
    ensures r == current || (r != null && fresh(r))
  {
    if mode == null || mode.m == map[] {
      return current;
    }
    var merged := MergeMap(current, mode);
    r := MergeMap(merged, original);
  }

  method ModeSlice<T>(current: SliceObject?<T>, mode: SliceObject?<T>, original: SliceObject?<T>) returns (r: SliceObject?<T>)
    ensures Items(r) == ListWithMode(Items(current), Items(mode), Items(original))
    ensures r == current || (r != null && fresh(r))
  {
    if mode == null || mode.items == [] {
      return current;
    }
    var cut := CutTrailing(current, original);
    var clone := CloneSlice(mode);
    r := Append(cut, clone);
    clone := CloneSlice(original);
    r := Append(r, clone);
  }

  method ModeRefs(own: Refs, mode: Refs, original: Refs, ghost a: Collections, ghost b: Collections, ghost c: Collections)
    returns (r: Refs)
    requires Separate(own) && Holds(own, a) && Holds(mode, b) && Holds(original, c)
    ensures Holds(r, DataWithMode(a, b, c))
    ensures KeptOrNew(r, own) && Separate(r)
  {
    var env := ModeMap(own.env, mode.env, original.env);
    var labels := ModeMap(own.labels, mode.labels, original.labels);
    var ports := ModeSlice(own.ports, mode.ports, original.ports);
    var volumes := ModeSlice(own.volumes, mode.volumes, original.volumes);
    r := Refs(env, labels, ports, volumes);
  }

  /** plain and refs are the copy of the server struct made before applyDefaults; the copy shares the
      old maps and slices. */
  method ApplyMode(server: ServerObject, m: ModeRef, plain: Plain, refs: Refs,
                   ghost own: Collections, ghost dm: Collections, ghost first: Collections)
    requires Separate(server.refs)
    requires Holds(server.refs, own) && Holds(m.refs, dm) && Holds(refs, first)
    modifies server
    ensures server.plain == PlainWithMode(old(server.plain), m.plain, plain)
    ensures Holds(server.refs, DataWithMode(own, dm, first))
    ensures KeptOrNew(server.refs, old(server.refs)) && Separate(server.refs)
  {
    var layered := ModeRefs(server.refs, m.refs, refs, own, dm, first);
    server.plain := PlainWithMode(server.plain, m.plain, plain);
    server.refs := layered;
  }

  /** labels[key] = value where the label is missing or empty. */
  method FillLabel(labels: MapObject, key: string, value: string)
    modifies labels
    ensures labels.m == Fill(old(labels.m), key, value)
  {
    if value != "" && (key !in labels.m || labels.m[key] == "") {
      labels.m := labels.m[key := value];
    }
  }

  method FinalRefs(own: Refs, p: Plain, ghost c: Collections) returns (r: Refs)
    requires Separate(own) && Holds(own, c)
    modifies own.labels
    ensures Holds(r, FinalData(c, p.mode, p.key, p.execConfig, p.port))
    ensures KeptOrNew(r, own) && Separate(r)
  {
    var labels: MapObject;
    if own.labels == null {
      labels := new MapObject(map[]);
    } else {
      labels := own.labels;
    }
    FillLabel(labels, MOD, p.mode);
    FillLabel(labels, SERVER_KEY, p.key);
    FillLabel(labels, EXEC_CFG, p.execConfig);
    var ports := own.ports;
    if p.port > 0 && (ports == null || ports.items == []) {
      ports := new SliceObject([Port(p.port, p.port, "tcp"), Port(p.port, p.port, "udp")]);
    }
    r := own.(labels := labels, ports := ports);
  }

  /** finalizeServer writes into the labels in place. */
  method FinalizeServer(server: ServerObject, o: Options, ghost c: Collections)
    requires Separate(server.refs) && Holds(server.refs, c)
    modifies server, server.refs.labels
    ensures server.plain == FinalPlain(old(server.plain), o)
    ensures var p := server.plain; Holds(server.refs, FinalData(c, p.mode, p.key, p.execConfig, p.port))
    ensures KeptOrNew(server.refs, old(server.refs)) && Separate(server.refs)
  {
    var plain := FinalPlain(server.plain, o);
    var refs := FinalRefs(server.refs, plain, c);
    server.plain, server.refs := plain, refs;
  }

  /** The mode name and both layers. The copy of the server for applyMode is made after the name. */
  method LayerServer(server: ServerObject, d: DefaultsRef, m: ModeRef,
                     ghost own: Collections, ghost dd: Collections, ghost dm: Collections)
    requires Holds(server.refs, own) && Holds(d.refs, dd) && Holds(m.refs, dm)
    modifies server
    ensures var t := WithModeName(old(server.plain));
            server.plain == PlainWithMode(PlainWithDefaults(t, d.plain), m.plain, t)
    ensures Holds(server.refs, DataWithMode(DataWithDefaults(own, dd), dm, own))
    ensures New(server.refs) && Separate(server.refs)
  {
    server.plain := WithModeName(server.plain);
    var plain, refs := server.plain, server.refs;
    ApplyDefaults(server, d, own, dd);
    ApplyMode(server, m, plain, refs, DataWithDefaults(own, dd), dm, own);
  }

  /** The body of the applyServerDefaults loop. Everything the server refers to afterwards is new. */
  method ExpandServer(server: ServerObject, d: DefaultsRef, m: ModeRef, o: Options,
                      ghost own: Collections, ghost dd: Collections, ghost dm: Collections)
    requires Holds(server.refs, own) && Holds(d.refs, dd) && Holds(m.refs, dm)
    modifies server
    ensures server.plain == ExpandedPlain(old(server.plain), d.plain, m.plain, o)
    ensures Holds(server.refs, ExpandedData(own, dd, dm, server.plain))
    ensures New(server.refs) && Separate(server.refs)
  {
    LayerServer(server, d, m, own, dd, dm);
    FinalizeServer(server, o, DataWithMode(DataWithDefaults(own, dd), dm, own));
  }

  // ---- the server loop of normalize, one server at a time ----

  method FillProxy(env: MapObject, keys: seq<string>, url: string)
    modifies env
    ensures env.m == Proxied(old(env.m), keys, url)
  {
    for i := 0 to |keys|
      invariant env.m == Proxied(old(env.m), keys[..i], url)
    {
      assert keys[..i + 1][..i] == keys[..i];
      if keys[i] !in env.m || TrimSpace(env.m[keys[i]]) == "" {
        env.m := env.m[keys[i] := url];
      }
    }
    assert keys[..|keys|] == keys;
  }

  method ApplyDockerProxyEnv(env: MapObject, proxyURL: string)
    modifies env
    ensures env.m == WithProxy(old(env.m), proxyURL)
  {
    var url := TrimSpace(proxyURL);
    if url != "" {
      FillProxy(env, PROXY_KEYS, url);
    }
  }

  method NormalizePorts(ports: SliceObject<Port>, o: Options)
    modifies ports
    ensures ports.items == NormalPorts(old(ports.items), o)
  {
    ghost var was := ports.items;
    for j := 0 to |ports.items|
      invariant |ports.items| == |was|
      invariant forall k :: 0 <= k < |was| ==> ports.items[k] == if k < j then NormalPort(was[k], o) else was[k]
    {
      if ports.items[j].protocol == "" {
        ports.items := ports.items[j := ports.items[j].(protocol := "tcp")];
      }
      ports.items := ports.items[j := ports.items[j].(protocol := o.lower(ports.items[j].protocol))];
    }
  }

  method NormalizeVolumes(volumes: SliceObject<Volume>)
    modifies volumes
    ensures volumes.items == NormalVolumes(old(volumes.items))
  {
    ghost var was := volumes.items;
    for j := 0 to |volumes.items|
      invariant |volumes.items| == |was|
      invariant forall k :: 0 <= k < |was| ==> volumes.items[k] == if k < j then NormalVolume(was[k]) else was[k]
    {
      if volumes.items[j].mode == "" {
        volumes.items := volumes.items[j := volumes.items[j].(mode := "rw")];
      }
    }
  }

  /** The same map, or a new empty one for a nil map. */
  method OrEmpty(o: MapObject?) returns (r: MapObject)
    ensures r == o || fresh(r)
    ensures r.m == Contents(o)
  {
    if o == null {
      r := new MapObject(map[]);
    } else {
      r := o;
    }
  }

  /** Environment, ports and volumes are changed in place. */
  method NormalizeRefs(own: Refs, proxyURL: string, o: Options, ghost c: Collections) returns (r: Refs)
    requires Separate(own) && Holds(own, c)
    modifies own.env, own.ports, own.volumes
    ensures Holds(r, Normalized(c, proxyURL, o)) && r.labels != null
    ensures KeptOrNew(r, own) && Separate(r)
  {
    var env := OrEmpty(own.env);
    var labels := OrEmpty(own.labels);
    ApplyDockerProxyEnv(env, proxyURL);
    if own.ports != null {
      NormalizePorts(own.ports, o);
    }
    if own.volumes != null {
      NormalizeVolumes(own.volumes);
    }
    r := own.(env := env, labels := labels);
  }

  /** The last step of the loop: an unnamed container is named. */
  method NameContainer(server: Plain, labels: MapObject, o: Options) returns (name: string)
    ensures name == NormalName(server, labels.m, o)
  {
    name := server.containerName;
    if name == "" {
      var mod := TrimSpace(if MOD in labels.m then labels.m[MOD] else "");
      if mod == "" && server.groups != [] {
        mod := TrimSpace(server.groups[0]);
      }
      if mod != "" && server.slot > 0 {
        name := o.containerName(mod, server.slot);
      }
    }
  }

  method NormalizePlain(plain: Plain, labels: MapObject, o: Options) returns (p: Plain)
    ensures p == NormalPlain(plain, labels.m, o)
  {
    var policy := if plain.restartPolicy == "" then UNLESS_STOPPED else plain.restartPolicy;
    var name := NameContainer(plain, labels, o);
    p := Named(plain, policy, name);
  }

  method NormalizeServer(server: ServerObject, proxyURL: string, o: Options, ghost c: Collections)
    requires Separate(server.refs) && Holds(server.refs, c)
    modifies server, server.refs.env, server.refs.ports, server.refs.volumes
    ensures server.plain == NormalPlain(old(server.plain), c.labels, o) && Holds(server.refs, Normalized(c, proxyURL, o))
    ensures KeptOrNew(server.refs, old(server.refs)) && Separate(server.refs)
  {
    var refs := NormalizeRefs(server.refs, proxyURL, o, c);
    var plain := NormalizePlain(server.plain, refs.labels, o);
    server.plain, server.refs := plain, refs;
  }

  // ---- normalize: all servers ----

  const ZERO_MODE := ModeRef(NO_MODE.plain, Refs(null, null, null, null))

  /** The mode a server's name selects; an unknown name selects the zero value. */
  function ModeOf(modes: map<string, ModeRef>, plain: Plain): ModeRef {
    var name := TrimSpace(WithModeName(plain).mode);
    if name in modes then modes[name] else ZERO_MODE
  }

  function ExpandedAt(v: Server, dv: Defaults, mv: map<string, Mode>, o: Options): Server {
    var name := TrimSpace(WithModeName(v.plain).mode);
    Expanded(v, dv, if name in mv then mv[name] else NO_MODE, o)
  }

  /** The plain fields of defaults and modes. */
  ghost predicate SamePlain(d: DefaultsRef, modes: map<string, ModeRef>, dv: Defaults, mv: map<string, Mode>) {
    d.plain == dv.plain && modes.Keys == mv.Keys && forall k :: k in modes ==> modes[k].plain == mv[k].plain
  }

  ghost predicate DistinctObjects(servers: seq<ServerObject>) {
    forall i, j :: 0 <= i < j < |servers| ==> servers[i] != servers[j]
  }

  /** What a server object is at one moment: what it refers to and what that holds. */
  datatype Snapshot = Snapshot(refs: Refs, value: Server)

  ghost predicate Is(s: ServerObject, x: Snapshot) reads s, x.refs.env, x.refs.labels, x.refs.ports, x.refs.volumes {
    s.refs == x.refs && s.plain == x.value.plain && Holds(x.refs, x.value.data)
  }

  ghost function Objects(r: Refs): (all: set<object?>)
    ensures (r.env != null ==> r.env in all) && (r.labels != null ==> r.labels in all)
    ensures (r.ports != null ==> r.ports in all) && (r.volumes != null ==> r.volumes in all)
  {
    {r.env, r.labels, r.ports, r.volumes} - {null}
  }

  /** The first n servers have objects in foot only and share none. */
  ghost predicate Arranged(xs: seq<Snapshot>, n: nat, foot: set<object?>) {
    && n <= |xs|
    && (forall k :: 0 <= k < n ==> Separate(xs[k].refs) && Objects(xs[k].refs) <= foot)
    && (forall i, j :: 0 <= i < j < n ==> Objects(xs[i].refs) !! Objects(xs[j].refs))
  }

  lemma Arrange(xs: seq<Snapshot>, n: nat, foot: set<object?>, x: Snapshot)
    requires Arranged(xs, n, foot) && n < |xs|
    requires Separate(x.refs) && Objects(x.refs) !! foot
    ensures Arranged(xs[n := x], n + 1, foot + Objects(x.refs))
  {
  }

  lemma Rearrange(xs: seq<Snapshot>, i: nat, foot: set<object?>, x: Snapshot)
    requires Arranged(xs, |xs|, foot) && i < |xs|
    requires Separate(x.refs) && Objects(x.refs) * foot <= Objects(xs[i].refs)
    ensures Arranged(xs[i := x], |xs|, foot + Objects(x.refs))
  {
  }

  /** The first i servers are expanded, the others as they were. */
  ghost predicate ExpandedTo(was: seq<Snapshot>, now: seq<Snapshot>, i: nat,
                             dv: Defaults, mv: map<string, Mode>, o: Options) {
    && |now| == |was| && i <= |was|
    && (forall k :: 0 <= k < i ==> now[k].value == ExpandedAt(was[k].value, dv, mv, o))
    && (forall k :: i <= k < |was| ==> now[k] == was[k])
  }

  lemma ExpandedNext(was: seq<Snapshot>, now: seq<Snapshot>, i: nat, x: Snapshot,
                     dv: Defaults, mv: map<string, Mode>, o: Options)
    requires ExpandedTo(was, now, i, dv, mv, o) && i < |was|
    requires x.value == ExpandedAt(was[i].value, dv, mv, o)
    ensures ExpandedTo(was, now[i := x], i + 1, dv, mv, o)
  {
  }

  /** The loop of applyServerDefaults; was, dv and mv are what there was before it. */
  method ApplyServerDefaults(servers: seq<ServerObject>, d: DefaultsRef, modes: map<string, ModeRef>, o: Options,
                             ghost was: seq<Snapshot>, ghost dv: Defaults, ghost mv: map<string, Mode>)
    returns (ghost now: seq<Snapshot>, ghost foot: set<object?>)
    requires DistinctObjects(servers) && |was| == |servers| && SamePlain(d, modes, dv, mv)
    requires forall k :: 0 <= k < |servers| ==> Is(servers[k], was[k])
    requires Holds(d.refs, dv.data) && forall k :: k in modes ==> Holds(modes[k].refs, mv[k].data)
    modifies servers
    ensures ExpandedTo(was, now, |servers|, dv, mv, o) && Arranged(now, |servers|, foot) && fresh(foot)
    ensures forall k :: 0 <= k < |servers| ==> Is(servers[k], now[k])
    ensures Holds(d.refs, dv.data) && forall k :: k in modes ==> Holds(modes[k].refs, mv[k].data)
  {
    hide ExpandedAt;
    now, foot := was, {};
    for i := 0 to |servers|
      invariant ExpandedTo(was, now, i, dv, mv, o) && Arranged(now, i, foot) && fresh(foot)
      invariant forall k :: 0 <= k < |servers| ==> Is(servers[k], now[k])
      invariant Holds(d.refs, dv.data) && forall k :: k in modes ==> Holds(modes[k].refs, mv[k].data)
    {
      ghost var x := ExpandOne(servers, i, d, modes, o, now, dv, mv);
      ExpandedNext(was, now, i, x, dv, mv, o);
      Arrange(now, i, foot, x);
      now, foot := now[i := x], foot + Objects(x.refs);
    }
  }

  /** One server with the mode its name selects. */
  method ExpandSelected(server: ServerObject, d: DefaultsRef, modes: map<string, ModeRef>, o: Options,
                        ghost value: Server, ghost dv: Defaults, ghost mv: map<string, Mode>)
    requires SamePlain(d, modes, dv, mv) && server.plain == value.plain && Holds(server.refs, value.data)
    requires Holds(d.refs, dv.data) && forall k :: k in modes ==> Holds(modes[k].refs, mv[k].data)
    modifies server
    ensures server.plain == ExpandedAt(value, dv, mv, o).plain && Holds(server.refs, ExpandedAt(value, dv, mv, o).data)
    ensures New(server.refs) && Separate(server.refs)
  {
    var m := ModeOf(modes, server.plain);
    ghost var name := TrimSpace(WithModeName(value.plain).mode);
    ghost var v := if name in mv then mv[name] else NO_MODE;
    assert m.plain == v.plain && Holds(m.refs, v.data);
    ExpandServer(server, d, m, o, value.data, dv.data, v.data);
  }

  method ExpandOne(servers: seq<ServerObject>, i: nat, d: DefaultsRef, modes: map<string, ModeRef>, o: Options,
                   ghost now: seq<Snapshot>, ghost dv: Defaults, ghost mv: map<string, Mode>)
    returns (ghost x: Snapshot)
    requires DistinctObjects(servers) && i < |now| == |servers| && SamePlain(d, modes, dv, mv)
    requires forall k :: 0 <= k < |servers| ==> Is(servers[k], now[k])
    requires Holds(d.refs, dv.data) && forall k :: k in modes ==> Holds(modes[k].refs, mv[k].data)
    modifies servers[i]
    ensures x.value == ExpandedAt(now[i].value, dv, mv, o)
    ensures forall k :: 0 <= k < |servers| ==> Is(servers[k], now[i := x][k])
    ensures fresh(Objects(x.refs)) && Separate(x.refs)
    ensures Holds(d.refs, dv.data) && forall k :: k in modes ==> Holds(modes[k].refs, mv[k].data)
  {
    hide ExpandedAt;
    ghost var value := now[i].value;
    ExpandSelected(servers[i], d, modes, o, value, dv, mv);
    x := Snapshot(servers[i].refs, ExpandedAt(value, dv, mv, o));
  }

  /** The first i servers are normalized, the others as they were. */
  ghost predicate NormalizedTo(was: seq<Snapshot>, now: seq<Snapshot>, i: nat, proxyURL: string, o: Options) {
    && |now| == |was| && i <= |was|
    && (forall k :: 0 <= k < i ==> now[k].value == NormalizedServer(was[k].value, proxyURL, o))
    && (forall k :: i <= k < |was| ==> now[k] == was[k])
  }

  lemma NormalizedNext(was: seq<Snapshot>, now: seq<Snapshot>, i: nat, x: Snapshot, proxyURL: string, o: Options)
    requires NormalizedTo(was, now, i, proxyURL, o) && i < |was|
    requires x.value == NormalizedServer(was[i].value, proxyURL, o)
    ensures NormalizedTo(was, now[i := x], i + 1, proxyURL, o)
  {
  }

  /** The second loop of normalize over the servers, where all they refer to is their own. */
  method NormalizeServers(servers: seq<ServerObject>, proxyURL: string, o: Options,
                          ghost was: seq<Snapshot>, ghost foot: set<object?>)
    returns (ghost now: seq<Snapshot>, ghost foot': set<object?>)
    requires DistinctObjects(servers) && |was| == |servers| && Arranged(was, |servers|, foot)
    requires forall k :: 0 <= k < |servers| ==> Is(servers[k], was[k])
    modifies servers, foot
    ensures NormalizedTo(was, now, |servers|, proxyURL, o)
    ensures foot <= foot' && fresh(foot' - foot) && Arranged(now, |servers|, foot')
    ensures forall k :: 0 <= k < |servers| ==> Is(servers[k], now[k])
  {
    now, foot' := was, foot;
    for i := 0 to |servers|
      invariant NormalizedTo(was, now, i, proxyURL, o)
      invariant foot <= foot' && fresh(foot' - foot) && Arranged(now, |servers|, foot')
      invariant forall k :: 0 <= k < |servers| ==> Is(servers[k], now[k])
    {
      ghost var x := NormalizeOne(servers, i, proxyURL, o, now, foot');
      NormalizedNext(was, now, i, x, proxyURL, o);
      Rearrange(now, i, foot', x);
      now, foot' := now[i := x], foot' + Objects(x.refs);
    }
  }

  method NormalizeOne(servers: seq<ServerObject>, i: nat, proxyURL: string, o: Options,
                      ghost now: seq<Snapshot>, ghost foot: set<object?>)
    returns (ghost x: Snapshot)
    requires DistinctObjects(servers) && i < |now| == |servers| && Arranged(now, |servers|, foot)
    requires forall k :: 0 <= k < |servers| ==> Is(servers[k], now[k])
    modifies servers[i], Objects(now[i].refs)
    ensures x.value == NormalizedServer(now[i].value, proxyURL, o)
    ensures forall k :: 0 <= k < |servers| ==> Is(servers[k], now[i := x][k])
    ensures fresh(Objects(x.refs) - Objects(now[i].refs)) && Separate(x.refs)
  {
    assert forall k :: 0 <= k < |servers| && k != i ==> Objects(now[k].refs) !! Objects(now[i].refs);
    NormalizeServer(servers[i], proxyURL, o, now[i].value.data);
    x := Snapshot(servers[i].refs, NormalizedServer(now[i].value, proxyURL, o));
  }

  function NormalizedAt(v: Server, dv: Defaults, mv: map<string, Mode>, proxyURL: string, o: Options): Server {
    NormalizedServer(ExpandedAt(v, dv, mv, o), proxyURL, o)
  }

  lemma Composed(was: seq<Snapshot>, mid: seq<Snapshot>, now: seq<Snapshot>,
                 dv: Defaults, mv: map<string, Mode>, proxyURL: string, o: Options)
    requires ExpandedTo(was, mid, |was|, dv, mv, o) && NormalizedTo(mid, now, |mid|, proxyURL, o)
    ensures |now| == |was| && forall k :: 0 <= k < |was| ==> Configured(now[k].value, was[k].value, dv, mv, proxyURL, o)
  {
    hide ExpandedAt, NormalizedServer, Configured;
    forall k | 0 <= k < |was| ensures Configured(now[k].value, was[k].value, dv, mv, proxyURL, o) {
      NormalizedAtIs(was[k].value, dv, mv, proxyURL, o);
    }
  }

  /** What the two loops make of one server, in plain terms. */
  lemma NormalizedAtIs(s: Server, dv: Defaults, mv: map<string, Mode>, proxyURL: string, o: Options)
    ensures Configured(NormalizedAt(s, dv, mv, proxyURL, o), s, dv, mv, proxyURL, o)
  {
    hide DataIs, PlainIs, Expanded, NormalizedServer;
    var name := TrimSpace(WithModeName(s.plain).mode);
    if s.plain.groups != [] {
      TrimTwice(s.plain.groups[0]);
    }
    NormalizedIs(s, if name in mv then mv[name] else NO_MODE, dv, proxyURL, o);
  }

  /** The two loops of normalize over the servers. Each server becomes what the layers make of it, servers
      share no map and no slice afterwards, whatever they shared before, and nothing but the server objects
      themselves is changed, defaults and modes in particular. */
  method Normalize(servers: seq<ServerObject>, d: DefaultsRef, modes: map<string, ModeRef>, proxyURL: string, o: Options,
                   ghost was: seq<Snapshot>, ghost dv: Defaults, ghost mv: map<string, Mode>)
    returns (ghost now: seq<Snapshot>, ghost foot: set<object?>)
    requires DistinctObjects(servers) && |was| == |servers| && SamePlain(d, modes, dv, mv)
    requires forall k :: 0 <= k < |servers| ==> Is(servers[k], was[k])
    requires Holds(d.refs, dv.data) && forall k :: k in modes ==> Holds(modes[k].refs, mv[k].data)
    modifies servers
    ensures |now| == |servers| && forall k :: 0 <= k < |servers| ==> Is(servers[k], now[k])
    ensures forall k :: 0 <= k < |servers| ==> Configured(now[k].value, was[k].value, dv, mv, proxyURL, o)
    ensures Arranged(now, |servers|, foot) && fresh(foot)
    ensures Holds(d.refs, dv.data) && forall k :: k in modes ==> Holds(modes[k].refs, mv[k].data)
  {
    ghost var mid;
    mid, foot := ApplyServerDefaults(servers, d, modes, o, was, dv, mv);
    now, foot := NormalizeServers(servers, proxyURL, o, mid, foot);
    Composed(was, mid, now, dv, mv, proxyURL, o);
  }
}
