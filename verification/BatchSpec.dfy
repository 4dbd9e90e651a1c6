/** Values and specifications of the batch operations in internal/runtime/runtime.go: groups, key lists
    and the removed flags of restarts. */
module BatchSpec {
  import opened Basics
  import opened DockerState

  const START_INTERVAL := 15   // seconds

  datatype Server = Server(key: string, container: string, groups: seq<string>)

  datatype Error = UnknownKey(key: string) | UnknownGroup | Cancelled | DockerFailed | Unsupported

  datatype Action = Start | Stop | Remove | Restart | Other

  /** removed is only filled by restarts. */
  datatype Summary = Summary(changed: nat, total: nat, removed: seq<bool>)

  function Names(list: seq<Server>): (r: seq<string>)
    ensures |r| == |list| && forall i :: 0 <= i < |r| ==> r[i] == list[i].container
  {
    seq(|list|, i requires 0 <= i < |list| => list[i].container)
  }

  lemma NamesTake(list: seq<Server>, k: nat)
    requires k <= |list|
    ensures Names(list[..k]) == Names(list)[..k]
  {
  }

  // ---- groups ----

  /** The server once for every time its group list has the name. */
  function Copies(s: Server, groups: seq<string>, group: string): seq<Server> {
    if groups == [] then []
    else Copies(s, groups[..|groups| - 1], group) + if groups[|groups| - 1] == group then [s] else []
  }

  /** A scan of the servers for a group, with multiplicity. */
  function Scan(servers: seq<Server>, group: string): seq<Server> {
    if servers == [] then []
    else
      var s := servers[|servers| - 1];
      Scan(servers[..|servers| - 1], group) + Copies(s, s.groups, group)
  }

  ghost predicate UniqueKeys(servers: seq<Server>) {
    forall i, j :: 0 <= i < j < |servers| ==> servers[i].key != servers[j].key
  }

  ghost predicate IndexedByKey(index: map<string, Server>, servers: seq<Server>) {
    && (forall s :: s in servers ==> s.key in index && index[s.key] == s)
    && (forall k :: k in index ==> index[k] in servers && index[k].key == k)
  }

  ghost predicate GroupsScan(groups: map<string, seq<Server>>, servers: seq<Server>) {
    forall g :: Listed(groups, g) == Scan(servers, g)
  }

  function Listed(groups: map<string, seq<Server>>, group: string): seq<Server> {
    if group in groups then groups[group] else []
  }

  // ---- key lists ----

  /** The trimmed non-blank keys, each at its first occurrence. */
  function Dedup(keys: seq<string>): (r: seq<string>) {
    if keys == [] then []
    else
      var before := Dedup(keys[..|keys| - 1]);
      var key := TrimSpace(keys[|keys| - 1]);
      if key == "" || key in before then before else before + [key]
  }

  /** No key twice, none invented and none lost. */
  lemma {:induction false} DedupIsSet(keys: seq<string>)
    ensures NoRepeats(Dedup(keys))
    ensures forall k :: k in Dedup(keys) <==> k != "" && TrimmedIn(keys, k)
  {
    if keys == [] {
    } else {
      DedupIsSet(keys[..|keys| - 1]);
    }
    forall k ensures k in Dedup(keys) <==> k != "" && TrimmedIn(keys, k) {
      DedupHas(keys, k);
    }
  }

  ghost predicate TrimmedIn(keys: seq<string>, k: string) { exists i :: 0 <= i < |keys| && TrimSpace(keys[i]) == k }

  lemma TrimmedInSnoc(keys: seq<string>, k: string)
    requires keys != []
    ensures TrimmedIn(keys, k) <==> TrimmedIn(keys[..|keys| - 1], k) || TrimSpace(keys[|keys| - 1]) == k
  {
    var before := keys[..|keys| - 1];
    assert forall i :: 0 <= i < |before| ==> before[i] == keys[i];
  }

  lemma {:induction false} DedupHas(keys: seq<string>, k: string)
    ensures k in Dedup(keys) <==> k != "" && TrimmedIn(keys, k)
  {
    if keys == [] {
    } else {
      DedupHas(keys[..|keys| - 1], k);
      TrimmedInSnoc(keys, k);
    }
  }

  // ---- restart flags ----

  /** The keys whose container the first phase of a batch restart removed. */
  function RemovedKeys(m: Containers, list: seq<Server>): set<string> {
    if list == [] then {}
    else
      var before := list[..|list| - 1];
      var s := list[|list| - 1];
      RemovedKeys(m, before) + if s.container in RemoveAll(m, Names(before)) then {s.key} else {}
  }

  /** The removed flag of server i in a batch restart. */
  function BatchFlag(m: Containers, list: seq<Server>, i: nat): bool
    requires i < |list|
  {
    list[i].key in RemovedKeys(m, list)
  }

  /** The removed flag of server i when the servers are restarted one by one. */
  function SingleFlag(m: Containers, list: seq<Server>, i: nat): bool
    requires i < |list|
  {
    list[i].container in RestartAll(m, Names(list[..i]))
  }

  ghost predicate OneContainerPerKey(list: seq<Server>) {
    forall i, j :: 0 <= i < |list| && 0 <= j < |list| && list[i].key == list[j].key ==> list[i].container == list[j].container
  }

  /** Server j is the first in the list to use its container name. */
  ghost predicate First(list: seq<Server>, j: nat)
    requires j < |list|
  {
    forall i :: 0 <= i < j ==> list[i].container != list[j].container
  }

  lemma FirstIff(list: seq<Server>, j: nat)
    requires j < |list|
    ensures First(list, j) <==> list[j].container !in Names(list[..j])
  {
    assert forall i :: 0 <= i < j ==> Names(list[..j])[i] == list[i].container;
  }

  /** The first phase of a batch restart removed the container of server j, the first to use it. */
  ghost predicate RemovedAt(m: Containers, list: seq<Server>, j: nat)
    requires j < |list|
  {
    list[j].container in m && First(list, j)
  }

  lemma RemovedAtTake(m: Containers, list: seq<Server>, n: nat)
    requires n <= |list|
    ensures forall j :: 0 <= j < n ==> (RemovedAt(m, list[..n], j) <==> RemovedAt(m, list, j))
  {
  }

  lemma RemovedAtLast(m: Containers, list: seq<Server>)
    requires list != []
    ensures var n := |list| - 1;
            RemovedAt(m, list, n) <==> list[n].container in RemoveAll(m, Names(list[..n]))
  {
    var n := |list| - 1;
    RemoveAllAt(m, Names(list[..n]), list[n].container);
    FirstIff(list, n);
  }

  /** A key's container was removed by the first listed server that uses it. */
  lemma {:induction false} RemovedKeysAre(m: Containers, list: seq<Server>, key: string)
    ensures key in RemovedKeys(m, list) <==> exists j :: 0 <= j < |list| && list[j].key == key && RemovedAt(m, list, j)
  {
    if list == [] {
    } else {
      var n := |list| - 1;
      RemovedKeysAre(m, list[..n], key);
      RemovedAtTake(m, list, n);
      RemovedAtLast(m, list);
    }
  }

  /** Shared container names make the two ways to restart differ, unless the container existed and the
      very same server is repeated. */
  ghost predicate HarmlessRepeats(m: Containers, list: seq<Server>) {
    forall i, j :: 0 <= i < j < |list| && list[i].container == list[j].container ==>
      list[j].container in m && list[i].key == list[j].key
  }

  lemma {:induction false} FirstUse(list: seq<Server>, i: nat) returns (f: nat)
    requires i < |list|
    ensures f <= i && list[f].container == list[i].container && First(list, f)
  {
    f := i;
    if First(list, i) {
    } else {
      var j :| 0 <= j < i && list[j].container == list[i].container;
      f := FirstUse(list, j);
    }
  }

  lemma FlagAt(m: Containers, list: seq<Server>, i: nat, f: nat)
    requires i < |list| && f <= i && OneContainerPerKey(list)
    requires list[f].container == list[i].container && First(list, f)
    ensures BatchFlag(m, list, i) <==> list[i].container in m && list[f].key == list[i].key
    ensures SingleFlag(m, list, i) <==> list[i].container in m || f < i
  {
    RemovedKeysAre(m, list, list[i].key);
    RestartAllAt(m, Names(list[..i]), list[i].container);
    FirstIff(list, i);
    assert First(list, i) <==> f == i;
    forall j | 0 <= j < |list| && list[j].container == list[i].container && First(list, j) ensures j == f {
      assert j <= f && f <= j;
    }
  }

  /** The removed flags of a batch restart are those of single restarts exactly when every repeated
      container name repeats the same server and existed at first; distinct names are such a case. */
  lemma FlagsAgreeIff(m: Containers, list: seq<Server>)
    requires OneContainerPerKey(list)
    ensures (forall i :: 0 <= i < |list| ==> BatchFlag(m, list, i) == SingleFlag(m, list, i)) <==> HarmlessRepeats(m, list)
    ensures NoRepeats(Names(list)) ==> HarmlessRepeats(m, list)
  {
    if HarmlessRepeats(m, list) {
      forall i | 0 <= i < |list| ensures BatchFlag(m, list, i) == SingleFlag(m, list, i) {
        var f := FirstUse(list, i);
        FlagAt(m, list, i, f);
      }
    }
    if forall i :: 0 <= i < |list| ==> BatchFlag(m, list, i) == SingleFlag(m, list, i) {
      forall i, j | 0 <= i < j < |list| && list[i].container == list[j].container
        ensures list[j].container in m && list[i].key == list[j].key
      {
        var f := FirstUse(list, i);
        assert list[f].container == list[j].container;
        FlagAt(m, list, i, f);
        FlagAt(m, list, j, f);
        assert BatchFlag(m, list, j) == SingleFlag(m, list, j);
        assert BatchFlag(m, list, i) == SingleFlag(m, list, i);
      }
    }
    if NoRepeats(Names(list)) {
      forall i, j | 0 <= i < j < |list| ensures list[i].container != list[j].container {
        assert Names(list)[i] != Names(list)[j];
      }
    }
  }

  /** Two servers that share a container name, neither running at first: single restarts report that the
      second one removed a container, the one the first had just started; a batch restart does not. */
  lemma SharedNameFlagsDiffer(a: string, b: string, container: string)
    requires a != b
    ensures var list := [Server(a, container, []), Server(b, container, [])];
            SingleFlag(map[], list, 1) && !BatchFlag(map[], list, 1)
  {
    var list := [Server(a, container, []), Server(b, container, [])];
    FlagAt(map[], list, 1, 0);
  }

  // ---- batches of one action ----

  function Effect(action: Action, m: Containers, names: seq<string>): Containers {
    if action.Start? then StartAll(m, names) else RemoveAll(m, names)
  }

  function Changes(action: Action, m: Containers, names: seq<string>): nat {
    if action.Start? then StartChanges(m, names) else RemoveChanges(m, names)
  }

  /** What a batch that was not aborted does and reports. */
  ghost predicate BatchDone(action: Action, m: Containers, list: seq<Server>, summary: Summary, after: Containers) {
    && summary.total == |list|
    && (action != Restart ==>
          after == Effect(action, m, Names(list)) && summary.changed == Changes(action, m, Names(list)))
    && (action == Restart ==>
          && after == StartAll(RemoveAll(m, Names(list)), Names(list))
          && summary.changed == |list| == |summary.removed|
          && (forall i :: 0 <= i < |list| ==> summary.removed[i] == BatchFlag(m, list, i)))
  }

  /** An aborted batch, too, leaves what it does not list alone. */
  lemma OthersKept(m: Containers, names: seq<string>, k: nat, n: string)
    requires k <= |names| && n !in names
    ensures Same(StartAll(m, names[..k]), m, n) && Same(RemoveAll(m, names[..k]), m, n)
    ensures Same(StartAll(RemoveAll(m, names), names[..k]), m, n)
  {
    StartAllAt(m, names[..k], n);
    RemoveAllAt(m, names[..k], n);
    RemoveAllAt(m, names, n);
    StartAllAt(RemoveAll(m, names), names[..k], n);
  }

  /** Consecutive start calls are at least 15 seconds apart. */
  ghost predicate Spaced(starts: seq<int>) {
    forall i :: 0 < i < |starts| ==> starts[i] - starts[i - 1] >= 15
  }

  /** A group's list holds configured servers only, each of them a member. */
  lemma {:induction false} ScanIn(servers: seq<Server>, group: string)
    ensures forall s :: s in Scan(servers, group) <==> s in servers && group in s.groups
  {
    if servers == [] {
    } else {
      var n := |servers| - 1;
      ScanIn(servers[..n], group);
      CopiesIn(servers[n], servers[n].groups, group);
      assert servers == servers[..n] + [servers[n]];
    }
  }

  /** A member is listed as often as it names the group. */
  lemma {:induction false} ScanCounts(servers: seq<Server>, group: string, s: Server)
    requires UniqueKeys(servers)
    ensures multiset(Scan(servers, group))[s] == if s in servers then multiset(s.groups)[group] else 0
  {
    if servers == [] {
    } else {
      var n := |servers| - 1;
      ScanCounts(servers[..n], group, s);
      CopiesCount(servers[n], servers[n].groups, group, s);
      assert servers == servers[..n] + [servers[n]];
      assert servers[n] !in servers[..n];
    }
  }

  lemma {:induction false} CopiesCount(c: Server, groups: seq<string>, group: string, s: Server)
    ensures multiset(Copies(c, groups, group))[s] == if s == c then multiset(groups)[group] else 0
  {
    if groups == [] {
    } else {
      var n := |groups| - 1;
      CopiesCount(c, groups[..n], group, s);
      assert groups == groups[..n] + [groups[n]];
    }
  }

  /** The members are listed in the order of the servers: those of the first i servers come first. */
  lemma {:induction false} ScanGrows(servers: seq<Server>, group: string, i: nat)
    requires i <= |servers|
    ensures Scan(servers[..i], group) <= Scan(servers, group)
    decreases |servers|
  {
    if i == |servers| {
      assert servers[..i] == servers;
    } else {
      ScanGrows(servers[..|servers| - 1], group, i);
      assert servers[..|servers| - 1][..i] == servers[..i];
    }
  }

  lemma {:induction false} CopiesIn(s: Server, groups: seq<string>, group: string)
    ensures forall c :: c in Copies(s, groups, group) <==> c == s && group in groups
  {
    if groups == [] {
    } else {
      var n := |groups| - 1;
      CopiesIn(s, groups[..n], group);
      assert groups == groups[..n] + [groups[n]];
    }
  }
}
