/** What container actions do to an abstract Docker daemon, a map from container name to status, and
    what whole batches of them amount to. */
module DockerState {

  type Containers = map<string, string>

  const RUNNING := "running"
  const CREATED := "created"

  predicate IsRunning(m: Containers, name: string) { name in m && m[name] == "running" }

  /** The effect of a successful StartServer: whatever was not running is recreated. */
  function Started(m: Containers, name: string): Containers {
    if IsRunning(m, name) then m else m[name := RUNNING]
  }

  function StartAll(m: Containers, names: seq<string>): Containers {
    if names == [] then m else Started(StartAll(m, names[..|names| - 1]), names[|names| - 1])
  }

  function RemoveAll(m: Containers, names: seq<string>): Containers {
    if names == [] then m else RemoveAll(m, names[..|names| - 1]) - {names[|names| - 1]}
  }

  /** The effect of successful single restarts, one server after the other. */
  function RestartAll(m: Containers, names: seq<string>): Containers {
    if names == [] then m else RestartAll(m, names[..|names| - 1])[names[|names| - 1] := RUNNING]
  }

  /** How many of the starts, and of the removals, change something. */
  function StartChanges(m: Containers, names: seq<string>): nat {
    if names == [] then 0
    else
      var before := names[..|names| - 1];
      StartChanges(m, before) + if IsRunning(StartAll(m, before), names[|names| - 1]) then 0 else 1
  }

  function RemoveChanges(m: Containers, names: seq<string>): nat {
    if names == [] then 0
    else
      var before := names[..|names| - 1];
      RemoveChanges(m, before) + if names[|names| - 1] in RemoveAll(m, before) then 1 else 0
  }

  /** Agreement everywhere but at one name, the one an aborted action was working on. */
  ghost predicate AgreeExcept(a: Containers, b: Containers, name: string) { a - {name} == b - {name} }

  /** The two states agree on one container. */
  ghost predicate Same(a: Containers, b: Containers, name: string) {
    (name in a <==> name in b) && (name in a ==> a[name] == b[name])
  }

  lemma SameExcept(a: Containers, b: Containers, name: string, n: string)
    requires AgreeExcept(a, b, name) && n != name
    ensures Same(a, b, n)
  {
    var a', b' := a - {name}, b - {name};
    assert (n in a <==> n in a') && (n in b <==> n in b');
    assert (n in a ==> a[n] == a'[n]) && (n in b ==> b[n] == b'[n]);
  }

  /** A batch start leaves every listed name running and every other container as it was. */
  lemma {:induction false} StartAllAt(m: Containers, names: seq<string>, n: string)
    ensures n in names ==> IsRunning(StartAll(m, names), n)
    ensures n !in names ==> (n in StartAll(m, names) <==> n in m) && (n in m ==> StartAll(m, names)[n] == m[n])
  {
    if names == [] {
    } else {
      var before := names[..|names| - 1];
      assert names == before + [names[|names| - 1]];
      StartAllAt(m, before, n);
    }
  }

  /** A batch stop or remove leaves every listed name absent and every other container as it was. */
  lemma {:induction false} RemoveAllAt(m: Containers, names: seq<string>, n: string)
    ensures n in RemoveAll(m, names) <==> n in m && n !in names
    ensures n in m && n !in names ==> RemoveAll(m, names)[n] == m[n]
  {
    if names == [] {
    } else {
      var before := names[..|names| - 1];
      assert names == before + [names[|names| - 1]];
      RemoveAllAt(m, before, n);
    }
  }

  lemma {:induction false} RestartAllAt(m: Containers, names: seq<string>, n: string)
    ensures n in names ==> IsRunning(RestartAll(m, names), n)
    ensures n !in names ==> (n in RestartAll(m, names) <==> n in m) && (n in m ==> RestartAll(m, names)[n] == m[n])
  {
    if names == [] {
    } else {
      var before := names[..|names| - 1];
      assert names == before + [names[|names| - 1]];
      RestartAllAt(m, before, n);
    }
  }

  function Distinct(names: seq<string>): set<string> { set n | n in names }

  lemma DistinctSnoc(names: seq<string>, n: string)
    ensures Distinct(names + [n]) == Distinct(names) + {n}
  {
  }

  function NotRunning(m: Containers, names: seq<string>): set<string> {
    set n | n in Distinct(names) && !IsRunning(m, n)
  }

  /** changed of a batch start: the distinct listed names that were not running at first. */
  lemma {:induction false} StartChangesCount(m: Containers, names: seq<string>)
    ensures StartChanges(m, names) == |NotRunning(m, names)|
  {
    if names == [] {
      assert NotRunning(m, names) == {};
    } else {
      var before := names[..|names| - 1];
      var n := names[|names| - 1];
      assert names == before + [n];
      StartChangesCount(m, before);
      StartAllAt(m, before, n);
      DistinctSnoc(before, n);
      var starts := !IsRunning(StartAll(m, before), n);
      assert starts <==> n !in before && !IsRunning(m, n);
      if starts {
        assert NotRunning(m, names) == NotRunning(m, before) + {n};
      } else {
        assert NotRunning(m, names) == NotRunning(m, before);
      }
    }
  }

  function Present(m: Containers, names: seq<string>): set<string> {
    set n | n in Distinct(names) && n in m
  }

  /** changed of a batch stop or remove: the distinct listed names that were present at first. */
  lemma {:induction false} RemoveChangesCount(m: Containers, names: seq<string>)
    ensures RemoveChanges(m, names) == |Present(m, names)|
  {
    if names == [] {
      assert Present(m, names) == {};
    } else {
      var before := names[..|names| - 1];
      var n := names[|names| - 1];
      assert names == before + [n];
      RemoveChangesCount(m, before);
      RemoveAllAt(m, before, n);
      DistinctSnoc(before, n);
      if n in RemoveAll(m, before) {
        assert Present(m, names) == Present(m, before) + {n};
      } else {
        assert Present(m, names) == Present(m, before);
      }
    }
  }

  /** Starting the same list again changes nothing and reports no change. */
  lemma StartAgain(m: Containers, names: seq<string>)
    ensures StartAll(StartAll(m, names), names) == StartAll(m, names)
    ensures StartChanges(StartAll(m, names), names) == 0
  {
    var m' := StartAll(m, names);
    forall n ensures n in names ==> IsRunning(m', n) { StartAllAt(m, names, n); }
    StartChangesCount(m', names);
    assert NotRunning(m', names) == {};
    StartRunning(m', names);
  }

  lemma {:induction false} StartRunning(m: Containers, names: seq<string>)
    requires forall n :: n in names ==> IsRunning(m, n)
    ensures StartAll(m, names) == m
  {
    if names == [] {
    } else {
      StartRunning(m, names[..|names| - 1]);
    }
  }

  /** Removing everything first and starting everything then ends where single restarts end. */
  lemma TwoPhaseState(m: Containers, names: seq<string>)
    ensures StartAll(RemoveAll(m, names), names) == RestartAll(m, names)
  {
    var a, b := StartAll(RemoveAll(m, names), names), RestartAll(m, names);
    forall n ensures (n in a <==> n in b) && (n in a ==> a[n] == b[n]) {
      RemoveAllAt(m, names, n);
      StartAllAt(RemoveAll(m, names), names, n);
      RestartAllAt(m, names, n);
    }
    assert a.Keys == b.Keys;
  }

  ghost predicate NoRepeats(names: seq<string>) {
    forall i, j :: 0 <= i < j < |names| ==> names[i] != names[j]
  }

  /** When the second phase of a batch restart stops at server k, the servers before it are running and
      those after it are absent, provided no two share a container name. */
  lemma AbortedRestart(m: Containers, names: seq<string>, k: nat, now: Containers, i: nat)
    requires NoRepeats(names) && k < |names| && i < |names| && i != k
    requires AgreeExcept(now, StartAll(RemoveAll(m, names), names[..k]), names[k])
    ensures if i < k then IsRunning(now, names[i]) else names[i] !in now
  {
    var n := names[i];
    var expected := StartAll(RemoveAll(m, names), names[..k]);
    RemoveAllAt(m, names, n);
    StartAllAt(RemoveAll(m, names), names[..k], n);
    assert n != names[k];
    assert n in now <==> n in now - {names[k]};
    assert n in expected <==> n in expected - {names[k]};
    assert n in now ==> now[n] == (now - {names[k]})[n];
    assert n in expected ==> expected[n] == (expected - {names[k]})[n];
    assert i < k ==> names[..k][i] == n;
    assert i > k ==> n !in names[..k];
  }
}
