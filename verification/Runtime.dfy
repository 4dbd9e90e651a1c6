/** internal/runtime/runtime.go: the index built by New, the container actions and their batches, over
    an abstract Docker daemon whose calls can fail, also after taking effect. Nothing else changes
    containers meanwhile. */
module Runtime {
  import opened Basics
  import opened DockerState
  import opened BatchSpec

  /** How many Docker calls have failed of themselves, and how often a cancellation was reported. */
  datatype Faults = Faults(docker: nat, cancelled: nat)

  /** How many waits were cut short, and how many start calls there had been at the last of them. */
  datatype Cuts = Cuts(times: nat, starts: nat)

  class Runtime {
    const servers: seq<Server>
    var serversByKey: map<string, Server>
    var groups: map<string, seq<Server>>
    var containers: Containers        // the Docker daemon
    var clock: int                    // seconds, monotone
    var done: bool                    // the context is done; never undone
    ghost var starts: seq<int>        // when StartContainer was called
    ghost var seen: seq<Containers>   // what there was when StartContainer was called
    ghost var cuts: Cuts              // the waits that ended because the context was done
    ghost var asked: nat              // how often the control plane was asked for a cancellation
    ghost var faults: Faults          // what the outside world has done to the agent

    ghost predicate Valid() reads this`serversByKey, this`groups {
      UniqueKeys(servers) && IndexedByKey(serversByKey, servers) && GroupsScan(groups, servers)
    }

    /** The list entries are configured servers, as they are in every list the agent makes. */
    ghost predicate Known(list: seq<Server>) reads this`serversByKey {
      forall s :: s in list ==> s.key in serversByKey && serversByKey[s.key] == s
    }

    // ---- New ----

    constructor (servers: seq<Server>, containers: Containers)
      requires UniqueKeys(servers)
      ensures Valid() && this.servers == servers && this.containers == containers
      ensures !done && starts == [] && cuts == Cuts(0, 0) && faults == Faults(0, 0)
    {
      this.servers, this.containers := servers, containers;
      clock, done, starts, seen, cuts, asked, faults := 0, false, [], [], Cuts(0, 0), 0, Faults(0, 0);
      var byKey, byGroup := Index(servers);
      serversByKey, groups := byKey, byGroup;
    }

    // ---- the outside world ----

    twostate predicate Later() reads this`done, this`clock {
      (old(done) ==> done) && old(clock) <= clock
    }

    /** One more start call was made, when there was what there was before but perhaps for this container. */
    ghost predicate SawOne(before: seq<Containers>, m: Containers, name: string) reads this`seen {
      |seen| == |before| + 1 && before <= seen && AgreeExcept(seen[|before|], m, name)
    }

    /** At the first start call since then, there was m but perhaps for one of these containers. */
    ghost predicate SawFirst(before: seq<Containers>, m: Containers, names: seq<string>) reads this`seen {
      before <= seen && |seen| > |before| && exists name :: name in names && AgreeExcept(seen[|before|], m, name)
    }

    /** Nothing has gone wrong. */
    twostate predicate Fine() reads this`faults { faults == old(faults) }

    /** The error has its cause outside: a done context or a reported cancellation, or a Docker call that
        failed of itself. No other error has one. */
    twostate predicate Caused(e: Error) reads this`done, this`faults {
      match e
      case Cancelled => done || old(faults).cancelled < faults.cancelled
      case DockerFailed => old(faults).docker < faults.docker
      case _ => false
    }

    /** Time passes and the context may become done. */
    method Pass()
      modifies this`clock, this`done
      ensures Later()
    {
      var passed: int :| passed >= 0;
      var ends: bool := *;
      clock, done := clock + passed, done || ends;
    }

    /** Asking the control plane about the command: None if nobody can be asked, the call fails or there
        is no command, else whether its status is CANCELLED. */
    method ReadCommand() returns (answer: Option<bool>)
      modifies this`clock, this`done, this`faults, this`asked
      ensures asked == old(asked) + 1
      ensures Later() && (if answer == Some(true) then faults.cancelled == old(faults).cancelled + 1 else Fine())
    {
      Pass();
      asked := asked + 1;
      var answers: bool := *;
      var cancelled: bool := *;
      answer := if answers then Some(cancelled) else None;
      if answer == Some(true) {
        faults := faults.(cancelled := faults.cancelled + 1);
      }
    }

    /** answer is what the control plane said, if it was asked. */
    method CheckCancelled() returns (cancelled: bool, ghost answer: Option<bool>)
      modifies this`clock, this`done, this`faults, this`asked
      ensures Later() && (old(done) ==> cancelled)
      ensures answer == Some(true) ==> cancelled
      ensures cancelled ==> done || answer == Some(true)
      ensures if cancelled then Caused(Cancelled) else Fine() && asked == old(asked) + 1
    {
      Pass();
      answer := None;
      if done {
        return true, answer;
      }
      var said := ReadCommand();
      return said == Some(true), said;
    }

    method InspectContainer(name: string) returns (r: Result<Option<string>, Error>)
      modifies this`clock, this`done, this`faults
      ensures Later()
      ensures if r.Ok? then Fine() else r == Err(DockerFailed) && Caused(DockerFailed)
      ensures r.Ok? ==> r.value == if name in containers then Some(containers[name]) else None
    {
      Pass();
      var fails: bool := *;
      if fails {
        faults := faults.(docker := faults.docker + 1);
        return Err(DockerFailed);
      }
      return Ok(if name in containers then Some(containers[name]) else None);
    }

    /** Removing a missing container is no error. */
    method RemoveContainer(name: string) returns (ok: bool)
      modifies this`clock, this`done, this`faults, this`containers
      ensures Later()
      ensures if ok then Fine() else Caused(DockerFailed)
      ensures containers == old(containers) - {name} || (!ok && containers == old(containers))
    {
      Pass();
      ok := *;
      faults := if ok then faults else faults.(docker := faults.docker + 1);
      var applied: bool := *;
      if ok || applied {
        containers := containers - {name};
      }
    }

    /** A name in use is a conflict: an error, but no failure of Docker. */
    method CreateContainer(name: string) returns (ok: bool)
      modifies this`clock, this`done, this`faults, this`containers
      ensures Later()
      ensures if ok || name in old(containers) then Fine() else Caused(DockerFailed)
      ensures ok ==> name !in old(containers) && containers == old(containers)[name := CREATED]
      ensures !ok ==> AgreeExcept(containers, old(containers), name)
    {
      Pass();
      if name in containers {
        return false;
      }
      ok := *;
      faults := if ok then faults else faults.(docker := faults.docker + 1);
      var applied: bool := *;
      if ok || applied {
        containers := containers[name := CREATED];
      }
    }

    /** Starting a missing container is an error, but no failure of Docker. */
    method StartContainer(name: string) returns (ok: bool)
      modifies this`clock, this`done, this`faults, this`containers, this`starts, this`seen
      ensures Later() && starts == old(starts) + [old(clock)] && seen == old(seen) + [old(containers)]
      ensures if ok || name !in old(containers) then Fine() else Caused(DockerFailed)
      ensures ok ==> containers == old(containers)[name := RUNNING]
      ensures !ok ==> AgreeExcept(containers, old(containers), name)
    {
      starts, seen := starts + [clock], seen + [containers];
      Pass();
      if name !in containers {
        return false;
      }
      ok := *;
      faults := if ok then faults else faults.(docker := faults.docker + 1);
      var applied: bool := *;
      if ok || applied {
        containers := containers[name := RUNNING];
      }
    }

    // ---- single servers ----

    /** The result says whether anything changed; calls are the StartContainer calls made. */
    method StartServer(key: string) returns (r: Result<bool, Error>, ghost calls: seq<int>)
      modifies this`clock, this`done, this`faults, this`asked, this`containers, this`starts, this`seen
      ensures Later() && starts == old(starts) + calls
      ensures |calls| <= 1 && forall t :: t in calls ==> old(clock) <= t <= clock
      ensures calls == [] ==> seen == old(seen)
      ensures calls != [] ==> key in serversByKey && SawOne(old(seen), old(containers), serversByKey[key].container)
      ensures key !in serversByKey ==> r == Err(UnknownKey(key))
      ensures key !in serversByKey || old(done) ==> r.Err? && containers == old(containers) && calls == []
      ensures key in serversByKey && old(done) ==> r == Err(Cancelled)
      ensures if r.Ok? then Fine() && asked == old(asked) + 1 else key !in serversByKey || Caused(r.error)
      ensures key in serversByKey ==>
                var name := serversByKey[key].container;
                match r
                case Ok(changed) =>
                  && containers == Started(old(containers), name)
                  && (changed <==> !IsRunning(old(containers), name)) && (changed <==> calls != [])
                case Err(_) => AgreeExcept(containers, old(containers), name)
    {
      calls := [];
      if key !in serversByKey {
        return Err(UnknownKey(key)), [];
      }
      var name := serversByKey[key].container;
      var cancelled, _ := CheckCancelled();
      if cancelled {
        return Err(Cancelled), [];
      }
      var container := InspectContainer(name);
      if container.Err? {
        return Err(container.error), [];
      }
      if container.value.Some? {
        if container.value.value == RUNNING {
          return Ok(false), [];
        }
        var removed := RemoveContainer(name);
        if !removed {
          return Err(DockerFailed), [];
        }
      }
      var created := CreateContainer(name);
      if !created {
        return Err(DockerFailed), [];
      }
      calls := [clock];
      var started := StartContainer(name);
      if !started {
        return Err(DockerFailed), calls;
      }
      return Ok(true), calls;
    }

    /** removeServer, for both stop and remove. */
    method RemoveServer(key: string) returns (r: Result<bool, Error>)
      modifies this`clock, this`done, this`faults, this`asked, this`containers
      ensures Later()
      ensures if r.Ok? then Fine() && asked == old(asked) + 1 else key !in serversByKey || Caused(r.error)
      ensures key !in serversByKey ==> r == Err(UnknownKey(key)) && containers == old(containers)
      ensures key in serversByKey ==>
                var name := serversByKey[key].container;
                match r
                case Ok(changed) => containers == old(containers) - {name} && (changed <==> name in old(containers))
                case Err(_) => AgreeExcept(containers, old(containers), name)
    {
      if key !in serversByKey {
        return Err(UnknownKey(key));
      }
      var name := serversByKey[key].container;
      var cancelled, _ := CheckCancelled();
      if cancelled {
        return Err(Cancelled);
      }
      var container := InspectContainer(name);
      if container.Err? {
        return Err(container.error);
      }
      if container.value.None? {
        assert containers == old(containers) - {name};
        return Ok(false);
      }
      var removed := RemoveContainer(name);
      return if removed then Ok(true) else Err(DockerFailed);
    }

    /** The result is the removed flag. A cancellation is only noticed after the removal. */
    method RestartServer(key: string) returns (r: Result<bool, Error>, ghost calls: seq<int>)
      modifies this`clock, this`done, this`faults, this`asked, this`containers, this`starts, this`seen
      ensures Later() && starts == old(starts) + calls
      ensures if r.Ok? then Fine() && asked == old(asked) + 1 else key !in serversByKey || Caused(r.error)
      ensures |calls| <= 1 && (r.Ok? ==> calls != []) && forall t :: t in calls ==> old(clock) <= t <= clock
      ensures key !in serversByKey ==> r == Err(UnknownKey(key)) && containers == old(containers)
      ensures key in serversByKey ==>
                var name := serversByKey[key].container;
                match r
                case Ok(removed) => containers == old(containers)[name := RUNNING] && (removed <==> name in old(containers))
                case Err(_) => AgreeExcept(containers, old(containers), name)
    {
      calls := [];
      if key !in serversByKey {
        return Err(UnknownKey(key)), calls;
      }
      var name := serversByKey[key].container;
      var removed := false;
      var container := InspectContainer(name);
      if container.Err? {
        return Err(container.error), calls;
      }
      if container.value.Some? {
        removed := RemoveContainer(name);
        if !removed {
          return Err(DockerFailed), calls;
        }
      }
      var result;
      result, calls := StartServer(key);
      return if result.Ok? then Ok(removed) else Err(result.error), calls;
    }

    // ---- batches ----

    /** No wait after the last server. The answer is whether the select took the Done branch. */
    method WaitBeforeNextStart(n: nat, index: nat) returns (seenDone: bool)
      modifies this`clock, this`done, this`cuts
      ensures Later() && cuts == if seenDone then Cuts(old(cuts).times + 1, |starts|) else old(cuts)
      ensures seenDone ==> done && index + 1 < n
      ensures index + 1 < n ==> seenDone || clock >= old(clock) + 15
    {
      if n < 2 || index + 1 >= n {
        return false;
      }
      Pass();
      if done {
        seenDone := *;
        if seenDone {
          cuts := Cuts(cuts.times + 1, |starts|);
          return;
        }
      }
      clock := clock + START_INTERVAL;
      return false;
    }

    /** The answer is the changed flag; a restart always changes something. */
    method RunSingleAction(action: Action, key: string) returns (r: Result<bool, Error>, ghost calls: seq<int>)
      modifies this`clock, this`done, this`faults, this`asked, this`containers, this`starts, this`seen
      ensures Later() && starts == old(starts) + calls
      ensures |calls| <= 1 && forall t :: t in calls ==> old(clock) <= t <= clock
      ensures action != Start && action != Restart ==> calls == []
      ensures if r.Ok? then Fine() && asked == old(asked) + 1 else key !in serversByKey || action == Other || Caused(r.error)
      ensures action == Other ==> r == Err(Unsupported) && containers == old(containers)
      ensures action != Other && key !in serversByKey ==> r == Err(UnknownKey(key)) && containers == old(containers)
      ensures key in serversByKey ==>
                var n := serversByKey[key].container;
                match r
                case Ok(changed) => SingleDone(action, old(containers), n, changed, containers, |calls|)
                case Err(_) => AgreeExcept(containers, old(containers), n)
    {
      calls := [];
      if key in serversByKey {
        EffectOne(action, containers, serversByKey[key].container);
      }
      match action {
        case Start => r, calls := StartServer(key);
        case Stop => r := RemoveServer(key);
        case Remove => r := RemoveServer(key);
        case Restart =>
          r, calls := RestartServer(key);
          r := if r.Ok? then Ok(true) else r;
        case Other => r := Err(Unsupported);
      }
    }

    /** One iteration: the cancellation check, the action, and after a start the wait. Server i is the
        next one; so far, since m, the batch has counted changed and made the start calls in earlier. */
    method HandleNext(action: Action, list: seq<Server>, i: nat, ghost m: Containers,
                      ghost changed: nat, ghost earlier: seq<int>)
      returns (r: Result<bool, Error>, ghost calls: seq<int>, seenDone: bool)
      requires Known(list) && action != Restart && i < |list|
      requires Progress(action, m, list, i, containers, changed, |earlier|)
      requires Timely(earlier, clock, action == Start && !done)
      modifies this`clock, this`done, this`faults, this`asked, this`containers, this`starts, this`seen, this`cuts
      ensures Later() && starts == old(starts) + calls && (action != Start ==> calls == [])
      ensures if r.Ok? then Fine() && asked == old(asked) + 2 else action == Other || Caused(r.error)
      ensures Spaced(earlier + calls) && Timely(earlier + calls, clock, r.Ok? && action == Start && i + 1 < |list| && !done)
      ensures old(done) ==> r == Err(Cancelled) && calls == []
      ensures cuts == if seenDone then Cuts(old(cuts).times + 1, |starts|) else old(cuts)
      ensures seenDone ==> action == Start && r.Ok? && done && i + 1 < |list|
      ensures r.Ok? ==>
                Progress(action, m, list, i + 1, containers, changed + if r.value then 1 else 0, |earlier + calls|)
      ensures r.Err? ==> Aborted(action, m, list, i, containers)
      ensures old(done) && action == Start ==> Progress(Start, m, list, i, containers, |earlier|, |earlier|)
    {
      calls, seenDone := [], false;
      ghost var before, ready := clock, action == Start && !done;
      var cancelled, _ := CheckCancelled();
      if cancelled {
        ProgressAborts(action, m, list, i, containers, changed, |earlier|);
        TimelyNext(earlier, calls, before, ready, clock, false);
        return Err(Cancelled), calls, seenDone;
      }
      assert list[i] in list;
      ProgressNext(action, m, list, i, containers);
      r, calls := RunSingleAction(action, list[i].key);
      if r.Ok? && action == Start {
        seenDone := WaitBeforeNextStart(|list|, i);
      }
      TimelyNext(earlier, calls, before, ready, clock, r.Ok? && action == Start && i + 1 < |list| && !done);
    }

    /** The loop of runActionList. handled counts the finished servers; doneAt is the wait, if any, that
        ended because the context was done: after it no start call is made. */
    method RunActionLoop(action: Action, list: seq<Server>)
      returns (r: Result<Summary, Error>, ghost handled: nat, ghost calls: seq<int>, ghost doneAt: Option<nat>)
      requires Known(list) && action != Restart
      modifies this`clock, this`done, this`faults, this`asked, this`containers, this`starts, this`seen, this`cuts
      ensures Later() && starts == old(starts) + calls && Spaced(calls) && (action != Start ==> calls == [])
      ensures if r.Ok? then Fine() && asked == old(asked) + 2 * |list| else action == Other || Caused(r.error)
      ensures r.Ok? ==>
                && handled == |list| == r.value.total
                && Progress(action, old(containers), list, |list|, containers, r.value.changed, |calls|)
      ensures r.Err? ==> Aborted(action, old(containers), list, handled, containers)
      ensures cuts.times > old(cuts).times ==> doneAt.Some? && |starts| == cuts.starts
      ensures doneAt.Some? ==>
                && action == Start && r == Err(Cancelled) && handled == doneAt.value + 1 < |list|
                && Progress(Start, old(containers), list, handled, containers, |calls|, |calls|)
    {
      hide Progress, Aborted, Timely;
      var changed, i := 0, 0;
      TimelyStart(clock);
      handled, calls, doneAt := 0, [], None;
      ProgressStart(action, containers, list);
      while i < |list|
        invariant handled == i <= |list| && Progress(action, old(containers), list, i, containers, changed, |calls|)
        invariant Later() && Fine() && asked == old(asked) + 2 * i
        invariant starts == old(starts) + calls && (action != Start ==> calls == [])
        invariant Spaced(calls) && Timely(calls, clock, action == Start && i < |list| && !done)
        invariant doneAt.Some? ==> action == Start && done && i == doneAt.value + 1 < |list|
        invariant if doneAt.Some? then cuts.starts == |starts| else cuts == old(cuts)
      {
        var result, more, seenDone := HandleNext(action, list, i, old(containers), changed, calls);
        calls := calls + more;
        if result.Err? {
          return Err(result.error), handled, calls, doneAt;
        }
        changed := changed + if result.value then 1 else 0;
        doneAt := if seenDone then Some(i) else None;
        i, handled := i + 1, handled + 1;
      }
      return Ok(Summary(changed, i, [])), handled, calls, doneAt;
    }

    /** One iteration of the first phase. removed tells whether a container was there. */
    method RemoveNext(list: seq<Server>, i: nat, ghost m: Containers, ghost removedByKey: set<string>)
      returns (r: Result<bool, Error>)
      requires i < |list| && Removed(m, list, i, containers, removedByKey)
      modifies this`clock, this`done, this`faults, this`asked, this`containers
      ensures Later() && (old(done) ==> r == Err(Cancelled))
      ensures if r.Ok? then Fine() && asked == old(asked) + 1 else Caused(r.error)
      ensures r.Ok? ==>
                Removed(m, list, i + 1, containers, removedByKey + if r.value then {list[i].key} else {})
      ensures r.Err? ==> Aborted(Remove, m, list, i, containers)
    {
      RemoveSnoc(m, list, i);
      var name := list[i].container;
      var cancelled, _ := CheckCancelled();
      if cancelled {
        return Err(Cancelled);
      }
      var container := InspectContainer(name);
      if container.Err? {
        return Err(container.error);
      }
      if container.value.Some? {
        var removed := RemoveContainer(name);
        if !removed {
          return Err(DockerFailed);
        }
      }
      return Ok(container.value.Some?);
    }

    /** The first phase of restartActionList. It starts nothing; removed are the keys it removed. */
    method RemovePhase(list: seq<Server>) returns (r: Result<set<string>, Error>, ghost handled: nat)
      modifies this`clock, this`done, this`faults, this`asked, this`containers
      ensures Later()
      ensures if r.Ok? then Fine() && asked == old(asked) + |list| else Caused(r.error)
      ensures r.Ok? ==> Removed(old(containers), list, |list|, containers, r.value)
      ensures r.Err? ==> Aborted(Remove, old(containers), list, handled, containers)
    {
      var removedByKey := {};
      handled := 0;
      for i := 0 to |list|
        invariant Later() && Fine() && asked == old(asked) + i
        invariant handled == i && Removed(old(containers), list, i, containers, removedByKey)
      {
        var result := RemoveNext(list, i, old(containers), removedByKey);
        if result.Err? {
          return Err(result.error), handled;
        }
        if result.value {
          removedByKey := removedByKey + {list[i].key};
        }
        handled := i + 1;
      }
      return Ok(removedByKey), handled;
    }

    /** One iteration of the second phase: server i of a list whose first i servers, from m, are
        started by the calls in earlier. */
    method StartNext(list: seq<Server>, i: nat, ghost m: Containers, ghost earlier: seq<int>)
      returns (r: Result<bool, Error>, ghost calls: seq<int>, seenDone: bool)
      requires Known(list) && i < |list|
      requires Progress(Start, m, list, i, containers, |earlier|, |earlier|) && Timely(earlier, clock, !done)
      modifies this`clock, this`done, this`faults, this`asked, this`containers, this`starts, this`seen, this`cuts
      ensures Later() && starts == old(starts) + calls
      ensures if r.Ok? then Fine() && asked == old(asked) + 1 else Caused(r.error)
      ensures Spaced(earlier + calls) && Timely(earlier + calls, clock, r.Ok? && i + 1 < |list| && !done)
      ensures old(done) ==> r == Err(Cancelled) && calls == []
      ensures old(done) ==> Progress(Start, m, list, i, containers, |earlier|, |earlier|)
      ensures cuts == if seenDone then Cuts(old(cuts).times + 1, |starts|) else old(cuts)
      ensures old(seen) <= seen && (calls == [] ==> seen == old(seen))
      ensures calls != [] && earlier == [] ==> SawOne(old(seen), m, Names(list)[i])
      ensures seenDone ==> r.Ok? && done && i + 1 < |list|
      ensures r.Ok? ==> Progress(Start, m, list, i + 1, containers, |earlier + calls|, |earlier + calls|)
      ensures r.Err? ==> Aborted(Start, m, list, i, containers)
    {
      assert list[i] in list;
      ProgressNext(Start, m, list, i, containers);
      EffectOne(Start, containers, list[i].container);
      NothingStarted(m, Names(list)[..i]);
      seenDone := false;
      ghost var before, waited := clock, !done;
      r, calls := StartServer(list[i].key);
      if r.Ok? {
        seenDone := WaitBeforeNextStart(|list|, i);
      }
      TimelyNext(earlier, calls, before, waited, clock, r.Ok? && i + 1 < |list| && !done);
    }

    /** The second phase: one start after the other, with waits; flags are the removed flags. After the
        wait doneAt no start call is made. */
    method StartPhase(list: seq<Server>, removedByKey: set<string>)
      returns (r: Result<seq<bool>, Error>, ghost handled: nat, ghost calls: seq<int>, ghost doneAt: Option<nat>)
      requires Known(list)
      modifies this`clock, this`done, this`faults, this`asked, this`containers, this`starts, this`seen, this`cuts
      ensures Later() && starts == old(starts) + calls && Spaced(calls)
      ensures if r.Ok? then Fine() && asked == old(asked) + |list| else Caused(r.error)
      ensures r.Ok? ==>
                && Progress(Start, old(containers), list, |list|, containers, |calls|, |calls|)
                && r.value == Flags(removedByKey, list, |list|)
      ensures r.Err? ==> Aborted(Start, old(containers), list, handled, containers)
      ensures calls != [] ==> SawFirst(old(seen), old(containers), Names(list))
      ensures cuts.times > old(cuts).times ==> doneAt.Some? && |starts| == cuts.starts
      ensures doneAt.Some? ==>
                && r == Err(Cancelled) && handled == doneAt.value + 1 < |list|
                && Progress(Start, old(containers), list, handled, containers, |calls|, |calls|)
    {
      hide Flags, Progress, Aborted, Timely;
      var flags, i := [], 0;
      handled, calls, doneAt := 0, [], None;
      FlagsNone(removedByKey, list);
      TimelyStart(clock);
      ProgressStart(Start, containers, list);
      while i < |list|
        invariant handled == i <= |list| && Progress(Start, old(containers), list, i, containers, |calls|, |calls|)
        invariant Later() && Fine() && asked == old(asked) + i
        invariant starts == old(starts) + calls && Spaced(calls) && Timely(calls, clock, i < |list| && !done)
        invariant flags == Flags(removedByKey, list, i)
        invariant doneAt.Some? ==> done && i == doneAt.value + 1 < |list|
        invariant if doneAt.Some? then cuts.starts == |starts| else cuts == old(cuts)
        invariant old(seen) <= seen
        invariant if calls == [] then seen == old(seen) else SawFirst(old(seen), old(containers), Names(list))
      {
        var result, more, seenDone := StartNext(list, i, old(containers), calls);
        calls := calls + more;
        if result.Err? {
          return Err(result.error), handled, calls, doneAt;
        }
        FlagsNext(removedByKey, list, i);
        flags := flags + [list[i].key in removedByKey];
        doneAt := if seenDone then Some(i) else None;
        i, handled := i + 1, handled + 1;
      }
      return Ok(flags), handled, calls, doneAt;
    }

    /** restartActionList: everything is removed before anything is started. between is the state of
        Docker at that point, if it was reached. */
    method RestartActionList(list: seq<Server>)
      returns (r: Result<Summary, Error>, ghost handled: nat, ghost calls: seq<int>, ghost between: Option<Containers>,
               ghost doneAt: Option<nat>)
      requires Known(list)
      modifies this`clock, this`done, this`faults, this`asked, this`containers, this`starts, this`seen, this`cuts
      ensures Later() && starts == old(starts) + calls && Spaced(calls)
      ensures if r.Ok? then Fine() && asked == old(asked) + 2 * |list| else Caused(r.error)
      ensures between == (if between.Some? then Some(RemoveAll(old(containers), Names(list))) else None)
      ensures between.None? ==> r.Err? && calls == [] && Aborted(Remove, old(containers), list, handled, containers)
      ensures between.Some? && r.Err? ==> Aborted(Start, between.value, list, handled, containers)
      ensures r.Ok? ==> BatchDone(Restart, old(containers), list, r.value, containers)
      ensures calls != [] ==> SawFirst(old(seen), RemoveAll(old(containers), Names(list)), Names(list))
      ensures cuts.times > old(cuts).times ==> doneAt.Some? && |starts| == cuts.starts
      ensures doneAt.Some? ==>
                && between.Some? && r == Err(Cancelled) && handled == doneAt.value + 1 < |list|
                && Progress(Start, between.value, list, handled, containers, |calls|, |calls|)
    {
      var removed, n := RemovePhase(list);
      handled, calls, between, doneAt := n, [], None, None;
      if removed.Err? {
        return Err(removed.error), handled, calls, between, doneAt;
      }
      between := Some(containers);
      RemovedTo(old(containers), list, containers, removed.value);
      var flags, k, c, d := StartPhase(list, removed.value);
      handled, calls, doneAt := k, c, d;
      if flags.Err? {
        return Err(flags.error), handled, calls, between, doneAt;
      }
      RestartDone(old(containers), list, between.value, removed.value, flags.value, containers, |calls|);
      return Ok(Summary(|flags.value|, |flags.value|, flags.value)), handled, calls, between, doneAt;
    }

    /** What a batch restart is compared with: RestartServer for one server after the other, without waits. */
    method RestartEach(list: seq<Server>) returns (r: Result<seq<bool>, Error>)
      requires Known(list)
      modifies this`clock, this`done, this`faults, this`asked, this`containers, this`starts, this`seen, this`cuts
      ensures if r.Ok? then Fine() && asked == old(asked) + |list| else Caused(r.error)
      ensures r.Ok? ==>
                && containers == RestartAll(old(containers), Names(list)) && |r.value| == |list|
                && (forall i :: 0 <= i < |list| ==> r.value[i] == SingleFlag(old(containers), list, i))
    {
      var flags := [];
      for i := 0 to |list|
        invariant Fine() && asked == old(asked) + i && |flags| == i && containers == RestartAll(old(containers), Names(list[..i]))
        invariant forall k :: 0 <= k < i ==> flags[k] == SingleFlag(old(containers), list, k)
      {
        assert list[i] in list;
        var removed, _ := RestartServer(list[i].key);
        if removed.Err? {
          return Err(removed.error);
        }
        RestartSnoc(old(containers), list, i);
        flags := flags + [removed.value];
      }
      assert list[..|list|] == list;
      return Ok(flags);
    }

    /** serversForKeys: blank keys and repetitions are skipped, the first unknown key is an error. */
    method ServersForKeys(keys: seq<string>) returns (r: Result<seq<Server>, Error>)
      requires Valid()
      ensures r.Ok? <==> forall k :: k in Dedup(keys) ==> k in serversByKey
      ensures r.Ok? ==> SelectedFrom(serversByKey, keys, r.value) && Known(r.value)
      ensures r.Err? ==> r.error.UnknownKey? && r.error.key in Dedup(keys) && r.error.key !in serversByKey
    {
      var seen: set<string> := {};
      var list: seq<Server> := [];
      for i := 0 to |keys|
        invariant SelectedFrom(serversByKey, keys[..i], list) && seen == Distinct(Dedup(keys[..i]))
      {
        var key := TrimSpace(keys[i]);
        SelectNext(serversByKey, keys, i, list);
        if key == "" || key in seen {
          continue;
        }
        if key !in serversByKey {
          DedupGrows(keys, i + 1);
          return Err(UnknownKey(key));
        }
        seen := seen + {key};
        list := list + [serversByKey[key]];
      }
      assert keys[..|keys|] == keys;
      return Ok(list);
    }

    /** runActionList: a restart of a list is two-phase, every other action goes server by server. */
    method RunActionList(action: Action, list: seq<Server>) returns (r: Result<Summary, Error>, ghost calls: seq<int>)
      requires Known(list)
      modifies this`clock, this`done, this`faults, this`asked, this`containers, this`starts, this`seen, this`cuts
      ensures Later() && starts == old(starts) + calls && Spaced(calls)
      ensures if r.Ok? then Fine() && asked == old(asked) + 2 * |list| else action == Other || Caused(r.error)
      ensures !done && faults == old(faults) && action != Other ==> r.Ok?
      ensures cuts.times > old(cuts).times ==> r == Err(Cancelled) && |starts| == cuts.starts
      ensures r.Ok? ==> BatchDone(action, old(containers), list, r.value, containers)
      ensures r.Err? ==> forall n :: n !in Names(list) ==> Same(containers, old(containers), n)
    {
      ghost var handled, doneAt;
      if action == Restart {
        ghost var between;
        r, handled, calls, between, doneAt := RestartActionList(list);
        if r.Err? && between.None? {
          AbortedOthers(Remove, old(containers), list, handled, containers);
        } else if r.Err? {
          AbortedOthers(Start, between.value, list, handled, containers);
          RemovedOthers(old(containers), list);
        }
      } else {
        r, handled, calls, doneAt := RunActionLoop(action, list);
        assert Names(list)[..|list|] == Names(list);
        if r.Err? {
          AbortedOthers(action, old(containers), list, handled, containers);
        }
      }
    }

    /** runServers. */
    method RunServers(action: Action, keys: seq<string>) returns (r: Result<Summary, Error>, ghost list: seq<Server>)
      requires Valid()
      modifies this`clock, this`done, this`faults, this`asked, this`containers, this`starts, this`seen, this`cuts
      ensures (exists k :: k in Dedup(keys) && k !in serversByKey) ==>
                r.Err? && r.error.UnknownKey? && containers == old(containers) && starts == old(starts)
      ensures (forall k :: k in Dedup(keys) ==> k in serversByKey) ==>
                && SelectedFrom(serversByKey, keys, list)
                && (r.Ok? ==> BatchDone(action, old(containers), list, r.value, containers))
                && (r.Err? ==> forall n :: n !in Names(list) ==> Same(containers, old(containers), n))
                && (if r.Ok? then Fine() else action == Other || Caused(r.error))
    {
      list := [];
      var selected := ServersForKeys(keys);
      if selected.Err? {
        return Err(selected.error), list;
      }
      list := selected.value;
      ghost var calls;
      r, calls := RunActionList(action, selected.value);
    }

    /** runGroup. */
    method RunGroup(group: string, action: Action) returns (r: Result<Summary, Error>)
      requires Valid()
      modifies this`clock, this`done, this`faults, this`asked, this`containers, this`starts, this`seen, this`cuts
      ensures group !in groups ==> r == Err(UnknownGroup) && containers == old(containers) && starts == old(starts)
      ensures r.Ok? ==> BatchDone(action, old(containers), Scan(servers, group), r.value, containers)
      ensures r.Err? ==> forall n :: n !in Names(Scan(servers, group)) ==> Same(containers, old(containers), n)
      ensures if r.Ok? then Fine() else group !in groups || action == Other || Caused(r.error)
    {
      if group !in groups {
        return Err(UnknownGroup);
      }
      assert Listed(groups, group) == Scan(servers, group);
      ScanIn(servers, group);
      ghost var calls;
      r, calls := RunActionList(action, groups[group]);
    }
  }

  /** The loops of New over the servers and their groups. */
  method Index(servers: seq<Server>) returns (serversByKey: map<string, Server>, groups: map<string, seq<Server>>)
    requires UniqueKeys(servers)
    ensures IndexedByKey(serversByKey, servers) && GroupsScan(groups, servers)
  {
    serversByKey, groups := map[], map[];
    for i := 0 to |servers|
      invariant IndexedByKey(serversByKey, servers[..i]) && GroupsScan(groups, servers[..i])
    {
      IndexSnoc(serversByKey, servers, i);
      serversByKey := serversByKey[servers[i].key := servers[i]];
      groups := AddToGroups(groups, servers, i);
    }
    assert servers[..|servers|] == servers;
  }

  ghost predicate Past(calls: seq<int>, time: int) { forall t :: t in calls ==> t <= time }

  /** list has the selected servers. */
  ghost predicate SelectedFrom(index: map<string, Server>, keys: seq<string>, list: seq<Server>) {
    && |list| == |Dedup(keys)|
    && (forall j :: 0 <= j < |list| ==> Dedup(keys)[j] in index && list[j] == index[Dedup(keys)[j]])
  }

  /** One more key: skipped, unknown, or one more server. */
  lemma SelectNext(index: map<string, Server>, keys: seq<string>, i: nat, list: seq<Server>)
    requires i < |keys| && SelectedFrom(index, keys[..i], list)
    ensures var key, before, after := TrimSpace(keys[i]), Dedup(keys[..i]), Dedup(keys[..i + 1]);
            if key == "" || key in Distinct(before) then after == before && SelectedFrom(index, keys[..i + 1], list)
            else
              && key in after && Distinct(after) == Distinct(before) + {key}
              && (key in index ==> SelectedFrom(index, keys[..i + 1], list + [index[key]]))
  {
    DedupSnoc(keys, i);
    DistinctSnoc(Dedup(keys[..i]), TrimSpace(keys[i]));
  }

  /** How far a batch has come: the first i servers are handled, changed of them were changed, and that
      took so many start calls. */
  ghost predicate Progress(action: Action, m: Containers, list: seq<Server>, i: nat, now: Containers,
                           changed: nat, calls: nat) {
    && i <= |list|
    && now == Effect(action, m, Names(list)[..i])
    && changed == Changes(action, m, Names(list)[..i])
    && (action == Start ==> calls == changed)
  }

  /** The first phase of a batch restart has come to server i and recorded these keys. */
  ghost predicate Removed(m: Containers, list: seq<Server>, i: nat, now: Containers, keys: set<string>) {
    i <= |list| && now == RemoveAll(m, Names(list)[..i]) && keys == RemovedKeys(m, list[..i])
  }

  /** The batch stopped at server k: those before it are handled, and at most its container differs. */
  ghost predicate Aborted(action: Action, m: Containers, list: seq<Server>, k: nat, now: Containers) {
    k < |list| && AgreeExcept(now, Effect(action, m, Names(list)[..k]), Names(list)[k])
  }

  lemma AbortedOthers(action: Action, m: Containers, list: seq<Server>, k: nat, now: Containers)
    requires Aborted(action, m, list, k, now)
    ensures forall n :: n !in Names(list) ==> Same(now, m, n)
  {
    forall n | n !in Names(list) ensures Same(now, m, n) {
      OthersKept(m, Names(list), k, n);
      SameExcept(now, Effect(action, m, Names(list)[..k]), Names(list)[k], n);
    }
  }

  lemma RemovedTo(m: Containers, list: seq<Server>, now: Containers, keys: set<string>)
    requires Removed(m, list, |list|, now, keys)
    ensures now == RemoveAll(m, Names(list)) && keys == RemovedKeys(m, list)
  {
    assert Names(list)[..|list|] == Names(list) && list[..|list|] == list;
  }

  lemma RestartDone(m: Containers, list: seq<Server>, between: Containers, keys: set<string>, flags: seq<bool>,
                    after: Containers, calls: nat)
    requires between == RemoveAll(m, Names(list)) && keys == RemovedKeys(m, list)
    requires Progress(Start, between, list, |list|, after, calls, calls) && flags == Flags(keys, list, |list|)
    ensures |flags| == |list| && BatchDone(Restart, m, list, Summary(|flags|, |flags|, flags), after)
  {
    FlagsAre(keys, list, |list|);
    assert Names(list)[..|list|] == Names(list);
  }

  lemma RemovedOthers(m: Containers, list: seq<Server>)
    ensures forall n :: n !in Names(list) ==> Same(RemoveAll(m, Names(list)), m, n)
  {
    forall n | n !in Names(list) ensures Same(RemoveAll(m, Names(list)), m, n) {
      RemoveAllAt(m, Names(list), n);
    }
  }

  lemma {:induction false} NothingStarted(m: Containers, names: seq<string>)
    ensures StartChanges(m, names) == 0 ==> StartAll(m, names) == m
  {
    if names == [] {
    } else {
      NothingStarted(m, names[..|names| - 1]);
    }
  }

  lemma ProgressStart(action: Action, m: Containers, list: seq<Server>)
    ensures Progress(action, m, list, 0, m, 0, 0)
  {
  }

  lemma ProgressAborts(action: Action, m: Containers, list: seq<Server>, i: nat, now: Containers, changed: nat, calls: nat)
    requires Progress(action, m, list, i, now, changed, calls) && i < |list|
    ensures Aborted(action, m, list, i, now) && (action == Start ==> calls == changed)
  {
  }

  lemma ProgressNext(action: Action, m: Containers, list: seq<Server>, i: nat, now: Containers)
    requires i < |list| && now == Effect(action, m, Names(list)[..i])
    ensures var n := list[i].container;
            && Effect(action, m, Names(list)[..i + 1]) == Effect(action, now, [n])
            && Changes(action, m, Names(list)[..i + 1]) == Changes(action, m, Names(list)[..i]) + Changes(action, now, [n])
  {
    EffectSnoc(action, m, Names(list), i);
  }

  /** What an action on one server does when it succeeds: what a batch of it does. */
  ghost predicate SingleDone(action: Action, m: Containers, n: string, changed: bool, after: Containers, calls: nat) {
    && (action == Restart ==> changed && calls == 1 && after == m[n := RUNNING])
    && (action != Restart ==> after == Effect(action, m, [n]) && Changes(action, m, [n]) == if changed then 1 else 0)
    && (action == Start ==> calls == if changed then 1 else 0)
  }

  /** The calls so far are spaced, and if the last wait was full another one may be made now. */
  ghost predicate Timely(calls: seq<int>, now: int, waited: bool) {
    Spaced(calls) && Past(calls, now) && (waited ==> Past(calls, now - START_INTERVAL))
  }

  lemma TimelyStart(now: int)
    ensures forall waited :: Timely([], now, waited)
  {
  }

  /** One more iteration, from time before to time now. */
  lemma TimelyNext(calls: seq<int>, more: seq<int>, before: int, waited: bool, now: int, waitedAgain: bool)
    requires Timely(calls, before, waited) && before <= now
    requires |more| <= 1 && (forall t :: t in more ==> before <= t <= now) && (more != [] ==> waited)
    requires waitedAgain ==> now >= before + START_INTERVAL && Past(more, now - START_INTERVAL)
    ensures Timely(calls + more, now, waitedAgain)
  {
    assert more != [] ==> more[0] in more;
    assert calls != [] ==> calls[|calls| - 1] in calls;
  }

  /** The removed flags of the first n servers. */
  function Flags(removedByKey: set<string>, list: seq<Server>, n: nat): seq<bool>
    requires n <= |list|
  {
    if n == 0 then [] else Flags(removedByKey, list, n - 1) + [list[n - 1].key in removedByKey]
  }

  lemma FlagsNone(removedByKey: set<string>, list: seq<Server>)
    ensures Flags(removedByKey, list, 0) == []
  {
  }

  lemma FlagsNext(removedByKey: set<string>, list: seq<Server>, n: nat)
    requires n < |list|
    ensures Flags(removedByKey, list, n + 1) == Flags(removedByKey, list, n) + [list[n].key in removedByKey]
  {
  }

  lemma {:induction false} FlagsAre(removedByKey: set<string>, list: seq<Server>, n: nat)
    requires n <= |list|
    ensures var r := Flags(removedByKey, list, n);
            |r| == n && forall k :: 0 <= k < n ==> (r[k] <==> list[k].key in removedByKey)
  {
    if n == 0 {
    } else {
      FlagsAre(removedByKey, list, n - 1);
    }
  }

  lemma EffectOne(action: Action, m: Containers, n: string)
    ensures Effect(action, m, [n]) == if action.Start? then Started(m, n) else m - {n}
    ensures action.Start? ==> Changes(action, m, [n]) == if IsRunning(m, n) then 0 else 1
    ensures !action.Start? ==> Changes(action, m, [n]) == if n in m then 1 else 0
  {
    var one := [n];
    assert one[..|one| - 1] == [] && one[|one| - 1] == n;
    assert StartAll(m, []) == m && RemoveAll(m, []) == m;
    assert StartChanges(m, []) == 0 && RemoveChanges(m, []) == 0;
  }

  lemma EffectSnoc(action: Action, m: Containers, names: seq<string>, i: nat)
    requires i < |names|
    ensures Effect(action, m, names[..i + 1]) == Effect(action, Effect(action, m, names[..i]), [names[i]])
    ensures Changes(action, m, names[..i + 1])
         == Changes(action, m, names[..i]) + Changes(action, Effect(action, m, names[..i]), [names[i]])
  {
    var upTo := names[..i + 1];
    assert upTo[..|upTo| - 1] == names[..i] && upTo[|upTo| - 1] == names[i];
    EffectOne(action, Effect(action, m, names[..i]), names[i]);
  }

  lemma IndexSnoc(index: map<string, Server>, servers: seq<Server>, i: nat)
    requires UniqueKeys(servers) && i < |servers| && IndexedByKey(index, servers[..i])
    ensures IndexedByKey(index[servers[i].key := servers[i]], servers[..i + 1])
  {
    assert servers[..i + 1] == servers[..i] + [servers[i]];
    assert forall s :: s in servers[..i] ==> s.key != servers[i].key;
  }

  /** The inner loop of New: one append for every entry of the server's group list. */
  method AddToGroups(before: map<string, seq<Server>>, servers: seq<Server>, i: nat)
    returns (groups: map<string, seq<Server>>)
    requires i < |servers| && GroupsScan(before, servers[..i])
    ensures GroupsScan(groups, servers[..i + 1])
  {
    groups := before;
    var server := servers[i];
    for j := 0 to |server.groups|
      invariant forall g :: Listed(groups, g) == Scan(servers[..i], g) + Copies(server, server.groups[..j], g)
    {
      var group := server.groups[j];
      ghost var was := groups;
      groups := groups[group := Listed(groups, group) + [server]];
      forall g ensures Listed(groups, g) == Scan(servers[..i], g) + Copies(server, server.groups[..j + 1], g) {
        CopiesSnoc(server, server.groups, j, g);
        assert Listed(was, g) == Scan(servers[..i], g) + Copies(server, server.groups[..j], g);
      }
    }
    assert server.groups[..|server.groups|] == server.groups;
    forall g ensures Listed(groups, g) == Scan(servers[..i + 1], g) {
      ScanSnoc(servers, i, g);
    }
  }

  lemma CopiesSnoc(s: Server, groups: seq<string>, j: nat, g: string)
    requires j < |groups|
    ensures Copies(s, groups[..j + 1], g) == Copies(s, groups[..j], g) + if groups[j] == g then [s] else []
  {
    assert groups[..j + 1][..j] == groups[..j];
  }

  lemma ScanSnoc(servers: seq<Server>, i: nat, g: string)
    requires i < |servers|
    ensures Scan(servers[..i + 1], g) == Scan(servers[..i], g) + Copies(servers[i], servers[i].groups, g)
  {
    assert servers[..i + 1][..i] == servers[..i];
  }

  lemma RemoveSnoc(m: Containers, list: seq<Server>, i: nat)
    requires i < |list|
    ensures var before := RemoveAll(m, Names(list)[..i]);
            var name := list[i].container;
            && RemoveAll(m, Names(list)[..i + 1]) == before - {name}
            && RemovedKeys(m, list[..i + 1]) == RemovedKeys(m, list[..i]) + (if name in before then {list[i].key} else {})
            && (name !in before ==> before - {name} == before)
  {
    var upTo, names := list[..i + 1], Names(list)[..i + 1];
    assert upTo[..|upTo| - 1] == list[..i] && upTo[|upTo| - 1] == list[i];
    assert names[..|names| - 1] == Names(list)[..i] && names[|names| - 1] == list[i].container;
    NamesTake(list, i);
  }

  lemma RestartSnoc(m: Containers, list: seq<Server>, i: nat)
    requires i < |list|
    ensures RestartAll(m, Names(list[..i + 1])) == RestartAll(m, Names(list[..i]))[list[i].container := RUNNING]
  {
    var upTo := Names(list[..i + 1]);
    assert upTo[..|upTo| - 1] == Names(list[..i]) && upTo[|upTo| - 1] == list[i].container;
  }

  lemma DedupSnoc(keys: seq<string>, i: nat)
    requires i < |keys|
    ensures var before := Dedup(keys[..i]);
            var key := TrimSpace(keys[i]);
            Dedup(keys[..i + 1]) == if key == "" || key in before then before else before + [key]
  {
    assert keys[..i + 1][..i] == keys[..i];
  }

  lemma {:induction false} DedupGrows(keys: seq<string>, i: nat)
    requires i <= |keys|
    ensures Dedup(keys[..i]) <= Dedup(keys)
    decreases |keys| - i
  {
    if i == |keys| {
      assert keys[..i] == keys;
    } else {
      DedupSnoc(keys, i);
      DedupGrows(keys, i + 1);
    }
  }
}
