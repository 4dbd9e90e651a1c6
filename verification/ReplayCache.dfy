/** internal/runtime/runtime.go: the stale-while-revalidate cache of one replay target. Listings,
    refreshes (a directory walk, then a store) and imports (a rename, then an invalidation) interleave
    freely. Files may appear at any time but, as long as nobody deletes them, do not disappear. */
module ReplayCache {
  import opened Basics

  type File = string

  /** A cache entry: what a walk found, when that walk began and when its result was stored. */
  datatype Entry = Entry(files: set<File>, began: nat, stored: nat)

  /** A walk in progress: when it began and what was there then. */
  datatype Walk = Walk(began: nat, there: set<File>)

  /** An import after its rename. Ranging is the loop over the cache that deletes the target's entries. */
  datatype Import = Renamed(file: File, at: nat) | Ranging(file: File, at: nat, since: nat) | Finished(file: File, at: nat)

  datatype State = State(
    time: nat, disk: set<File>, cache: Option<Entry>,
    walks: map<nat, Walk>, imports: map<nat, Import>)

  datatype Action =
    | Appear(file: File)                        // a game server writes a replay
    | BeginWalk(id: nat)                        // refreshReplayFileEntries, by anyone
    | EndWalk(id: nat, found: set<File>)        // the walk's result is stored
    | FailWalk(id: nat)
    | Rename(id: nat, file: File)               // an import's os.Rename
    | BeginRange(id: nat)
    | Drop(id: nat)                             // Range meets an entry and deletes what is there now
    | EndRange(id: nat)

  const INIT := State(0, {}, None, map[], map[])

  /** A walk reports everything that was there when it began, and nothing that is not there at its end. */
  predicate CanFind(w: Walk, disk: set<File>, found: set<File>) { w.there <= found <= disk }

  /** Range visits every entry that was stored before it began, unless it was replaced meanwhile. */
  predicate RangeMayEnd(cache: Option<Entry>, since: nat) { cache.None? || cache.value.stored >= since }

  /** One step; an action that is not possible now only lets time pass. */
  function Exec(s: State, a: Action): State {
    var s := s.(time := s.time + 1);
    match a
    case Appear(file) => s.(disk := s.disk + {file})
    case BeginWalk(id) => if id in s.walks then s else s.(walks := s.walks[id := Walk(s.time, s.disk)])
    case EndWalk(id, found) =>
      if id !in s.walks || !CanFind(s.walks[id], s.disk, found) then s
      else s.(cache := Some(Entry(found, s.walks[id].began, s.time)), walks := s.walks - {id})
    case FailWalk(id) => s.(walks := s.walks - {id})
    case Rename(id, file) =>
      if id in s.imports then s
      else s.(disk := s.disk + {file}, imports := s.imports[id := Renamed(file, s.time)])
    case BeginRange(id) =>
      if id in s.imports && s.imports[id].Renamed?
      then s.(imports := s.imports[id := Ranging(s.imports[id].file, s.imports[id].at, s.time)])
      else s
    case Drop(id) => if id in s.imports && s.imports[id].Ranging? then s.(cache := None) else s
    case EndRange(id) =>
      if id in s.imports && s.imports[id].Ranging? && RangeMayEnd(s.cache, s.imports[id].since)
      then s.(imports := s.imports[id := Finished(s.imports[id].file, s.imports[id].at)])
      else s
  }

  function Run(actions: seq<Action>): State {
    if actions == [] then INIT
    else Exec(Run(actions[..|actions| - 1]), actions[|actions| - 1])
  }

  /** listReplayFileEntries: a cached result if there is one, expired or not; None stands for a walk. */
  function Listed(s: State): Option<set<File>> {
    if s.cache.Some? then Some(s.cache.value.files) else None
  }

  /** Nothing comes from the future, and a range follows its rename. */
  ghost predicate Clocks(s: State) {
    && (forall w :: w in s.walks ==> s.walks[w].began <= s.time && s.walks[w].there <= s.disk)
    && (forall id :: id in s.imports ==> s.imports[id].at <= s.time && s.imports[id].file in s.disk)
    && (forall id :: id in s.imports && s.imports[id].Ranging? ==> s.imports[id].at < s.imports[id].since <= s.time)
    && (s.cache.Some? ==> s.cache.value.began <= s.cache.value.stored <= s.time)
  }

  /** No walk begins at the very moment of a rename. */
  ghost predicate Apart(s: State) {
    && (forall id, w :: id in s.imports && w in s.walks ==> s.walks[w].began != s.imports[id].at)
    && (s.cache.Some? ==> forall id :: id in s.imports ==> s.cache.value.began != s.imports[id].at)
  }

  /** A walk that begins after a rename sees the file. */
  ghost predicate WalksSee(s: State) {
    forall id, w :: id in s.imports && w in s.walks && s.walks[w].began > s.imports[id].at ==>
      s.imports[id].file in s.walks[w].there
  }

  ghost predicate CacheSees(s: State) {
    s.cache.Some? ==> forall id :: id in s.imports && s.cache.value.began > s.imports[id].at ==>
      s.imports[id].file in s.cache.value.files
  }

  /** A finished import has outlived every entry stored before its rename. */
  ghost predicate Outlived(s: State) {
    s.cache.Some? ==> forall id :: id in s.imports && s.imports[id].Finished? ==>
      s.cache.value.stored > s.imports[id].at
  }

  ghost predicate Inv(s: State) { Clocks(s) && Apart(s) && WalksSee(s) && CacheSees(s) && Outlived(s) }

  lemma ClocksStep(s: State, a: Action)
    requires Clocks(s)
    ensures Clocks(Exec(s, a))
  {
  }

  lemma ApartStep(s: State, a: Action)
    requires Clocks(s) && Apart(s)
    ensures Apart(Exec(s, a))
  {
  }

  lemma WalksSeeStep(s: State, a: Action)
    requires Clocks(s) && WalksSee(s)
    ensures WalksSee(Exec(s, a))
  {
  }

  lemma CacheSeesStep(s: State, a: Action)
    requires Clocks(s) && CacheSees(s) && WalksSee(s)
    ensures CacheSees(Exec(s, a))
  {
  }

  lemma OutlivedStep(s: State, a: Action)
    requires Clocks(s) && Outlived(s)
    ensures Outlived(Exec(s, a))
  {
  }

  lemma InvStep(s: State, a: Action)
    requires Inv(s)
    ensures Inv(Exec(s, a))
  {
    ClocksStep(s, a);
    ApartStep(s, a);
    WalksSeeStep(s, a);
    CacheSeesStep(s, a);
    OutlivedStep(s, a);
  }

  lemma {:induction false} AlwaysInv(actions: seq<Action>)
    ensures Inv(Run(actions))
  {
    if actions == [] {
    } else {
      AlwaysInv(actions[..|actions| - 1]);
      InvStep(Run(actions[..|actions| - 1]), actions[|actions| - 1]);
    }
  }

  /** In every interleaving, a listing after a successful import that is served from the cache misses the
      imported file only if the cached walk began before the rename and was stored after it. */
  lemma CachedMissNeedsStraddlingRefresh(actions: seq<Action>, id: nat)
    requires var s := Run(actions); id in s.imports && s.imports[id].Finished? && Listed(s).Some?
    ensures var s := Run(actions);
            s.imports[id].file in Listed(s).value
            || s.cache.value.began < s.imports[id].at < s.cache.value.stored
  {
    AlwaysInv(actions);
  }

  /** A listing that walks itself after the import never misses the file. */
  lemma WalkAfterImportFinds(actions: seq<Action>, id: nat, w: nat, found: set<File>)
    requires var s := Run(actions);
             && id in s.imports && w in s.walks && s.walks[w].began > s.imports[id].at
             && CanFind(s.walks[w], s.disk, found)
    ensures Run(actions).imports[id].file in found
  {
    AlwaysInv(actions);
  }

  /** What a walk began with is what was on disk, imported or not, and that is found. */
  lemma WalkFindsWhatWasThere(before: seq<Action>, w: nat, file: File, found: set<File>)
    requires w !in Run(before).walks
    ensures var s := Exec(Run(before), BeginWalk(w));
            && s.disk == Run(before).disk
            && (file in s.disk && CanFind(s.walks[w], s.disk, found) ==> file in found)
            && (file !in s.disk && CanFind(s.walks[w], s.disk, found) ==> file !in found)
            && Exec(s, EndWalk(w, s.disk)).cache.Some? && Exec(s, EndWalk(w, s.disk)).cache.value.files == s.disk
            && Exec(s, Appear(file)).disk == s.disk + {file}
            && Exec(s, FailWalk(w)).cache == s.cache && w !in Exec(s, FailWalk(w)).walks
  {
  }

  /** Every walk under way began with the file already there; for a new file, no walk is under way. */
  ghost predicate NoBlindWalk(s: State, file: File) {
    forall w :: w in s.walks ==> file in s.walks[w].there
  }

  ghost predicate Clean(s: State, id: nat) {
    && id in s.imports
    && NoBlindWalk(s, s.imports[id].file)
    && (s.cache.Some? ==> s.imports[id].file in s.cache.value.files || s.cache.value.stored < s.imports[id].at)
  }

  /** If the import is over, a listing served from the cache shows its file. */
  ghost predicate ShowsImport(s: State, id: nat, file: File) {
    id in s.imports && s.imports[id].Finished? && Listed(s).Some? ==> file in Listed(s).value
  }

  /** Whatever happens after the rename. */
  ghost predicate AlwaysShown(before: seq<Action>, id: nat, file: File) {
    forall after :: ShowsImport(Run(before + [Rename(id, file)] + after), id, file)
  }

  /** With no such walk under way at the rename, every later cached listing shows the file. */
  lemma {:induction false} QuietImportNeverMissed(before: seq<Action>, id: nat, file: File, after: seq<Action>)
    requires NoBlindWalk(Run(before), file) && id !in Run(before).imports
    ensures var s := Run(before + [Rename(id, file)] + after);
            Clean(s, id) && s.imports[id].file == file && ShowsImport(s, id, file)
  {
    var prefix := before + [Rename(id, file)];
    if after == [] {
      assert prefix + after == prefix;
      RunSnoc(before, Rename(id, file));
      AlwaysInv(before);
    } else {
      var n := |after| - 1;
      QuietImportNeverMissed(before, id, file, after[..n]);
      SplitLast(prefix, after);
      RunSnoc(prefix + after[..n], after[n]);
      CleanStep(Run(prefix + after[..n]), after[n], id, prefix + after[..n]);
    }
    AlwaysInv(prefix + after);
  }

  lemma SplitLast<T>(a: seq<T>, b: seq<T>)
    requires b != []
    ensures a + b == (a + b[..|b| - 1]) + [b[|b| - 1]]
  {
  }

  lemma CleanStep(s: State, a: Action, id: nat, actions: seq<Action>)
    requires s == Run(actions) && Clean(s, id)
    ensures Clean(Exec(s, a), id) && Exec(s, a).imports[id].file == s.imports[id].file
  {
    AlwaysInv(actions);
  }

  /** The rest of the import, during which nothing else happens. */
  lemma ImportEnds(s: State, id: nat) returns (r: State)
    requires id in s.imports && s.imports[id].Renamed?
    ensures r == Exec(Exec(Exec(s, BeginRange(id)), Drop(id)), EndRange(id))
    ensures id in r.imports && r.imports[id] == Finished(s.imports[id].file, s.imports[id].at)
    ensures r.disk == s.disk && r.walks == s.walks
  {
    var s1 := Exec(s, BeginRange(id));
    var s2 := Exec(s1, Drop(id));
    r := Exec(s2, EndRange(id));
  }

  /** A walk that began without the file and is stored after the import hides it. */
  lemma BlindWalkHides(before: seq<Action>, id: nat, file: File, w: nat)
    requires id !in Run(before).imports && w in Run(before).walks && file !in Run(before).walks[w].there
    ensures var rest := [BeginRange(id), Drop(id), EndRange(id), EndWalk(w, Run(before).walks[w].there)];
            !ShowsImport(Run(before + [Rename(id, file)] + rest), id, file)
  {
    AlwaysInv(before);
    var s := Exec(Run(before), Rename(id, file));
    var r := ImportEnds(s, id);
    RunFive(before, Rename(id, file), BeginRange(id), Drop(id), EndRange(id), EndWalk(w, Run(before).walks[w].there));
  }

  lemma RunFive(before: seq<Action>, a: Action, b: Action, c: Action, d: Action, e: Action)
    ensures Run(before + [a] + [b, c, d, e]) == Exec(Exec(Exec(Exec(Exec(Run(before), a), b), c), d), e)
  {
    RunSnoc(before, a);
    RunSnoc(before + [a], b);
    RunSnoc(before + [a] + [b], c);
    RunSnoc(before + [a] + [b] + [c], d);
    RunSnoc(before + [a] + [b] + [c] + [d], e);
    OneByOne(before + [a], b, c, d, e);
  }

  lemma OneByOne<T>(s: seq<T>, b: T, c: T, d: T, e: T)
    ensures s + [b, c, d, e] == s + [b] + [c] + [d] + [e]
  {
  }

  /** Every later cached listing shows the imported file, whatever happens, exactly when at the rename no
      walk is under way that began without the file. */
  lemma AlwaysShownIff(before: seq<Action>, id: nat, file: File)
    requires id !in Run(before).imports
    ensures AlwaysShown(before, id, file) <==> NoBlindWalk(Run(before), file)
  {
    if NoBlindWalk(Run(before), file) {
      forall after ensures ShowsImport(Run(before + [Rename(id, file)] + after), id, file) {
        QuietImportNeverMissed(before, id, file, after);
      }
    } else {
      var w :| w in Run(before).walks && file !in Run(before).walks[w].there;
      BlindWalkHides(before, id, file, w);
    }
  }

  /** For a file that was not there before, as the program demands: exactly when no walk is under way. */
  lemma NewFileAlwaysShownIff(before: seq<Action>, id: nat, file: File)
    requires id !in Run(before).imports && file !in Run(before).disk
    ensures AlwaysShown(before, id, file) <==> Run(before).walks == map[]
  {
    AlwaysShownIff(before, id, file);
    AlwaysInv(before);
    assert Run(before).walks != map[] ==> exists w :: w in Run(before).walks;
  }

  /** The smallest case of that: one refresh that straddles the import. */
  lemma StraddlingRefreshHides(file: File)
    ensures var s := Run([BeginWalk(0), Rename(1, file), BeginRange(1), EndRange(1), EndWalk(0, {})]);
            1 in s.imports && s.imports[1].Finished? && Listed(s) == Some({})
  {
    var a, b, c, d, e := BeginWalk(0), Rename(1, file), BeginRange(1), EndRange(1), EndWalk(0, {});
    RunFive([], a, b, c, d, e);
    assert [] + [a] + [b, c, d, e] == [a, b, c, d, e];
  }

  lemma RunSnoc(actions: seq<Action>, a: Action)
    ensures Run(actions + [a]) == Exec(Run(actions), a)
  {
    assert (actions + [a])[..|actions|] == actions;
  }
}
