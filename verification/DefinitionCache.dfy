/** Topology definitions read from a Git repository through a cache. */
module DefinitionCache {
  import opened Wrappers

  /** Which server holds the repository, and for GitHub how its cache is keyed. */
  datatype Mode = GitLab | Fresh | Aggressive | FreshImport {

    /** The revision itself is the cache key, not the commit it resolves to. */
    predicate BranchKeyed() { Aggressive? || FreshImport? }
  }

  /** A branch or a tag. */
  datatype Ref = Ref(name: string, sha: string)

  /** The repository on the server: its refs, and for every commit the topology file, if it has one. */
  datatype Repo = Repo(refs: seq<Ref>, commits: map<string, Option<string>>)

  /** A definition, known by the file it was loaded from, and the version of the repository at that time. */
  datatype Entry = Entry(file: string, at: nat)

  // ---------------------------------------------------------------- the server

  function FindRef(refs: seq<Ref>, name: string): Option<string> {
    if refs == [] then None
    else if refs[0].name == name then Some(refs[0].sha)
    else FindRef(refs[1..], name)
  }

  /** How a revision is resolved: refs win over commits. */
  function Resolve(repo: Repo, rev: string): Option<string> {
    match FindRef(repo.refs, rev)
    case Some(sha) => Some(sha)
    case None => if rev in repo.commits then Some(rev) else None
  }

  /** `get_file` for the topology file. */
  function FileAt(repo: Repo, rev: string): Option<string> {
    match Resolve(repo, rev)
    case Some(sha) => if sha in repo.commits then repo.commits[sha] else None
    case None => None
  }

  /** `get_rev_sha`; None stands for the error. */
  function Key(mode: Mode, repo: Repo, rev: string): Option<string> {
    if mode.BranchKeyed() then Some(rev) else Resolve(repo, rev)
  }

  /** Every ref points to a commit. */
  ghost predicate ValidRepo(repo: Repo) {
    forall i :: 0 <= i < |repo.refs| ==> repo.refs[i].sha in repo.commits
  }

  /** The name of a commit means that commit: no ref found under it points elsewhere. */
  ghost predicate SelfNamed(repo: Repo, sha: string) {
    sha in repo.commits ==> Resolve(repo, sha) == Some(sha)
  }

  /** A push adds commits and may move, add or delete refs; commits do not change. */
  ghost predicate Pushed(before: Repo, after: Repo) {
    && ValidRepo(after)
    && forall sha :: sha in before.commits ==> sha in after.commits && after.commits[sha] == before.commits[sha]
  }

  lemma {:induction false} FindRefIn(refs: seq<Ref>, name: string)
    ensures FindRef(refs, name).Some? <==> exists i :: 0 <= i < |refs| && refs[i].name == name
    ensures FindRef(refs, name).Some? ==>
              exists i :: 0 <= i < |refs| && refs[i] == Ref(name, FindRef(refs, name).value)
  {
    if refs != [] && refs[0].name != name {
      FindRefIn(refs[1..], name);
      if FindRef(refs[1..], name).Some? {
        var i :| 0 <= i < |refs[1..]| && refs[1..][i] == Ref(name, FindRef(refs[1..], name).value);
        assert refs[i + 1].name == name;
      }
    }
  }

  /** What a revision resolves to is a commit. */
  lemma ResolvesToCommit(repo: Repo, rev: string)
    requires ValidRepo(repo) && Resolve(repo, rev).Some?
    ensures Resolve(repo, rev).value in repo.commits
  {
    FindRefIn(repo.refs, rev);
  }

  /** A pinned commit names itself exactly when no ref is named like it, or the first such ref points to it. */
  lemma PinnedIff(repo: Repo, sha: string)
    requires sha in repo.commits
    ensures SelfNamed(repo, sha)
            <==> forall i :: 0 <= i < |repo.refs| && FirstNamed(repo.refs, i, sha) ==> repo.refs[i].sha == sha
  {
    FirstRef(repo.refs, sha);
  }

  ghost predicate FirstNamed(refs: seq<Ref>, i: nat, name: string)
    requires i < |refs|
  {
    refs[i].name == name && forall j :: 0 <= j < i ==> refs[j].name != name
  }

  lemma {:induction false} FirstRef(refs: seq<Ref>, name: string)
    ensures FindRef(refs, name).None? ==> forall i :: 0 <= i < |refs| ==> refs[i].name != name
    ensures FindRef(refs, name).Some? ==>
              exists i :: 0 <= i < |refs| && FirstNamed(refs, i, name) && FindRef(refs, name) == Some(refs[i].sha)
  {
    if refs != [] && refs[0].name != name {
      FirstRef(refs[1..], name);
      if FindRef(refs[1..], name).Some? {
        var i :| 0 <= i < |refs| - 1 && FirstNamed(refs[1..], i, name)
                 && FindRef(refs[1..], name) == Some(refs[1..][i].sha);
        forall j | 0 <= j < i + 1 ensures refs[j].name != name {
          if j > 0 { assert refs[1..][j - 1] == refs[j]; }
        }
        assert FirstNamed(refs, i + 1, name);
      }
    }
  }

  // ---------------------------------------------------------------- one undisturbed read

  type Cache = map<string, Entry>

  /** A read that nothing interrupts: its result (None stands for an error) and the cache after it; `ok` says
      whether the file loads and the definition passes validation. */
  function Read(mode: Mode, history: seq<Repo>, cache: Cache, rev: string, force: bool, ok: bool)
    : (Option<Entry>, Cache)
    requires history != []
  {
    var now := history[|history| - 1];
    match Key(mode, now, rev)
    case None => (None, cache)
    case Some(key) =>
      if !force && key in cache then (Some(cache[key]), cache) else
      match FileAt(now, key)
      case None => (None, cache)
      case Some(file) =>
        if !ok then (None, cache) else
        var entry := Entry(file, |history| - 1);
        (Some(entry), cache[key := entry])
  }

  class Definitions {
    const mode: Mode
    var cache: Cache

    constructor (mode: Mode)
      ensures this.mode == mode && cache == map[]
    {
      this.mode, cache := mode, map[];
    }

    /** `GitlabProvider.get_rev_sha` looks through the refs; `GitHubProvider.get_rev_sha` asks the server. */
    method GetRevSha(repo: Repo, rev: string) returns (sha: Option<string>)
      ensures sha == Key(mode, repo, rev)
      ensures mode.Aggressive? || mode.FreshImport? ==> sha == Some(rev)
      ensures mode.GitLab? || mode.Fresh? ==>
                forall i :: 0 <= i < |repo.refs| && FirstNamed(repo.refs, i, rev) ==> sha == Some(repo.refs[i].sha)
      ensures (mode.GitLab? || mode.Fresh?) && (forall i :: 0 <= i < |repo.refs| ==> repo.refs[i].name != rev) ==>
                sha == if rev in repo.commits then Some(rev) else None
    {
      FirstRef(repo.refs, rev);
      if mode.BranchKeyed() {
        return Some(rev);
      }
      if mode.Fresh? {
        return Resolve(repo, rev);
      }
      for i := 0 to |repo.refs|
        invariant FindRef(repo.refs, rev) == FindRef(repo.refs[i..], rev)
      {
        if repo.refs[i].name == rev {
          return Some(repo.refs[i].sha);
        }
        assert repo.refs[i..][1..] == repo.refs[i + 1..];
      }
      sha := if rev in repo.commits then Some(rev) else None;
    }

    /** `get_definition`. */
    method GetDefinition(history: seq<Repo>, rev: string, force: bool, ok: bool) returns (definition: Option<Entry>)
      requires history != []
      modifies this`cache
      ensures (definition, cache) == Read(mode, history, old(cache), rev, force, ok)
      ensures definition.None? ==> cache == old(cache)
      ensures var now := history[|history| - 1];
              var key := Key(mode, now, rev);
              && (key.None? ==> definition.None?)
              && (key.Some? && key.value in old(cache) && !force ==>
                    definition == Some(old(cache)[key.value]) && cache == old(cache))
              && (key.Some? && (key.value !in old(cache) || force) ==>
                    (definition.Some? <==> ok && FileAt(now, key.value).Some?)
                    && (definition.Some? ==>
                          definition.value == Entry(FileAt(now, key.value).value, |history| - 1)
                          && cache == old(cache)[key.value := definition.value]))
    {
      var now := history[|history| - 1];
      var key := GetRevSha(now, rev);
      if key.None? {
        return None;
      }
      if !force && key.value in cache {
        return Some(cache[key.value]);
      }
      var file := FileAt(now, key.value);
      if file.None? || !ok {
        return None;
      }
      cache := cache[key.value := Entry(file.value, |history| - 1)];
      definition := Some(cache[key.value]);
    }

    /** Keyed by commit, and the commit that the revision resolves to is found under its own name. */
    ghost predicate ByCommit(history: seq<Repo>, cache: Cache, rev: string)
      requires history != []
    {
      !mode.BranchKeyed() && KeyCurrent(history[|history| - 1], cache, rev)
    }

    /** `create_definition`: the read of an import, forced in one mode. In that mode, and in those keyed by commit, it
        returns the file that the revision has now. */
    method CreateDefinition(history: seq<Repo>, rev: string, ok: bool) returns (definition: Option<Entry>)
      requires history != []
      modifies this`cache
      ensures (definition, cache) == Read(mode, history, old(cache), rev, mode.FreshImport?, ok)
      ensures definition.Some? && (mode.FreshImport? || ByCommit(history, old(cache), rev)) ==>
                FileAt(history[|history| - 1], rev) == Some(definition.value.file)
    {
      definition := GetDefinition(history, rev, mode.FreshImport?, ok);
      if mode.FreshImport? || ByCommit(history, old(cache), rev) {
        ReadCurrent(mode, history, old(cache), rev, mode.FreshImport?, ok);
      }
    }
  }

  /** The commit that the revision resolves to is found under its own name, and its cache entry is its file. */
  ghost predicate KeyCurrent(now: Repo, cache: Cache, rev: string) {
    Resolve(now, rev).Some? ==>
      var sha := Resolve(now, rev).value;
      && sha in now.commits && SelfNamed(now, sha)
      && (sha in cache ==> now.commits[sha] == Some(cache[sha].file))
  }

  /** A read in a mode keyed by commit, or a forced one, returns the file that the revision has now. */
  lemma ReadCurrent(mode: Mode, history: seq<Repo>, cache: Cache, rev: string, force: bool, ok: bool)
    requires history != []
    requires if mode.BranchKeyed() then force else KeyCurrent(history[|history| - 1], cache, rev)
    ensures var (definition, after) := Read(mode, history, cache, rev, force, ok);
            definition.Some? ==> FileAt(history[|history| - 1], rev) == Some(definition.value.file)
  {
  }

  /** A read of a pinned commit returns that commit's file exactly when the commit that its name resolves to has the
      same file. */
  lemma PinnedReadIff(mode: Mode, history: seq<Repo>, cache: Cache, sha: string, force: bool, ok: bool)
    requires history != [] && !mode.BranchKeyed() && KeyCurrent(history[|history| - 1], cache, sha)
    requires sha in history[|history| - 1].commits
    ensures var now := history[|history| - 1];
            var (definition, after) := Read(mode, history, cache, sha, force, ok);
            && Resolve(now, sha).Some? && Resolve(now, sha).value in now.commits
            && (definition.Some? ==>
                  (now.commits[sha] == Some(definition.value.file)
                   <==> now.commits[sha] == now.commits[Resolve(now, sha).value]))
  {
    ReadCurrent(mode, history, cache, sha, force, ok);
  }

  // ---------------------------------------------------------------- reads that run side by side

  /** How far a read has come. */
  datatype Phase = Resolved | Missed | Loaded(entry: Entry)

  datatype Op = Op(rev: string, key: string, force: bool, phase: Phase)

  datatype Sys = Sys(history: seq<Repo>, cache: Cache, ops: map<nat, Op>)

  datatype Event =
    | Push(repo: Repo)
    | Evict(key: string)
    | Begin(id: nat, rev: string, force: bool)
    | Look(id: nat)
    | Fetch(id: nat, ok: bool)
    | Store(id: nat)

  function Now(s: Sys): Repo
    requires s.history != []
  {
    s.history[|s.history| - 1]
  }

  ghost predicate Can(mode: Mode, s: Sys, e: Event) {
    s.history != [] &&
    match e
    case Push(repo) => Pushed(Now(s), repo)
    case Evict(key) => true
    case Begin(id, rev, force) => id !in s.ops && Key(mode, Now(s), rev).Some?
    case Look(id) => id in s.ops && s.ops[id].phase.Resolved?
    case Fetch(id, ok) => id in s.ops && s.ops[id].phase.Missed?
    case Store(id) => id in s.ops && s.ops[id].phase.Loaded?
  }

  /** The state after a step, and the definition that a read returns in it. */
  ghost function Do(mode: Mode, s: Sys, e: Event): (Sys, Option<Entry>)
    requires Can(mode, s, e)
  {
    match e
    case Push(repo) => (s.(history := s.history + [repo]), None)
    case Evict(key) => (s.(cache := s.cache - {key}), None)
    case Begin(id, rev, force) => (s.(ops := s.ops[id := Op(rev, Key(mode, Now(s), rev).value, force, Resolved)]), None)
    case Look(id) =>
      var op := s.ops[id];
      if !op.force && op.key in s.cache then (s.(ops := s.ops - {id}), Some(s.cache[op.key]))
      else (s.(ops := s.ops[id := op.(phase := Missed)]), None)
    case Fetch(id, ok) =>
      var op, file := s.ops[id], FileAt(Now(s), s.ops[id].key);
      if file.Some? && ok then (s.(ops := s.ops[id := op.(phase := Loaded(Entry(file.value, |s.history| - 1)))]), None)
      else (s.(ops := s.ops - {id}), None)
    case Store(id) =>
      var op := s.ops[id];
      (s.(cache := s.cache[op.key := op.phase.entry], ops := s.ops - {id}), Some(op.phase.entry))
  }

  /** The steps of a read on its own do what the undisturbed read does. */
  lemma ReadSteps(mode: Mode, s: Sys, id: nat, rev: string, force: bool, ok: bool)
    requires s.history != [] && id !in s.ops && Key(mode, Now(s), rev).Some?
    ensures var (definition, cache) := Read(mode, s.history, s.cache, rev, force, ok);
            var (s1, _) := Do(mode, s, Begin(id, rev, force));
            var (s2, hit) := Do(mode, s1, Look(id));
            if hit.Some? then definition == hit && cache == s2.cache && s2.ops == s.ops else
            var (s3, _) := Do(mode, s2, Fetch(id, ok));
            if id !in s3.ops then definition == None && cache == s3.cache && s3.ops == s.ops else
            var (s4, stored) := Do(mode, s3, Store(id));
            definition == stored && cache == s4.cache && s4.ops == s.ops
  {
  }

  /** The events can happen one after the other. */
  ghost predicate Possible(mode: Mode, s: Sys, events: seq<Event>)
    decreases |events|
  {
    events == [] || (Can(mode, s, events[0]) && Possible(mode, Do(mode, s, events[0]).0, events[1..]))
  }

  ghost function After(mode: Mode, s: Sys, events: seq<Event>): Sys
    requires Possible(mode, s, events)
    decreases |events|
  {
    if events == [] then s else After(mode, Do(mode, s, events[0]).0, events[1..])
  }

  /** The event ends a read with that key, and the read returns a definition. */
  ghost predicate Returns(mode: Mode, s: Sys, key: string, e: Event) {
    && (e.Look? || e.Store?) && Can(mode, s, e)
    && s.ops[e.id].key == key && Do(mode, s, e).1.Some?
  }

  /** The definition that it returns. */
  ghost function Returned(mode: Mode, s: Sys, key: string, e: Event): Entry
    requires Returns(mode, s, key, e)
  {
    Do(mode, s, e).1.value
  }

  // ---------------------------------------------------------------- keyed by commit

  /** Whatever the cache and the reads in flight hold for a commit is its file. */
  ghost predicate ShaInv(s: Sys, sha: string) {
    && s.history != [] && ValidRepo(Now(s)) && SelfNamed(Now(s), sha)
    && (sha in s.cache ==> sha in Now(s).commits && Now(s).commits[sha] == Some(s.cache[sha].file))
    && forall id :: id in s.ops ==> OpInv(Now(s), s.ops[id], sha)
  }

  ghost predicate OpInv(now: Repo, op: Op, sha: string) {
    op.key == sha ==>
      sha in now.commits && (op.phase.Loaded? ==> now.commits[sha] == Some(op.phase.entry.file))
  }

  /** After every push of the run the name of the commit still means that commit. */
  ghost predicate StaysSelfNamed(events: seq<Event>, sha: string) {
    forall i :: 0 <= i < |events| && events[i].Push? ==> SelfNamed(events[i].repo, sha)
  }

  lemma PushKeeps(s: Sys, repo: Repo, sha: string)
    requires ShaInv(s, sha) && Pushed(Now(s), repo) && SelfNamed(repo, sha)
    ensures ShaInv(s.(history := s.history + [repo]), sha)
  {
    forall id | id in s.ops ensures OpInv(repo, s.ops[id], sha) {
      assert OpInv(Now(s), s.ops[id], sha);
    }
  }

  lemma BeginKeeps(mode: Mode, s: Sys, id: nat, rev: string, force: bool, sha: string)
    requires !mode.BranchKeyed() && ShaInv(s, sha) && Can(mode, s, Begin(id, rev, force))
    ensures ShaInv(Do(mode, s, Begin(id, rev, force)).0, sha)
  {
    ResolvesToCommit(Now(s), rev);
  }

  lemma FetchKeeps(mode: Mode, s: Sys, id: nat, ok: bool, sha: string)
    requires ShaInv(s, sha) && Can(mode, s, Fetch(id, ok))
    ensures ShaInv(Do(mode, s, Fetch(id, ok)).0, sha)
  {
    assert OpInv(Now(s), s.ops[id], sha);
  }

  /** One step keeps what is held for the commit, and a read of the commit that returns in it returns its file. */
  lemma StepTransparent(mode: Mode, s: Sys, e: Event, sha: string)
    requires !mode.BranchKeyed() && ShaInv(s, sha) && Can(mode, s, e) && (e.Push? ==> SelfNamed(e.repo, sha))
    ensures ShaInv(Do(mode, s, e).0, sha)
    ensures Returns(mode, s, sha, e) ==>
              sha in Now(s).commits && Now(s).commits[sha] == Some(Returned(mode, s, sha, e).file)
  {
    match e
    case Push(repo) => PushKeeps(s, repo, sha);
    case Begin(id, rev, force) => BeginKeeps(mode, s, id, rev, force, sha);
    case Fetch(id, ok) => FetchKeeps(mode, s, id, ok, sha);
    case Look(id) => assert OpInv(Now(s), s.ops[id], sha);
    case Store(id) => assert OpInv(Now(s), s.ops[id], sha);
    case _ =>
  }

  /** Over every run of pushes, evictions and reads that interleave in any way, in which the name of the commit keeps
      its meaning, the cache and the reads in flight hold nothing but the commit's file for it. */
  lemma {:induction false} RunTransparent(mode: Mode, s: Sys, events: seq<Event>, sha: string)
    requires !mode.BranchKeyed() && ShaInv(s, sha) && Possible(mode, s, events) && StaysSelfNamed(events, sha)
    ensures ShaInv(After(mode, s, events), sha)
    decreases |events|
  {
    if events != [] {
      StepTransparent(mode, s, events[0], sha);
      assert forall i :: 0 <= i < |events| - 1 ==> events[1..][i] == events[i + 1];
      RunTransparent(mode, Do(mode, s, events[0]).0, events[1..], sha);
    }
  }

  /** Commits stay as they are. */
  lemma {:induction false} CommitsStay(mode: Mode, s: Sys, events: seq<Event>, sha: string)
    requires s.history != [] && Possible(mode, s, events) && sha in Now(s).commits
    ensures var t := After(mode, s, events);
            t.history != [] && sha in Now(t).commits && Now(t).commits[sha] == Now(s).commits[sha]
    decreases |events|
  {
    if events != [] {
      CommitsStay(mode, Do(mode, s, events[0]).0, events[1..], sha);
    }
  }

  /** No read with this number begins. */
  ghost predicate NoneBegins(events: seq<Event>, id: nat) {
    forall i :: 0 <= i < |events| && events[i].Begin? ==> events[i].id != id
  }

  /** A read keeps the key that it resolved to at its beginning. */
  lemma {:induction false} KeyKept(mode: Mode, s: Sys, events: seq<Event>, id: nat, key: string)
    requires Possible(mode, s, events) && NoneBegins(events, id)
    requires id in s.ops ==> s.ops[id].key == key
    ensures id in After(mode, s, events).ops ==> After(mode, s, events).ops[id].key == key
    decreases |events|
  {
    if events != [] {
      assert NoneBegins(events[1..], id) by {
        forall i | 0 <= i < |events[1..]| && events[1..][i].Begin? ensures events[1..][i].id != id {
          assert events[i + 1].Begin?;
        }
      }
      KeyKept(mode, Do(mode, s, events[0]).0, events[1..], id, key);
    }
  }

  /** The state when a read that began in `s` has come to its last step. */
  ghost function During(mode: Mode, s: Sys, id: nat, rev: string, force: bool, events: seq<Event>): Sys
    requires Can(mode, s, Begin(id, rev, force)) && Possible(mode, Do(mode, s, Begin(id, rev, force)).0, events)
  {
    After(mode, Do(mode, s, Begin(id, rev, force)).0, events)
  }

  /** Whatever pushes, evictions and other reads come between the beginning of a read and its return, it
      returns the file of the commit that its revision resolved to at the beginning, provided that the name of that
      commit keeps its meaning. */
  lemma ReadTransparent(mode: Mode, s: Sys, id: nat, rev: string, force: bool, events: seq<Event>, e: Event,
                        sha: string)
    requires !mode.BranchKeyed() && Can(mode, s, Begin(id, rev, force)) && Resolve(Now(s), rev) == Some(sha)
    requires ShaInv(s, sha) && StaysSelfNamed(events, sha)
    requires Possible(mode, Do(mode, s, Begin(id, rev, force)).0, events) && NoneBegins(events, id)
    requires e == Look(id) || e == Store(id)
    requires var t := During(mode, s, id, rev, force, events); Can(mode, t, e) && Do(mode, t, e).1.Some?
    ensures var t := During(mode, s, id, rev, force, events);
            && sha in Now(s).commits && Returns(mode, t, sha, e)
            && Now(s).commits[sha] == Some(Returned(mode, t, sha, e).file)
  {
    var s1 := Do(mode, s, Begin(id, rev, force)).0;
    ResolvesToCommit(Now(s), rev);
    BeginKeeps(mode, s, id, rev, force, sha);
    RunTransparent(mode, s1, events, sha);
    CommitsStay(mode, s1, events, sha);
    KeyKept(mode, s1, events, id, sha);
    StepTransparent(mode, After(mode, s1, events), e, sha);
  }

  /** A pool pinned to a commit gets that commit's definition, however often and whenever it asks, on every run in
      which the name of that commit keeps its meaning. */
  lemma PinnedNeverChanges(mode: Mode, s0: Sys, before: seq<Event>, sha: string, id: nat, force: bool,
                           events: seq<Event>, e: Event)
    requires !mode.BranchKeyed() && ShaInv(s0, sha) && sha in Now(s0).commits
    requires Possible(mode, s0, before) && StaysSelfNamed(before, sha) && StaysSelfNamed(events, sha)
    requires var s := After(mode, s0, before);
             Can(mode, s, Begin(id, sha, force)) && Possible(mode, Do(mode, s, Begin(id, sha, force)).0, events)
    requires NoneBegins(events, id) && (e == Look(id) || e == Store(id))
    requires var t := During(mode, After(mode, s0, before), id, sha, force, events);
             Can(mode, t, e) && Do(mode, t, e).1.Some?
    ensures var t := During(mode, After(mode, s0, before), id, sha, force, events);
            Returns(mode, t, sha, e) && Now(s0).commits[sha] == Some(Returned(mode, t, sha, e).file)
  {
    var s := After(mode, s0, before);
    RunTransparent(mode, s0, before, sha);
    CommitsStay(mode, s0, before, sha);
    ReadTransparent(mode, s, id, sha, force, events, e, sha);
  }

  lemma {:induction false} Above(ids: set<nat>) returns (bound: nat)
    ensures forall id :: id in ids ==> id < bound
  {
    bound := 0;
    if id :| id in ids {
      var rest := Above(ids - {id});
      bound := if id < rest then rest else id + 1;
      forall other | other in ids ensures other < bound { assert other == id || other in ids - {id}; }
    }
  }

  ghost predicate NoPushes(events: seq<Event>) {
    forall i :: 0 <= i < |events| ==> !events[i].Push?
  }

  lemma {:induction false} SameHistory(mode: Mode, s: Sys, events: seq<Event>)
    requires Possible(mode, s, events) && NoPushes(events)
    ensures After(mode, s, events).history == s.history
    decreases |events|
  {
    if events != [] {
      assert !events[0].Push?;
      assert forall i :: 0 <= i < |events| - 1 ==> events[1..][i] == events[i + 1];
      SameHistory(mode, Do(mode, s, events[0]).0, events[1..]);
    }
  }

  /** After the events in `before` a read of the commit begins, and after those in `events` it returns a definition. */
  ghost predicate PinnedRead(mode: Mode, s: Sys, sha: string, before: seq<Event>, id: nat, force: bool,
                             events: seq<Event>, e: Event)
  {
    && Possible(mode, s, before) && NoPushes(before) && NoPushes(events)
    && Can(mode, After(mode, s, before), Begin(id, sha, force))
    && Possible(mode, Do(mode, After(mode, s, before), Begin(id, sha, force)).0, events)
    && NoneBegins(events, id) && (e == Look(id) || e == Store(id))
    && (var t := During(mode, After(mode, s, before), id, sha, force, events);
        Can(mode, t, e) && Do(mode, t, e).1.Some?)
  }

  /** The file that it returns. */
  ghost function PinnedFile(mode: Mode, s: Sys, sha: string, before: seq<Event>, id: nat, force: bool,
                            events: seq<Event>, e: Event): string
    requires PinnedRead(mode, s, sha, before, id, force, events, e)
  {
    Do(mode, During(mode, After(mode, s, before), id, sha, force, events), e).1.value.file
  }

  /** Until the next push every read of the commit, on any run, returns the commit's own file. */
  ghost predicate PinnedHolds(mode: Mode, s: Sys, sha: string)
    requires s.history != [] && sha in Now(s).commits
  {
    forall before, id, force, events, e :: PinnedRead(mode, s, sha, before, id, force, events, e) ==>
      Now(s).commits[sha] == Some(PinnedFile(mode, s, sha, before, id, force, events, e))
  }

  /** Every such read returns the file of the commit that the name now means. */
  lemma PinnedReadsTarget(mode: Mode, s: Sys, sha: string, target: string, before: seq<Event>, id: nat, force: bool,
                          events: seq<Event>, e: Event)
    requires !mode.BranchKeyed() && ShaInv(s, target) && Resolve(Now(s), sha) == Some(target)
    requires PinnedRead(mode, s, sha, before, id, force, events, e)
    ensures target in Now(s).commits
    ensures Now(s).commits[target] == Some(PinnedFile(mode, s, sha, before, id, force, events, e))
  {
    SameHistory(mode, s, before);
    RunTransparent(mode, s, before, target);
    ReadTransparent(mode, After(mode, s, before), id, sha, force, events, e, target);
  }

  lemma TwoEvents(mode: Mode, s: Sys, a: Event, b: Event)
    requires Can(mode, s, a) && Can(mode, Do(mode, s, a).0, b)
    ensures Possible(mode, s, [a, b]) && After(mode, s, [a, b]) == Do(mode, Do(mode, s, a).0, b).0
  {
    var t := Do(mode, s, a).0;
    assert [a, b][1..] == [b] && [b][1..] == [];
    assert Possible(mode, Do(mode, t, b).0, []);
    assert Possible(mode, t, [b]) && After(mode, t, [b]) == Do(mode, t, b).0;
  }

  /** A forced read that nothing interrupts. */
  lemma PinnedForced(mode: Mode, s: Sys, sha: string, target: string) returns (id: nat)
    requires !mode.BranchKeyed() && ShaInv(s, target) && Resolve(Now(s), sha) == Some(target)
    requires target in Now(s).commits && Now(s).commits[target].Some?
    ensures PinnedRead(mode, s, sha, [], id, true, [Look(id), Fetch(id, true)], Store(id))
  {
    id := Above(s.ops.Keys);
    var s1 := Do(mode, s, Begin(id, sha, true)).0;
    var s2 := Do(mode, s1, Look(id)).0;
    var s3 := Do(mode, s2, Fetch(id, true)).0;
    assert s3.ops[id].phase.Loaded?;
    TwoEvents(mode, s1, Look(id), Fetch(id, true));
    assert Possible(mode, s, []) && After(mode, s, []) == s;
    assert During(mode, After(mode, s, []), id, sha, true, [Look(id), Fetch(id, true)]) == s3;
  }

  /** After any run of pushes and reads the reads of a pinned commit are right until the next push exactly when the
      commit that its name then means has the same file, or none to load. */
  lemma PinnedHoldsIff(mode: Mode, s: Sys, sha: string, target: string)
    requires !mode.BranchKeyed() && ShaInv(s, target) && Resolve(Now(s), sha) == Some(target)
    requires sha in Now(s).commits
    ensures target in Now(s).commits
    ensures PinnedHolds(mode, s, sha)
            <==> Now(s).commits[target] == Now(s).commits[sha] || Now(s).commits[target] == None
  {
    ResolvesToCommit(Now(s), sha);
    var file := Now(s).commits[target];
    forall before, id, force, events, e | PinnedRead(mode, s, sha, before, id, force, events, e)
      ensures file == Some(PinnedFile(mode, s, sha, before, id, force, events, e))
    {
      PinnedReadsTarget(mode, s, sha, target, before, id, force, events, e);
    }
    if file.Some? {
      var id := PinnedForced(mode, s, sha, target);
      assert file == Some(PinnedFile(mode, s, sha, [], id, true, [Look(id), Fetch(id, true)], Store(id)));
    }
  }

  /** A ref named like the commit: the pinned definition changes. */
  lemma PinnedChanges()
    ensures var before := Repo([], map["c" := Some("one")]);
            var after := Repo([Ref("c", "d")], map["c" := Some("one"), "d" := Some("two")]);
            && ValidRepo(before) && Pushed(before, after)
            && Read(GitLab, [before], map[], "c", false, true).0 == Some(Entry("one", 0))
            && Read(GitLab, [before, after], Read(GitLab, [before], map[], "c", false, true).1, "c", false, true).0
               == Some(Entry("two", 1))
  {
    var after := Repo([Ref("c", "d")], map["c" := Some("one"), "d" := Some("two")]);
    assert "c" != "d" by { assert "c"[0] != "d"[0]; }
    assert FindRef(after.refs, "c") == Some("d");
    assert after.refs[1..] == [] && FindRef(after.refs, "d") == None;
  }

  // ---------------------------------------------------------------- what is held, by version

  /** The entry is the file that the key had at the entry's version. */
  ghost predicate Dated(history: seq<Repo>, key: string, entry: Entry) {
    entry.at < |history| && FileAt(history[entry.at], key) == Some(entry.file)
  }

  ghost predicate OpDated(history: seq<Repo>, op: Op) {
    op.phase.Loaded? ==> Dated(history, op.key, op.phase.entry)
  }

  ghost predicate AllDated(s: Sys) {
    && s.history != []
    && (forall key :: key in s.cache ==> Dated(s.history, key, s.cache[key]))
    && forall id :: id in s.ops ==> OpDated(s.history, s.ops[id])
  }

  lemma StepDated(mode: Mode, s: Sys, e: Event)
    requires AllDated(s) && Can(mode, s, e)
    ensures AllDated(Do(mode, s, e).0)
    ensures forall key :: Returns(mode, s, key, e) ==> Dated(s.history, key, Returned(mode, s, key, e))
  {
    var t := Do(mode, s, e).0;
    forall key | key in t.cache ensures Dated(t.history, key, t.cache[key]) {
      if key in s.cache { assert Dated(s.history, key, s.cache[key]); }
      if e.Store? { assert OpDated(s.history, s.ops[e.id]); }
    }
    forall id | id in t.ops ensures OpDated(t.history, t.ops[id]) {
      if id in s.ops { assert OpDated(s.history, s.ops[id]); }
    }
    if e.Store? { assert OpDated(s.history, s.ops[e.id]); }
  }

  /** On every run, in every mode, what is cached or loaded is the file that its key had at its version. */
  lemma {:induction false} RunDated(mode: Mode, s: Sys, events: seq<Event>)
    requires AllDated(s) && Possible(mode, s, events)
    ensures AllDated(After(mode, s, events))
    decreases |events|
  {
    if events != [] {
      StepDated(mode, s, events[0]);
      RunDated(mode, Do(mode, s, events[0]).0, events[1..]);
    }
  }

  // ---------------------------------------------------------------- keyed by branch

  /** A read in flight that has loaded a version before `v` of the key. */
  ghost predicate Holds(op: Op, key: string, v: nat) {
    op.key == key && op.phase.Loaded? && op.phase.entry.at < v
  }

  /** Neither the cache nor a read in flight holds a version before `v`. */
  ghost predicate Floor(s: Sys, key: string, v: nat) {
    && v < |s.history| && (key in s.cache ==> v <= s.cache[key].at)
    && forall id :: id in s.ops ==> !Holds(s.ops[id], key, v)
  }

  /** On no run does a read return a version before `v`. */
  ghost predicate NeverBehind(mode: Mode, s: Sys, key: string, v: nat) {
    forall events, e :: Possible(mode, s, events) && Returns(mode, After(mode, s, events), key, e) ==>
      v <= Returned(mode, After(mode, s, events), key, e).at
  }

  lemma FloorStep(mode: Mode, s: Sys, e: Event, key: string, v: nat)
    requires Floor(s, key, v) && Can(mode, s, e)
    ensures Floor(Do(mode, s, e).0, key, v)
    ensures Returns(mode, s, key, e) ==> v <= Returned(mode, s, key, e).at
  {
    if e.Store? { assert !Holds(s.ops[e.id], key, v); }
  }

  lemma {:induction false} FloorRun(mode: Mode, s: Sys, events: seq<Event>, key: string, v: nat)
    requires Floor(s, key, v) && Possible(mode, s, events)
    ensures Floor(After(mode, s, events), key, v)
    decreases |events|
  {
    if events != [] {
      FloorStep(mode, s, events[0], key, v);
      FloorRun(mode, Do(mode, s, events[0]).0, events[1..], key, v);
    }
  }

  /** A new read returns what the cache holds. */
  lemma CacheComesOut(mode: Mode, s: Sys, key: string, v: nat)
    requires mode.BranchKeyed() && s.history != [] && key in s.cache && s.cache[key].at < v
    ensures !NeverBehind(mode, s, key, v)
  {
    var id := Above(s.ops.Keys);
    var e := Begin(id, key, false);
    var t := Do(mode, s, e).0;
    assert [e][1..] == [] && Possible(mode, t, []);
    assert Possible(mode, s, [e]) && After(mode, s, [e]) == t;
    assert Returns(mode, After(mode, s, [e]), key, Look(id));
  }

  /** A read in flight returns what it has loaded. */
  lemma LoadedComesOut(mode: Mode, s: Sys, key: string, v: nat, id: nat)
    requires s.history != [] && id in s.ops && Holds(s.ops[id], key, v)
    ensures !NeverBehind(mode, s, key, v)
  {
    assert Possible(mode, s, []);
    assert Returns(mode, After(mode, s, []), key, Store(id));
  }

  /** In the branch-keyed modes no later read of a revision, on any run, returns a version before `v` exactly when
      neither the cache nor a read in flight holds one. */
  lemma NeverBehindIff(mode: Mode, s: Sys, key: string, v: nat)
    requires mode.BranchKeyed() && v < |s.history|
    ensures NeverBehind(mode, s, key, v) <==> Floor(s, key, v)
  {
    if Floor(s, key, v) {
      forall events, e | Possible(mode, s, events) && Returns(mode, After(mode, s, events), key, e)
        ensures v <= Returned(mode, After(mode, s, events), key, e).at
      {
        FloorRun(mode, s, events, key, v);
        FloorStep(mode, After(mode, s, events), e, key, v);
      }
    } else if key in s.cache && s.cache[key].at < v {
      CacheComesOut(mode, s, key, v);
    } else {
      var id :| id in s.ops && Holds(s.ops[id], key, v);
      LoadedComesOut(mode, s, key, v, id);
    }
  }

  /** Once a read has returned a version of a revision, forced import or not, no later read returns an older one
      exactly when no read in flight has loaded an older one by then; so never, if reads come one at a time. */
  lemma VersionsAdvance(mode: Mode, s: Sys, rev: string, e: Event)
    requires mode.BranchKeyed() && AllDated(s) && Returns(mode, s, rev, e)
    ensures var x, t := Returned(mode, s, rev, e), Do(mode, s, e).0;
            && Dated(s.history, rev, x)
            && (NeverBehind(mode, t, rev, x.at) <==> forall id :: id in t.ops ==> !Holds(t.ops[id], rev, x.at))
  {
    var x, t := Returned(mode, s, rev, e), Do(mode, s, e).0;
    StepDated(mode, s, e);
    assert t.cache == (if e.Look? then s.cache else s.cache[rev := x]);
    NeverBehindIff(mode, t, rev, x.at);
    assert Floor(t, rev, x.at) <==> forall id :: id in t.ops ==> !Holds(t.ops[id], rev, x.at);
  }

  /** Reads that overlap can bring back an old version: a slow read stores what it fetched before a push over
      what a forced read stored after it. */
  lemma SlowReadGoesBack(before: Repo, after: Repo, rev: string, one: string, two: string)
    requires FileAt(before, rev) == Some(one) && FileAt(after, rev) == Some(two) && Pushed(before, after)
    ensures var slow := Fetched(Sys([before], map[], map[]), 1, rev, false);
            var pushed := Do(FreshImport, slow, Push(after)).0;
            var (imported, first) := Do(FreshImport, Fetched(pushed, 2, rev, true), Store(2));
            var (stored, _) := Do(FreshImport, imported, Store(1));
            var (_, later) := Do(FreshImport, Do(FreshImport, stored, Begin(3, rev, false)).0, Look(3));
            first == Some(Entry(two, 1)) && later == Some(Entry(one, 0))
  {
  }

  /** A read that missed the cache and has loaded its file. */
  ghost function Fetched(s: Sys, id: nat, rev: string, force: bool): Sys
    requires s.history != [] && id !in s.ops && (force || rev !in s.cache)
  {
    var begun := Do(FreshImport, s, Begin(id, rev, force)).0;
    Do(FreshImport, Do(FreshImport, begun, Look(id)).0, Fetch(id, true)).0
  }
}
