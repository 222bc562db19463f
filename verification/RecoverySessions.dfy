/** Recovery workers that cache one historical borrow between receipts, over the file-owner registry: no step,
    storage transitions included, ever loses track of a reference. */
module RecoverySessions {
  import opened Basics
  import opened FileOwners

  type WorkerId = nat

  /** Where a worker is within a session borrow. */
  datatype Stage =
    | Resting
    | Prepared                                        // prepare has returned
    | Borrowing(version: nat, keep: bool)             // asking the registry
    | Borrowed(version: nat, keep: bool, token: Token) // the registry answered; the cache is still to be set

  datatype Worker = Worker(path: Path, cached: Option<Token>, stage: Stage)

  /** `held` are the borrows in callers' hands; `dropped` were taken out of a session and are about to be released. */
  datatype Service = Service(
    reg: State,
    held: set<Token>,
    dropped: set<Token>,
    workers: map<WorkerId, Worker>,
    current: Option<Path>,
    transition: bool,
    version: nat)

  datatype Move =
    | Registry(step: Step)              // a borrow of some caller, or slow I/O
    | ReleaseHeld(token: Token)
    | ReleaseDropped(token: Token)
    | Admit(worker: WorkerId, path: Path)
    | Assign(worker: WorkerId, path: Path)
    | Retire(worker: WorkerId)
    | CloseCached(worker: WorkerId)
    | ReleaseIdle(path: Path)
    | Prepare(worker: WorkerId, unwanted: bool) // unwanted: excluded from pruning's point of view, or no recovery pending
    | Decline(worker: WorkerId)
    | TakeCached(worker: WorkerId, copy: Token)
    | AskRegistry(worker: WorkerId)
    | Answered(worker: WorkerId, token: Token)
    | Failed(worker: WorkerId)
    | KeepOwner(worker: WorkerId, copy: Token)
    | Return(worker: WorkerId)
    | Begin
    | Swap(current: Option<Path>)
    | End

  function Start(): Service { Service(Init(), {}, {}, map[], None, false, 0) }

  predicate IsHeld(reg: State, t: Token) { t in reg.at && reg.at[t].Held? && reg.at[t].owner in reg.owners }

  function PathOf(reg: State, t: Token): Path
    requires IsHeld(reg, t)
  {
    reg.owners[reg.at[t].owner].path
  }

  predicate Caches(s: Service, w: WorkerId) { w in s.workers && s.workers[w].cached.Some? && IsHeld(s.reg, s.workers[w].cached.value) }

  function CachedPath(s: Service, w: WorkerId): Path
    requires Caches(s, w)
  {
    PathOf(s.reg, s.workers[w].cached.value)
  }

  /** Takes the cached owners of `ws` out of their sessions. */
  function Evict(s: Service, ws: set<WorkerId>): Service {
    s.(workers := map w | w in s.workers :: if w in ws then s.workers[w].(cached := None) else s.workers[w],
       dropped := s.dropped + set w | w in s.workers && w in ws && s.workers[w].cached.Some? :: s.workers[w].cached.value)
  }

  /** Releases a reference that a caller or a session gave up. */
  function LetGo(s: Service, t: Token): Service
    requires Enabled(s.reg, Release(t))
  {
    s.(reg := Apply(s.reg, Release(t)), held := s.held - {t}, dropped := s.dropped - {t})
  }

  /** Retains a reference for a caller. */
  function HandTo(s: Service, t: Token, copy: Token): Service
    requires Enabled(s.reg, Retain(t, copy))
  {
    s.(reg := Apply(s.reg, Retain(t, copy)), held := s.held + {copy})
  }

  /** Makes a caller's reference the session's. */
  function Caching(s: Service, w: WorkerId, c: Token): Service
    requires w in s.workers
  {
    s.(held := s.held - {c}, workers := s.workers[w := Worker(s.workers[w].path, Some(c), Resting)])
  }

  function SetStage(s: Service, w: WorkerId, stage: Stage): Service
    requires w in s.workers
  {
    s.(workers := s.workers[w := s.workers[w].(stage := stage)])
  }

  function AwayWorkers(s: Service): set<WorkerId> { set w | w in s.workers && Caches(s, w) && CachedPath(s, w) != s.workers[w].path }

  function IdleWorkers(s: Service, path: Path): set<WorkerId> {
    set w | w in s.workers && s.workers[w].path != path && Caches(s, w) && CachedPath(s, w) == path
  }

  predicate At(s: Service, w: WorkerId, stage: Stage) { w in s.workers && s.workers[w].stage == stage }

  predicate IsCurrent(s: Service, path: Path) { s.current == Some(path) }

  /** Whether a second critical section finds the wanted file in the session's cache. */
  predicate Hit(s: Service, w: WorkerId) { Caches(s, w) && CachedPath(s, w) == s.workers[w].path }

  predicate Can(s: Service, m: Move) {
    match m
    case Registry(step) => Enabled(s.reg, step) && !step.Release? && !step.Retain?
    case ReleaseHeld(t) => t in s.held && Enabled(s.reg, Release(t)) && (forall w | w in s.workers :: s.workers[w].stage.Borrowed? ==> s.workers[w].stage.token != t)
    case ReleaseDropped(t) => t in s.dropped && Enabled(s.reg, Release(t))
    case Admit(w, _) => w !in s.workers
    case Assign(w, _) => At(s, w, Resting)
    case Retire(w) => At(s, w, Resting)
    case CloseCached(w) => At(s, w, Resting)
    case ReleaseIdle(_) => true
    case Prepare(w, _) => At(s, w, Resting)
    case Decline(w) => At(s, w, Prepared)
    case TakeCached(w, c) => At(s, w, Prepared) && Hit(s, w) && !(s.transition && !IsCurrent(s, s.workers[w].path)) && c !in s.reg.at
    case AskRegistry(w) => At(s, w, Prepared) && !Hit(s, w) && !(s.transition && !IsCurrent(s, s.workers[w].path))
    case Answered(w, t) => w in s.workers && s.workers[w].stage.Borrowing? && t in s.held && IsHeld(s.reg, t) && PathOf(s.reg, t) == s.workers[w].path
    case Failed(w) => w in s.workers && s.workers[w].stage.Borrowing?
    case KeepOwner(w, c) => w in s.workers && s.workers[w].stage.Borrowed? && Keeps(s, w) && c !in s.reg.at && IsHeld(s.reg, s.workers[w].stage.token)
    case Return(w) => w in s.workers && s.workers[w].stage.Borrowed? && !Keeps(s, w)
    case Begin => true
    case Swap(_) => s.transition || s.workers == map[]
    case End => true
  }

  predicate Keeps(s: Service, w: WorkerId)
    requires w in s.workers && s.workers[w].stage.Borrowed?
  {
    s.workers[w].stage.keep && !s.transition && s.workers[w].stage.version == s.version
  }

  function Do(s: Service, m: Move): Service
    requires Can(s, m)
  {
    match m
    case Registry(step) =>
      s.(reg := Apply(s.reg, step), held := s.held + if step.BorrowShared? || step.Publish? then {step.token} else {})
    case ReleaseHeld(t) => LetGo(s, t)
    case ReleaseDropped(t) => LetGo(s, t)
    case Admit(w, path) => s.(workers := s.workers[w := Worker(path, None, Resting)])
    case Assign(w, path) => s.(workers := s.workers[w := s.workers[w].(path := path)])
    case Retire(w) => var r := Evict(s, {w}); r.(workers := r.workers - {w})
    case CloseCached(w) => Evict(s, {w})
    case ReleaseIdle(path) => Evict(s, IdleWorkers(s, path))
    case Prepare(w, unwanted) =>
      var away := Caches(s, w) && !IsCurrent(s, s.workers[w].path) && CachedPath(s, w) != s.workers[w].path;
      SetStage(if unwanted || s.transition || away then Evict(s, {w}) else s, w, Prepared)
    case Decline(w) => SetStage(s, w, Resting)
    case TakeCached(w, c) =>
      SetStage(HandTo(s, s.workers[w].cached.value, c), w, Resting)
    case AskRegistry(w) => SetStage(s, w, Borrowing(s.version, !IsCurrent(s, s.workers[w].path) && !s.transition))
    case Answered(w, t) => SetStage(s, w, Borrowed(s.workers[w].stage.version, s.workers[w].stage.keep, t))
    case Failed(w) => SetStage(s, w, Resting)
    case KeepOwner(w, c) =>
      Caching(HandTo(s, s.workers[w].stage.token, c), w, c)
    case Return(w) => SetStage(s, w, Resting)
    case Begin => Evict(s, AwayWorkers(s)).(transition := true, version := s.version + 1)
    case Swap(path) => s.(current := path)
    case End => s.(transition := false)
  }

  // ---------------------------------------------------------------- what is released, session by session

  /** The worker's session caches a borrow of the file at `path`. */
  predicate HoldsFile(s: Service, w: WorkerId, path: Path) {
    && w in s.workers && s.workers[w].cached.Some?
    && var t := s.workers[w].cached.value;
       t in s.reg.at && s.reg.at[t].Held? && s.reg.at[t].owner in s.reg.owners && s.reg.owners[s.reg.at[t].owner].path == path
  }

  /** Exactly the given sessions give up what they cache, which is then about to be released; nothing else changes. */
  ghost predicate GivesUp(s: Service, t: Service, ws: set<WorkerId>) {
    && t.workers.Keys == s.workers.Keys && t == s.(workers := t.workers, dropped := t.dropped)
    && (forall w | w in s.workers :: t.workers[w] == if w in ws then s.workers[w].(cached := None) else s.workers[w])
    && (forall c :: c in t.dropped <==> c in s.dropped || exists w :: w in ws && w in s.workers && s.workers[w].cached == Some(c))
  }

  lemma EvictGivesUp(s: Service, ws: set<WorkerId>)
    ensures GivesUp(s, Evict(s, ws), ws)
  {
  }

  /** Releasing a file's idle owners: the sessions of workers away from the file that cache it give it up, and no others; after it
      no worker away from the file caches it. */
  lemma IdleOwnersAreReleased(s: Service, path: Path)
    ensures var t := Do(s, ReleaseIdle(path));
            && GivesUp(s, t, set w | w in s.workers && s.workers[w].path != path && HoldsFile(s, w, path))
            && forall w | w in t.workers && t.workers[w].path != path :: !HoldsFile(t, w, path)
  {
    var ws := set w | w in s.workers && s.workers[w].path != path && HoldsFile(s, w, path);
    assert ws == IdleWorkers(s, path);
    EvictGivesUp(s, ws);
  }

  /** Closing a session's cache gives up exactly that session's; a worker that retires takes nothing with it. */
  lemma SessionsClose(s: Service, w: WorkerId)
    requires Can(s, CloseCached(w))
    ensures GivesUp(s, Do(s, CloseCached(w)), {w})
    ensures Can(s, Retire(w)) && Do(s, Retire(w)) == (var t := Do(s, CloseCached(w)); t.(workers := t.workers - {w}))
  {
    EvictGivesUp(s, {w});
  }

  /** Who may come, be given another file, or go. */
  lemma RosterMoves(s: Service, w: WorkerId, path: Path)
    ensures Can(s, Admit(w, path)) <==> w !in s.workers
    ensures Can(s, Admit(w, path)) ==> Do(s, Admit(w, path)) == s.(workers := s.workers[w := Worker(path, None, Resting)])
    ensures Can(s, Assign(w, path)) <==> w in s.workers && s.workers[w].stage == Resting
    ensures Can(s, Assign(w, path)) ==> Do(s, Assign(w, path)) == s.(workers := s.workers[w := s.workers[w].(path := path)])
    ensures Can(s, CloseCached(w)) <==> w in s.workers && s.workers[w].stage == Resting
  {
  }

  /** Idle owners may be released and a transition begun and ended at any time; storage changes hands within a transition or
      with no worker about. */
  lemma StorageMoves(s: Service, path: Path, current: Option<Path>)
    ensures Can(s, ReleaseIdle(path)) && Can(s, Begin) && Can(s, End) && Do(s, End) == s.(transition := false)
    ensures Can(s, Swap(current)) <==> s.transition || s.workers == map[]
    ensures Can(s, Swap(current)) ==> Do(s, Swap(current)) == s.(current := current)
  {
  }

  /** A storage transition begins by taking from every session the file that its worker is not at; afterwards a session caches at
      most its worker's own file. */
  lemma TransitionReleasesAway(s: Service)
    ensures var t := Do(s, Begin);
            && t.transition && t.version == s.version + 1
            && GivesUp(s, t.(transition := s.transition, version := s.version),
                       set w | w in s.workers && exists path :: path != s.workers[w].path && HoldsFile(s, w, path))
            && forall w, path | HoldsFile(t, w, path) :: path == t.workers[w].path
  {
    var ws := set w | w in s.workers && exists path :: path != s.workers[w].path && HoldsFile(s, w, path);
    forall w ensures w in ws <==> w in AwayWorkers(s) {
      if w in AwayWorkers(s) { assert HoldsFile(s, w, CachedPath(s, w)); }
    }
    assert ws == AwayWorkers(s);
    EvictGivesUp(s, ws);
    var t := Do(s, Begin);
    forall w, path | HoldsFile(t, w, path) ensures path == t.workers[w].path { assert HoldsFile(s, w, path); }
  }

  /** Preparing for a file: the session gives up its cache when the file is unwanted, during a transition, or when it caches
      another file and the worker's file is not the current one. */
  lemma PrepareReleases(s: Service, w: WorkerId, unwanted: bool)
    requires Can(s, Prepare(w, unwanted))
    ensures var t := Do(s, Prepare(w, unwanted));
            var away := s.current != Some(s.workers[w].path) && exists path :: path != s.workers[w].path && HoldsFile(s, w, path);
            && t.workers.Keys == s.workers.Keys && t.workers[w].stage == Prepared && t.workers[w].path == s.workers[w].path
            && t.workers[w].cached == (if unwanted || s.transition || away then None else s.workers[w].cached)
            && forall v | v in s.workers && v != w :: t.workers[v] == s.workers[v]
  {
    if Caches(s, w) { assert HoldsFile(s, w, CachedPath(s, w)); }
  }

  // ---------------------------------------------------------------- invariant

  predicate CachesToken(s: Service, w: WorkerId, t: Token) { w in s.workers && s.workers[w].cached == Some(t) }

  /** A reference is in a caller's hands, about to be released, or in one session's cache. */
  ghost predicate Kept(s: Service, t: Token) { t in s.held || t in s.dropped || exists w :: CachesToken(s, w, t) }

  /** Every outstanding reference is kept somewhere. */
  ghost predicate NoneLost(s: Service) { forall t | t in s.reg.at && s.reg.at[t].Held? :: Kept(s, t) }

  /** Whatever is kept is an outstanding reference. */
  ghost predicate NoneStale(s: Service) { forall t | Kept(s, t) :: IsHeld(s.reg, t) }

  /** A reference is kept in one place only. */
  ghost predicate NoneShared(s: Service) {
    && s.held !! s.dropped
    && (forall w, t | CachesToken(s, w, t) :: t !in s.held && t !in s.dropped)
    && (forall w, v, t | CachesToken(s, w, t) && CachesToken(s, v, t) :: w == v)
  }

  /** A worker about to cache an owner has none cached, whatever storage transitions happened since it prepared. */
  predicate StageOk(s: Service, w: WorkerId)
    requires w in s.workers
  {
    var x := s.workers[w];
    match x.stage
    case Resting => true
    case Prepared => Caches(s, w) && CachedPath(s, w) != x.path ==> !s.transition && IsCurrent(s, x.path)
    case Borrowing(_, keep) => keep ==> x.cached.None?
    case Borrowed(_, keep, t) => (keep ==> x.cached.None?) && t in s.held
  }

  ghost predicate StagesOk(s: Service) { forall w | w in s.workers :: StageOk(s, w) }

  ghost predicate SInv(s: Service) { Inv(s.reg) && NoneLost(s) && NoneStale(s) && NoneShared(s) && StagesOk(s) }

  // ---------------------------------------------------------------- registry steps seen from the sessions

  /** A held reference stays held, for the same file, until it is itself released. */
  lemma StaysHeld(reg: State, step: Step, t: Token)
    requires TokensOk(reg) && Enabled(reg, step) && IsHeld(reg, t) && step != Release(t)
    ensures IsHeld(Apply(reg, step), t) && PathOf(Apply(reg, step), t) == PathOf(reg, t)
  {
    assert PhaseOk(reg, reg.at[t]);
  }

  /** Only a finished borrow or a retain makes a new held reference. */
  lemma NewlyHeld(reg: State, step: Step, t: Token)
    requires Enabled(reg, step) && t in Apply(reg, step).at && Apply(reg, step).at[t].Held?
    ensures (t in reg.at && reg.at[t].Held? && step != Release(t)) || ((step.BorrowShared? || step.Publish?) && t == step.token)
            || (step.Retain? && t == step.copy)
  {
  }

  lemma JustHeld(reg: State, step: Step)
    requires Enabled(reg, step) && (step.BorrowShared? || step.Publish? || step.Retain?)
    ensures var t := if step.Retain? then step.copy else step.token;
            !IsHeld(reg, t) && IsHeld(Apply(reg, step), t)
  {
  }

  // ---------------------------------------------------------------- taking owners out of sessions

  lemma EvictKeeps(s: Service, ws: set<WorkerId>, t: Token)
    ensures Kept(Evict(s, ws), t) <==> Kept(s, t)
  {
    var r := Evict(s, ws);
    if w :| CachesToken(s, w, t) { assert if w in ws then t in r.dropped else CachesToken(r, w, t); }
    if w :| CachesToken(r, w, t) { assert CachesToken(s, w, t); }
    if t in r.dropped && t !in s.dropped {
      var w :| w in s.workers && w in ws && s.workers[w].cached.Some? && s.workers[w].cached.value == t;
      assert CachesToken(s, w, t);
    }
  }

  lemma EvictShares(s: Service, ws: set<WorkerId>)
    requires NoneShared(s)
    ensures NoneShared(Evict(s, ws))
  {
    var r := Evict(s, ws);
    forall t | t in r.dropped && t !in s.dropped ensures exists w :: w in ws && CachesToken(s, w, t) {
      var w :| w in s.workers && w in ws && s.workers[w].cached.Some? && s.workers[w].cached.value == t;
      assert CachesToken(s, w, t);
    }
    forall w, t | CachesToken(r, w, t) ensures CachesToken(s, w, t) && w !in ws {}
  }

  lemma EvictStage(s: Service, ws: set<WorkerId>, w: WorkerId)
    requires w in s.workers && StageOk(s, w)
    ensures StageOk(Evict(s, ws), w)
  {
  }

  lemma EvictAll(s: Service, ws: set<WorkerId>)
    requires SInv(s)
    ensures SInv(Evict(s, ws))
  {
    var r := Evict(s, ws);
    forall t ensures Kept(r, t) <==> Kept(s, t) { EvictKeeps(s, ws, t); }
    EvictShares(s, ws);
    forall w | w in r.workers ensures StageOk(r, w) { EvictStage(s, ws, w); }
  }

  // ---------------------------------------------------------------- moves that change the registry

  /** Sessions unchanged, registry advanced without releasing anything a session caches. */
  ghost predicate Advanced(s: Service, step: Step, r: Service) {
    && Enabled(s.reg, step) && r.reg == Apply(s.reg, step) && r.workers == s.workers && r.dropped <= s.dropped
    && r.current == s.current && r.transition == s.transition && r.version == s.version
    && (step.Release? ==> forall w :: !CachesToken(s, w, step.token))
  }

  lemma AdvancedCaches(s: Service, step: Step, r: Service, w: WorkerId)
    requires Inv(s.reg) && NoneStale(s) && Advanced(s, step, r) && w in s.workers && s.workers[w].cached.Some?
    ensures Caches(s, w) && Caches(r, w) && CachedPath(r, w) == CachedPath(s, w)
  {
    var t := s.workers[w].cached.value;
    assert CachesToken(s, w, t) && Kept(s, t);
    StaysHeld(s.reg, step, t);
  }

  lemma AdvancedStages(s: Service, step: Step, r: Service)
    requires SInv(s) && Advanced(s, step, r)
    requires forall w | w in s.workers && s.workers[w].stage.Borrowed? :: s.workers[w].stage.token in r.held
    ensures StagesOk(r)
  {
    forall w | w in r.workers ensures StageOk(r, w) {
      assert StageOk(s, w);
      if s.workers[w].cached.Some? { AdvancedCaches(s, step, r, w); }
    }
  }

  /** A release takes its reference out of the one place that kept it. */
  lemma ReleaseMove(s: Service, t: Token)
    requires SInv(s) && Enabled(s.reg, Release(t)) && (t in s.held || t in s.dropped)
    requires forall w | w in s.workers :: s.workers[w].stage.Borrowed? ==> s.workers[w].stage.token != t
    ensures SInv(LetGo(s, t))
  {
    var r := LetGo(s, t);
    InvKept(s.reg, Release(t));
    ReleaseLoses(s, t);
    ReleaseStales(s, t);
    ReleasedShared(s, t, r);
    forall w | w in s.workers && s.workers[w].stage.Borrowed? ensures s.workers[w].stage.token in r.held { assert StageOk(s, w); }
    AdvancedStages(s, Release(t), r);
  }

  lemma ReleaseLoses(s: Service, t: Token)
    requires NoneLost(s) && Enabled(s.reg, Release(t))
    ensures NoneLost(LetGo(s, t))
  {
    var r := LetGo(s, t);
    forall u | u in r.reg.at && r.reg.at[u].Held? ensures Kept(r, u) {
      NewlyHeld(s.reg, Release(t), u);
      ReleasedOthers(s, t, r, u);
    }
  }

  lemma ReleaseStales(s: Service, t: Token)
    requires Inv(s.reg) && NoneStale(s) && Enabled(s.reg, Release(t)) && forall w :: !CachesToken(s, w, t)
    ensures NoneStale(LetGo(s, t))
  {
    var r := LetGo(s, t);
    forall u | Kept(r, u) ensures IsHeld(r.reg, u) {
      ReleasedKept(s, t, r, u);
      StaysHeld(s.reg, Release(t), u);
    }
  }

  lemma DroppedUnused(s: Service, t: Token)
    requires StagesOk(s) && NoneShared(s) && t in s.dropped
    ensures forall w | w in s.workers :: s.workers[w].stage.Borrowed? ==> s.workers[w].stage.token != t
  {
    forall w | w in s.workers && s.workers[w].stage.Borrowed? ensures s.workers[w].stage.token != t { assert StageOk(s, w); }
  }

  lemma ReleasedOthers(s: Service, t: Token, r: Service, u: Token)
    requires NoneLost(s) && r.workers == s.workers && r.held == s.held - {t} && r.dropped == s.dropped - {t}
    requires u in s.reg.at && s.reg.at[u].Held? && u != t
    ensures Kept(r, u)
  {
    assert Kept(s, u);
    if w :| CachesToken(s, w, u) { assert CachesToken(r, w, u); }
  }

  lemma ReleasedKept(s: Service, t: Token, r: Service, u: Token)
    requires NoneStale(s) && Advanced(s, Release(t), r) && r.held == s.held - {t} && r.dropped == s.dropped - {t} && Kept(r, u)
    ensures u != t && IsHeld(s.reg, u)
  {
    if w :| CachesToken(r, w, u) { assert CachesToken(s, w, u); }
    assert Kept(s, u);
  }

  lemma ReleasedShared(s: Service, t: Token, r: Service)
    requires NoneShared(s) && r.workers == s.workers && r.held == s.held - {t} && r.dropped == s.dropped - {t}
    ensures NoneShared(r)
  {
    forall w, u | CachesToken(r, w, u) ensures CachesToken(s, w, u) {}
  }

  /** A new reference goes to one caller. */
  lemma HandOut(s: Service, step: Step, r: Service, new': set<Token>)
    requires SInv(s) && Advanced(s, step, r) && !step.Release? && r.dropped == s.dropped && r.held == s.held + new'
    requires new' == (if step.BorrowShared? || step.Publish? then {step.token} else if step.Retain? then {step.copy} else {})
    ensures SInv(r)
  {
    InvKept(s.reg, step);
    forall u | u in r.reg.at && r.reg.at[u].Held? ensures Kept(r, u) {
      NewlyHeld(s.reg, step, u);
      if u !in new' { HandedKept(s, r, u); }
    }
    forall u | u in new' ensures IsHeld(r.reg, u) && !Kept(s, u) { JustHeld(s.reg, step); }
    forall u | Kept(r, u) && u !in new' ensures IsHeld(r.reg, u) {
      HandedStale(s, r, new', u);
      StaysHeld(s.reg, step, u);
    }
    HandedShared(s, r, new');
    forall w | w in s.workers && s.workers[w].stage.Borrowed? ensures s.workers[w].stage.token in r.held { assert StageOk(s, w); }
    AdvancedStages(s, step, r);
  }

  lemma HandedKept(s: Service, r: Service, u: Token)
    requires Kept(s, u) && r.workers == s.workers && s.held <= r.held && r.dropped == s.dropped
    ensures Kept(r, u)
  {
    if w :| CachesToken(s, w, u) { assert CachesToken(r, w, u); }
  }

  lemma HandedStale(s: Service, r: Service, new': set<Token>, u: Token)
    requires Kept(r, u) && u !in new' && r.workers == s.workers && r.held == s.held + new' && r.dropped == s.dropped
    ensures Kept(s, u)
  {
    if w :| CachesToken(r, w, u) { assert CachesToken(s, w, u); }
  }

  lemma HandedShared(s: Service, r: Service, new': set<Token>)
    requires NoneShared(s) && r.workers == s.workers && r.held == s.held + new' && r.dropped == s.dropped
    requires forall u | u in new' :: !Kept(s, u)
    ensures NoneShared(r)
  {
    forall w, u | CachesToken(r, w, u) ensures CachesToken(s, w, u) && u !in new' { assert CachesToken(s, w, u) && Kept(s, u); }
  }

  // ---------------------------------------------------------------- moves of one worker

  /** A worker changes its path or stage but keeps its cache. */
  lemma WorkerMove(s: Service, w: WorkerId, x: Worker)
    requires SInv(s) && w in s.workers && x.cached == s.workers[w].cached
    requires StageOk(s.(workers := s.workers[w := x]), w)
    ensures SInv(s.(workers := s.workers[w := x]))
  {
    var r := s.(workers := s.workers[w := x]);
    SameCaches(s, r);
    forall v | v in r.workers ensures StageOk(r, v) { if v != w { assert StageOk(s, v); } }
  }

  lemma SameCaches(s: Service, r: Service)
    requires NoneLost(s) && NoneStale(s) && NoneShared(s) && r.reg == s.reg && r.held == s.held && r.dropped == s.dropped
    requires forall v, t :: CachesToken(r, v, t) <==> CachesToken(s, v, t)
    ensures NoneLost(r) && NoneStale(r) && NoneShared(r)
  {
    forall t ensures Kept(r, t) <==> Kept(s, t) {
      if w :| CachesToken(s, w, t) { assert CachesToken(r, w, t); }
      if w :| CachesToken(r, w, t) { assert CachesToken(s, w, t); }
    }
  }

  /** A caller's reference becomes the session's, when the session has none. */
  lemma Stash(s: Service, w: WorkerId, c: Token)
    requires SInv(s) && w in s.workers && s.workers[w].cached.None? && c in s.held
    requires forall v | v in s.workers && s.workers[v].stage.Borrowed? :: s.workers[v].stage.token != c
    ensures SInv(Caching(s, w, c))
  {
    var r := Caching(s, w, c);
    assert CachesToken(r, w, c);
    forall v, t ensures CachesToken(r, v, t) <==> if v == w then t == c else CachesToken(s, v, t) {}
    forall t ensures Kept(r, t) <==> Kept(s, t) {
      if v :| CachesToken(s, v, t) { assert CachesToken(r, v, t); }
      if v :| CachesToken(r, v, t) { assert v == w || CachesToken(s, v, t); }
    }
    forall v | v in r.workers ensures StageOk(r, v) { if v != w { assert StageOk(s, v); } }
  }

  /** A token not yet in use is nobody's. */
  lemma Unused(s: Service, c: Token)
    requires NoneStale(s) && StagesOk(s) && c !in s.reg.at
    ensures c !in s.held && forall v | v in s.workers && s.workers[v].stage.Borrowed? :: s.workers[v].stage.token != c
  {
    assert !Kept(s, c);
    forall v | v in s.workers && s.workers[v].stage.Borrowed? ensures s.workers[v].stage.token != c { assert StageOk(s, v); }
  }

  lemma KeepMove(s: Service, w: WorkerId, t: Token, c: Token)
    requires SInv(s) && w in s.workers && s.workers[w].cached.None? && IsHeld(s.reg, t) && c !in s.reg.at
    ensures SInv(Caching(HandTo(s, t, c), w, c))
  {
    Unused(s, c);
    HandOut(s, Retain(t, c), HandTo(s, t, c), {c});
    Stash(HandTo(s, t, c), w, c);
  }

  lemma TakeMove(s: Service, w: WorkerId, t: Token, c: Token)
    requires SInv(s) && w in s.workers && IsHeld(s.reg, t) && c !in s.reg.at
    ensures SInv(SetStage(HandTo(s, t, c), w, Resting))
  {
    var m := HandTo(s, t, c);
    HandOut(s, Retain(t, c), m, {c});
    WorkerMove(m, w, m.workers[w].(stage := Resting));
  }

  lemma PrepareMove(s: Service, w: WorkerId, unwanted: bool)
    requires SInv(s) && Can(s, Prepare(w, unwanted))
    ensures SInv(Do(s, Prepare(w, unwanted)))
  {
    EvictAll(s, {w});
    var away := Caches(s, w) && !IsCurrent(s, s.workers[w].path) && CachedPath(s, w) != s.workers[w].path;
    var m := if unwanted || s.transition || away then Evict(s, {w}) else s;
    WorkerMove(m, w, m.workers[w].(stage := Prepared));
  }

  lemma AskMove(s: Service, w: WorkerId)
    requires SInv(s) && Can(s, AskRegistry(w))
    ensures SInv(Do(s, AskRegistry(w)))
  {
    var keep := !IsCurrent(s, s.workers[w].path) && !s.transition;
    assert StageOk(s, w);
    if s.workers[w].cached.Some? {
      assert CachesToken(s, w, s.workers[w].cached.value);
      assert Kept(s, s.workers[w].cached.value);
    }
    WorkerMove(s, w, s.workers[w].(stage := Borrowing(s.version, keep)));
  }

  lemma TransitionMove(s: Service, m: Move)
    requires SInv(s) && Can(s, m) && (m.Begin? || m.Swap? || m.End?)
    ensures SInv(Do(s, m))
  {
    var r := Do(s, m);
    if m.Begin? {
      var e := Evict(s, AwayWorkers(s));
      EvictAll(s, AwayWorkers(s));
      SameCaches(e, r);
      forall w | w in r.workers ensures StageOk(r, w) { assert StageOk(e, w); }
    } else {
      SameCaches(s, r);
      forall w | w in r.workers ensures StageOk(r, w) { assert StageOk(s, w); }
    }
  }

  lemma RosterMove(s: Service, m: Move)
    requires SInv(s) && Can(s, m) && (m.Admit? || m.Retire?)
    ensures SInv(Do(s, m))
  {
    var r := Do(s, m);
    var e := if m.Admit? then s else Evict(s, {m.worker});
    EvictAll(s, {m.worker});
    SameCaches(e, r);
    forall w | w in r.workers ensures StageOk(r, w) { if w in e.workers { assert StageOk(e, w); } }
  }

  /** Moves that only change a worker's path or stage. */
  lemma StageMove(s: Service, m: Move)
    requires SInv(s) && Can(s, m) && (m.Assign? || m.Decline? || m.Answered? || m.Failed? || m.Return?)
    ensures SInv(Do(s, m))
  {
    var w := m.worker;
    assert StageOk(s, w);
    WorkerMove(s, w, Do(s, m).workers[w]);
  }

  lemma RegistryMove(s: Service, step: Step)
    requires SInv(s) && Can(s, Registry(step))
    ensures SInv(Do(s, Registry(step)))
  {
    HandOut(s, step, Do(s, Registry(step)), if step.BorrowShared? || step.Publish? then {step.token} else {});
  }

  lemma KeepOwnerMove(s: Service, w: WorkerId, c: Token)
    requires SInv(s) && Can(s, KeepOwner(w, c))
    ensures SInv(Do(s, KeepOwner(w, c)))
  {
    assert StageOk(s, w);
    KeepMove(s, w, s.workers[w].stage.token, c);
  }

  /** Every move keeps track of every reference. */
  lemma MoveKept(s: Service, m: Move)
    requires SInv(s) && Can(s, m)
    ensures SInv(Do(s, m))
  {
    match m
    case Registry(step) => RegistryMove(s, step);
    case ReleaseHeld(t) => ReleaseMove(s, t);
    case ReleaseDropped(t) => DroppedUnused(s, t); ReleaseMove(s, t);
    case CloseCached(w) => EvictAll(s, {w});
    case ReleaseIdle(p) => EvictAll(s, IdleWorkers(s, p));
    case Prepare(w, u) => PrepareMove(s, w, u);
    case TakeCached(w, c) => TakeMove(s, w, s.workers[w].cached.value, c);
    case AskRegistry(w) => AskMove(s, w);
    case KeepOwner(w, c) => KeepOwnerMove(s, w, c);
    case _ => PlainMove(s, m);
  }

  /** Moves of the roster, of a worker's path or stage, and of the storage transition. */
  lemma PlainMove(s: Service, m: Move)
    requires SInv(s) && Can(s, m)
    requires m.Admit? || m.Retire? || m.Assign? || m.Decline? || m.Answered? || m.Failed? || m.Return? || m.Begin? || m.Swap? || m.End?
    ensures SInv(Do(s, m))
  {
    if m.Admit? || m.Retire? {
      RosterMove(s, m);
    } else if m.Begin? || m.Swap? || m.End? {
      TransitionMove(s, m);
    } else {
      StageMove(s, m);
    }
  }

  // ---------------------------------------------------------------- whole runs

  ghost predicate IsServiceRun(run: seq<Service>, moves: seq<Move>) {
    && |run| == |moves| + 1 && run[0] == Start()
    && forall i | 0 <= i < |moves| :: Can(run[i], moves[i]) && run[i + 1] == Do(run[i], moves[i])
  }

  lemma {:induction false} ServiceRunInv(run: seq<Service>, moves: seq<Move>, i: nat)
    requires IsServiceRun(run, moves) && i < |run|
    ensures SInv(run[i])
  {
    if i > 0 {
      ServiceRunInv(run, moves, i - 1);
      MoveKept(run[i - 1], moves[i - 1]);
    }
  }

  /** MAIN: in every run each outstanding reference is with exactly one caller, release or session cache;
      a session is never made to forget one by caching another. */
  lemma NoReferenceIsLost(run: seq<Service>, moves: seq<Move>, i: nat)
    requires IsServiceRun(run, moves) && i < |run|
    ensures forall t :: IsHeld(run[i].reg, t) <==> Kept(run[i], t)
    ensures NoneShared(run[i])
    ensures i < |moves| && moves[i].KeepOwner? ==> run[i].workers[moves[i].worker].cached.None?
  {
    ServiceRunInv(run, moves, i);
    if i < |moves| && moves[i].KeepOwner? { assert StageOk(run[i], moves[i].worker); }
  }

  /** MAIN: when callers and sessions are done and no open or close is under way, no file is left open. */
  lemma QuietServiceHoldsNothing(run: seq<Service>, moves: seq<Move>, i: nat)
    requires IsServiceRun(run, moves) && i < |run|
    requires run[i].held == {} && run[i].dropped == {} && forall w | w in run[i].workers :: run[i].workers[w].cached.None?
    requires forall t | t in run[i].reg.at :: run[i].reg.at[t].Held?
    ensures run[i].reg.files == map[] && forall h | h in run[i].reg.handles :: !run[i].reg.handles[h].open
  {
    var s := run[i];
    ServiceRunInv(run, moves, i);
    forall t ensures t !in s.reg.at { assert !Kept(s, t); }
    assert s.reg.at == map[];
    QuietRegistry(s.reg);
  }

  // ---------------------------------------------------------------- nobody is stuck

  /** A worker with a borrow in view goes on: it declines, takes what its session caches for its file or asks the registry, unless a
      storage transition keeps it from a historical file; an answer is cached exactly when the file was historical when asked
      for, no transition is on and none has begun since, and is handed over otherwise. */
  lemma SessionsMove(s: Service, w: WorkerId, copy: Token)
    requires SInv(s) && w in s.workers && copy !in s.reg.at
    ensures match s.workers[w].stage
            case Resting => forall unwanted :: Can(s, Prepare(w, unwanted))
            case Prepared =>
              && Can(s, Decline(w))
              && (!s.transition || s.current == Some(s.workers[w].path) ==>
                    if HoldsFile(s, w, s.workers[w].path) then Can(s, TakeCached(w, copy)) else Can(s, AskRegistry(w)))
            case Borrowing(_, _) => Can(s, Failed(w))
            case Borrowed(version, keep, _) => if keep && !s.transition && version == s.version then Can(s, KeepOwner(w, copy)) else Can(s, Return(w))
  {
    match s.workers[w].stage {
      case Prepared => if !s.transition || s.current == Some(s.workers[w].path) { PreparedMoves(s, w, copy); }
      case Borrowed(_, _, _) => AnswerMoves(s, w, copy);
      case _ =>
    }
  }

  lemma PreparedMoves(s: Service, w: WorkerId, copy: Token)
    requires SInv(s) && w in s.workers && copy !in s.reg.at && s.workers[w].stage.Prepared?
    requires !s.transition || s.current == Some(s.workers[w].path)
    ensures if HoldsFile(s, w, s.workers[w].path) then Can(s, TakeCached(w, copy)) else Can(s, AskRegistry(w))
  {
  }

  lemma AnswerMoves(s: Service, w: WorkerId, copy: Token)
    requires SInv(s) && w in s.workers && copy !in s.reg.at && s.workers[w].stage.Borrowed?
    ensures var x := s.workers[w].stage;
            if x.keep && !s.transition && x.version == s.version then Can(s, KeepOwner(w, copy)) else Can(s, Return(w))
  {
    assert StageOk(s, w);
  }

  /** Asking the registry records whether the file is historical and the transition count of the moment. */
  lemma AskRemembers(s: Service, w: WorkerId)
    requires Can(s, AskRegistry(w))
    ensures Do(s, AskRegistry(w)).workers[w].stage == Borrowing(s.version, s.current != Some(s.workers[w].path) && !s.transition)
  {
  }
}
