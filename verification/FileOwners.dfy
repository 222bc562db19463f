/** The registry that shares one open handle per audit file between borrowers, as steps under its mutex
    interleaved with the slow opens and closes that happen outside it. */
module FileOwners {
  import opened Basics

  type Path = string
  type OwnerId = nat
  type HandleId = nat

  /** One reference: it is created by a borrow or a retain and ends with its release. */
  type Token = nat

  /** `pending` says that the owner's channel exists: its handle is being opened or closed. */
  datatype Owner = Owner(path: Path, refs: int, pending: bool, handle: Option<HandleId>)

  /** `owner` records who opened the handle; `closes` counts the calls to close it. */
  datatype Handle = Handle(path: Path, owner: OwnerId, open: bool, closes: nat)

  /** Where the goroutine that carries a reference is. */
  datatype Phase =
    | Opening(owner: OwnerId)               // registered the owner, calling OpenWriter
    | Opened(owner: OwnerId, handle: HandleId) // OpenWriter returned, result not yet published
    | Held(owner: OwnerId)                  // holds the borrow
    | Closing(owner: OwnerId)               // dropped the last reference, calling Close
    | Closed(owner: OwnerId)                // Close returned, owner not yet unregistered

  datatype State = State(
    files: map<Path, OwnerId>,
    owners: map<OwnerId, Owner>,
    handles: map<HandleId, Handle>,
    at: map<Token, Phase>)

  datatype Step =
    | BorrowShared(token: Token, path: Path)
    | BorrowFirst(token: Token, path: Path, owner: OwnerId)
    | OpenSucceeds(token: Token, handle: HandleId)
    | OpenFails(token: Token)
    | Publish(token: Token)
    | Retain(token: Token, copy: Token)
    | Release(token: Token)
    | Close(token: Token)
    | Unregister(token: Token)

  function Init(): State { State(map[], map[], map[], map[]) }

  predicate Enabled(s: State, step: Step) {
    match step
    case BorrowShared(t, p) => t !in s.at && p in s.files && s.files[p] in s.owners && !s.owners[s.files[p]].pending
    case BorrowFirst(t, p, o) => t !in s.at && p !in s.files && o !in s.owners
    case OpenSucceeds(t, h) => t in s.at && s.at[t].Opening? && s.at[t].owner in s.owners && h !in s.handles
    case OpenFails(t) => t in s.at && s.at[t].Opening? && s.at[t].owner in s.owners
    case Publish(t) => t in s.at && s.at[t].Opened? && s.at[t].owner in s.owners
    case Retain(t, c) => t in s.at && s.at[t].Held? && s.at[t].owner in s.owners && c !in s.at
    case Release(t) => t in s.at && s.at[t].Held? && s.at[t].owner in s.owners
    case Close(t) => t in s.at && s.at[t].Closing? && s.at[t].owner in s.owners
                          && s.owners[s.at[t].owner].handle.Some? && s.owners[s.at[t].owner].handle.value in s.handles
    case Unregister(t) => t in s.at && s.at[t].Closed? && s.at[t].owner in s.owners
                          && s.owners[s.at[t].owner].handle.Some? && s.owners[s.at[t].owner].handle.value in s.handles
  }

  function Apply(s: State, step: Step): State
    requires Enabled(s, step)
  {
    match step
    case BorrowShared(t, p) =>
      var o := s.files[p];
      s.(owners := s.owners[o := s.owners[o].(refs := s.owners[o].refs + 1)], at := s.at[t := Held(o)])
    case BorrowFirst(t, p, o) =>
      s.(files := s.files[p := o], owners := s.owners[o := Owner(p, 1, true, None)], at := s.at[t := Opening(o)])
    case OpenSucceeds(t, h) =>
      var o := s.at[t].owner;
      s.(handles := s.handles[h := Handle(s.owners[o].path, o, true, 0)], at := s.at[t := Opened(o, h)])
    case OpenFails(t) =>
      var o := s.at[t].owner;
      s.(files := s.files - {s.owners[o].path}, owners := s.owners[o := s.owners[o].(pending := false)], at := s.at - {t})
    case Publish(t) =>
      var o := s.at[t].owner;
      s.(owners := s.owners[o := s.owners[o].(handle := Some(s.at[t].handle), pending := false)], at := s.at[t := Held(o)])
    case Retain(t, c) =>
      var o := s.at[t].owner;
      s.(owners := s.owners[o := s.owners[o].(refs := s.owners[o].refs + 1)], at := s.at[c := Held(o)])
    case Release(t) =>
      var o := s.at[t].owner;
      var refs := s.owners[o].refs - 1;
      if refs != 0 then s.(owners := s.owners[o := s.owners[o].(refs := refs)], at := s.at - {t})
      else s.(owners := s.owners[o := s.owners[o].(refs := refs, pending := true)], at := s.at[t := Closing(o)])
    case Close(t) =>
      var o := s.at[t].owner;
      var h := s.owners[o].handle.value;
      s.(handles := s.handles[h := s.handles[h].(open := false, closes := s.handles[h].closes + 1)], at := s.at[t := Closed(o)])
    case Unregister(t) =>
      var o := s.at[t].owner;
      s.(files := s.files - {s.handles[s.owners[o].handle.value].path},
         owners := s.owners[o := s.owners[o].(pending := false)], at := s.at - {t})
  }

  // ---------------------------------------------------------------- invariant

  predicate Live(s: State, o: OwnerId) {
    o in s.owners && s.owners[o].path in s.files && s.files[s.owners[o].path] == o
  }

  predicate Counts(p: Phase, o: OwnerId) { p.owner == o && (p.Opening? || p.Opened? || p.Held?) }

  predicate Ends(p: Phase, o: OwnerId) { p.owner == o && (p.Closing? || p.Closed?) }

  /** The outstanding references to an owner. */
  function References(at: map<Token, Phase>, o: OwnerId): set<Token> { set t | t in at && Counts(at[t], o) }

  /** The owner's handle, with its path and state. */
  predicate Has(s: State, o: OwnerId, open: bool) {
    && o in s.owners && s.owners[o].handle.Some? && s.owners[o].handle.value in s.handles
    && s.handles[s.owners[o].handle.value].owner == o
    && s.handles[s.owners[o].handle.value].open == open
  }

  /** What holds of an owner while some goroutine is in the given phase with it. */
  predicate PhaseOk(s: State, p: Phase) {
    && Live(s, p.owner)
    && match p
       case Opening(o) => s.owners[o].pending && s.owners[o].refs == 1 && s.owners[o].handle.None?
       case Opened(o, h) => s.owners[o].pending && s.owners[o].refs == 1 && s.owners[o].handle.None?
                            && h in s.handles && s.handles[h].open && s.handles[h].owner == o
       case Held(o) => !s.owners[o].pending && Has(s, o, true)
       case Closing(o) => s.owners[o].pending && s.owners[o].refs == 0 && Has(s, o, true)
       case Closed(o) => s.owners[o].pending && s.owners[o].refs == 0 && Has(s, o, false)
  }

  ghost predicate TokensOk(s: State) { forall t | t in s.at :: PhaseOk(s, s.at[t]) }

  ghost predicate FilesOk(s: State) { forall p | p in s.files :: s.files[p] in s.owners && s.owners[s.files[p]].path == p }

  /** An owner's count is the number of outstanding references. */
  ghost predicate CountsOk(s: State) { forall o | Live(s, o) :: s.owners[o].refs == |References(s.at, o)| }

  /** At most one goroutine closes an owner. */
  ghost predicate EndsOk(s: State) {
    forall t, u, o {:trigger Ends(s.at[t], o), Ends(s.at[u], o)} | t in s.at && u in s.at && Ends(s.at[t], o) && Ends(s.at[u], o) :: t == u
  }

  /** A registered owner has a reference or is being closed. */
  ghost predicate BusyOk(s: State) {
    forall o | Live(s, o) :: s.owners[o].refs > 0 || exists t :: t in s.at && Ends(s.at[t], o)
  }

  /** A registered owner that is not pending has an open handle. */
  ghost predicate ReadyOk(s: State) { forall o | Live(s, o) && !s.owners[o].pending :: Has(s, o, true) }

  /** A handle is closed at most once, and an open one belongs to the owner registered for its path. */
  predicate HandleOk(s: State, h: HandleId)
    requires h in s.handles
  {
    var x := s.handles[h];
    && x.owner in s.owners && s.owners[x.owner].path == x.path
    && x.closes == (if x.open then 0 else 1)
    && (x.open ==> Live(s, x.owner) && (s.owners[x.owner].handle == Some(h) || exists t :: t in s.at && s.at[t] == Opened(x.owner, h)))
  }

  ghost predicate HandlesOk(s: State) { forall h | h in s.handles :: HandleOk(s, h) }

  ghost predicate Inv(s: State) {
    TokensOk(s) && FilesOk(s) && CountsOk(s) && EndsOk(s) && BusyOk(s) && ReadyOk(s) && HandlesOk(s)
  }

  // ---------------------------------------------------------------- every step keeps it

  /** No other goroutine is anywhere with this one's owner. */
  ghost predicate Alone(s: State, t: Token)
    requires t in s.at
  {
    forall u | u in s.at && u != t :: s.at[u].owner != s.at[t].owner
  }

  lemma SoleReference(s: State, t: Token)
    requires Inv(s) && t in s.at && Counts(s.at[t], s.at[t].owner) && s.owners[s.at[t].owner].refs == 1
    ensures Alone(s, t)
  {
    var o := s.at[t].owner;
    assert PhaseOk(s, s.at[t]);
    forall u | u in s.at && u != t ensures s.at[u].owner != o {
      if s.at[u].owner == o {
        assert PhaseOk(s, s.at[u]);
        assert {t, u} <= References(s.at, o);
        SubsetSize({t, u}, References(s.at, o));
      }
    }
  }

  lemma SoleCloser(s: State, t: Token)
    requires Inv(s) && t in s.at && Ends(s.at[t], s.at[t].owner)
    ensures Alone(s, t)
  {
    var o := s.at[t].owner;
    assert PhaseOk(s, s.at[t]);
    assert References(s.at, o) == {};
    assert forall u | u in s.at :: Counts(s.at[u], o) ==> u in References(s.at, o);
  }

  /** The goroutine that opens, publishes or closes, or drops the last reference, is alone with its owner. */
  ghost predicate Excluded(s: State, step: Step)
    requires Enabled(s, step)
  {
    match step
    case OpenSucceeds(t, _) => Alone(s, t)
    case OpenFails(t) => Alone(s, t)
    case Publish(t) => Alone(s, t)
    case Release(t) => s.owners[s.at[t].owner].refs == 1 ==> Alone(s, t)
    case Close(t) => Alone(s, t)
    case Unregister(t) => Alone(s, t)
    case _ => true
  }

  lemma ExcludedHolds(s: State, step: Step)
    requires Inv(s) && Enabled(s, step)
    ensures Excluded(s, step)
  {
    match step
    case BorrowShared(t, p) =>
    case BorrowFirst(t, p, o) =>
    case Retain(t, c) =>
    case OpenSucceeds(t, h) => assert PhaseOk(s, s.at[t]); SoleReference(s, t);
    case OpenFails(t) => assert PhaseOk(s, s.at[t]); SoleReference(s, t);
    case Publish(t) => assert PhaseOk(s, s.at[t]); SoleReference(s, t);
    case Release(t) => if s.owners[s.at[t].owner].refs == 1 { SoleReference(s, t); }
    case Close(t) => SoleCloser(s, t);
    case Unregister(t) => SoleCloser(s, t);
  }

  lemma FileKept(s: State, step: Step, p: Path)
    requires Inv(s) && Enabled(s, step) && p in Apply(s, step).files
    ensures var r := Apply(s, step); r.files[p] in r.owners && r.owners[r.files[p]].path == p
  {
  }

  lemma EndsKept(s: State, step: Step)
    requires Inv(s) && Enabled(s, step) && Excluded(s, step)
    ensures EndsOk(Apply(s, step))
  {
  }

  lemma TokenKeptBorrows(s: State, step: Step, u: Token)
    requires step.BorrowShared? || step.BorrowFirst? || step.Retain?
    requires TokensOk(s) && FilesOk(s) && ReadyOk(s) && HandlesOk(s)
    requires Enabled(s, step) && Excluded(s, step) && u in Apply(s, step).at
    ensures PhaseOk(Apply(s, step), Apply(s, step).at[u])
  {
    assert u in s.at ==> PhaseOk(s, s.at[u]);
  }

  lemma TokenKeptOpens(s: State, step: Step, u: Token)
    requires step.OpenSucceeds? || step.OpenFails? || step.Publish?
    requires TokensOk(s) && FilesOk(s) && ReadyOk(s) && HandlesOk(s)
    requires Enabled(s, step) && Excluded(s, step) && u in Apply(s, step).at
    ensures PhaseOk(Apply(s, step), Apply(s, step).at[u])
  {
    assert u in s.at ==> PhaseOk(s, s.at[u]);
    assert PhaseOk(s, s.at[step.token]);
  }

  lemma TokenKeptCloses(s: State, step: Step, u: Token)
    requires step.Release? || step.Close? || step.Unregister?
    requires TokensOk(s) && FilesOk(s) && ReadyOk(s) && HandlesOk(s)
    requires Enabled(s, step) && Excluded(s, step) && u in Apply(s, step).at
    ensures PhaseOk(Apply(s, step), Apply(s, step).at[u])
  {
    assert u in s.at ==> PhaseOk(s, s.at[u]);
    assert PhaseOk(s, s.at[step.token]);
  }

  lemma TokenKept(s: State, step: Step, u: Token)
    requires TokensOk(s) && FilesOk(s) && ReadyOk(s) && HandlesOk(s)
    requires Enabled(s, step) && Excluded(s, step) && u in Apply(s, step).at
    ensures PhaseOk(Apply(s, step), Apply(s, step).at[u])
  {
    if step.BorrowShared? || step.BorrowFirst? || step.Retain? { TokenKeptBorrows(s, step, u); }
    else if step.OpenSucceeds? || step.OpenFails? || step.Publish? { TokenKeptOpens(s, step, u); }
    else { TokenKeptCloses(s, step, u); }
  }

  lemma ReadyKept(s: State, step: Step, o: OwnerId)
    requires TokensOk(s) && FilesOk(s) && ReadyOk(s) && HandlesOk(s)
    requires Enabled(s, step) && Excluded(s, step)
    requires Live(Apply(s, step), o) && !Apply(s, step).owners[o].pending
    ensures Has(Apply(s, step), o, true)
  {
    assert step.token in s.at ==> PhaseOk(s, s.at[step.token]);
  }

  lemma HandleKeptBorrows(s: State, step: Step, h: HandleId)
    requires step.BorrowShared? || step.BorrowFirst? || step.Retain?
    requires TokensOk(s) && FilesOk(s) && HandlesOk(s)
    requires Enabled(s, step) && Excluded(s, step) && h in Apply(s, step).handles
    ensures HandleOk(Apply(s, step), h)
  {
    var r := Apply(s, step);
    assert step.token in s.at ==> PhaseOk(s, s.at[step.token]);
    assert HandleOk(s, h);
    if t :| t in s.at && s.at[t] == Opened(s.handles[h].owner, h) {
      assert PhaseOk(s, s.at[t]);
      assert t in r.at && r.at[t] == s.at[t];
    }
  }

  lemma HandleKeptOpens(s: State, step: Step, h: HandleId)
    requires step.OpenSucceeds? || step.OpenFails? || step.Publish?
    requires TokensOk(s) && FilesOk(s) && HandlesOk(s)
    requires Enabled(s, step) && Excluded(s, step) && h in Apply(s, step).handles
    ensures HandleOk(Apply(s, step), h)
  {
    var r := Apply(s, step);
    assert step.token in s.at ==> PhaseOk(s, s.at[step.token]);
    if h in s.handles {
      assert HandleOk(s, h);
      if t :| t in s.at && s.at[t] == Opened(s.handles[h].owner, h) {
        assert PhaseOk(s, s.at[t]);
        if step != Publish(t) { assert t in r.at && r.at[t] == s.at[t]; }
      }
    } else {
      assert r.at[step.token] == Opened(r.handles[h].owner, h);
    }
  }

  lemma HandleKeptCloses(s: State, step: Step, h: HandleId)
    requires step.Release? || step.Close? || step.Unregister?
    requires TokensOk(s) && FilesOk(s) && HandlesOk(s)
    requires Enabled(s, step) && Excluded(s, step) && h in Apply(s, step).handles
    ensures HandleOk(Apply(s, step), h)
  {
    var r := Apply(s, step);
    assert step.token in s.at ==> PhaseOk(s, s.at[step.token]);
    assert HandleOk(s, h);
    if t :| t in s.at && s.at[t] == Opened(s.handles[h].owner, h) {
      assert PhaseOk(s, s.at[t]);
      assert t in r.at && r.at[t] == s.at[t];
    }
  }

  lemma HandleKept(s: State, step: Step, h: HandleId)
    requires TokensOk(s) && FilesOk(s) && HandlesOk(s)
    requires Enabled(s, step) && Excluded(s, step) && h in Apply(s, step).handles
    ensures HandleOk(Apply(s, step), h)
  {
    if step.BorrowShared? || step.BorrowFirst? || step.Retain? { HandleKeptBorrows(s, step, h); }
    else if step.OpenSucceeds? || step.OpenFails? || step.Publish? { HandleKeptOpens(s, step, h); }
    else { HandleKeptCloses(s, step, h); }
  }

  lemma ReferencesUpdate(at: map<Token, Phase>, t: Token, p: Phase, o: OwnerId)
    ensures References(at[t := p], o) == References(at, o) - {t} + if Counts(p, o) then {t} else {}
    ensures References(at - {t}, o) == References(at, o) - {t}
  {
  }

  /** Putting a goroutine in a phase adds one reference, or none, and takes away the one it had. */
  lemma CountPut(s: State, o: OwnerId, t: Token, p: Phase)
    requires CountsOk(s) && Live(s, o)
    ensures |References(s.at[t := p], o)| ==
            s.owners[o].refs - (if t in s.at && Counts(s.at[t], o) then 1 else 0) + (if Counts(p, o) then 1 else 0)
  {
    ReferencesUpdate(s.at, t, p, o);
    assert t in References(s.at, o) <==> t in s.at && Counts(s.at[t], o);
  }

  lemma CountTake(s: State, o: OwnerId, t: Token)
    requires CountsOk(s) && Live(s, o)
    ensures |References(s.at - {t}, o)| == s.owners[o].refs - (if t in s.at && Counts(s.at[t], o) then 1 else 0)
  {
    ReferencesUpdate(s.at, t, Opening(o), o);
    assert t in References(s.at, o) <==> t in s.at && Counts(s.at[t], o);
  }

  lemma CountJoins(s: State, step: Step, o: OwnerId)
    requires step.BorrowShared? || step.Retain?
    requires TokensOk(s) && FilesOk(s) && CountsOk(s) && Enabled(s, step) && Live(Apply(s, step), o)
    ensures Apply(s, step).owners[o].refs == |References(Apply(s, step).at, o)|
  {
    if step.Retain? {
      CountPut(s, o, step.copy, Held(s.at[step.token].owner));
    } else {
      CountPut(s, o, step.token, Held(s.files[step.path]));
    }
  }

  lemma CountFirst(s: State, step: Step, o: OwnerId)
    requires step.BorrowFirst?
    requires TokensOk(s) && FilesOk(s) && CountsOk(s) && Enabled(s, step) && Live(Apply(s, step), o)
    ensures Apply(s, step).owners[o].refs == |References(Apply(s, step).at, o)|
  {
    ReferencesUpdate(s.at, step.token, Opening(step.owner), o);
    if step.owner == o { NoReferences(s, o); } else { assert Live(s, o); }
  }

  lemma CountMoves(s: State, step: Step, o: OwnerId)
    requires step.OpenSucceeds? || step.Publish? || step.Close?
    requires TokensOk(s) && FilesOk(s) && CountsOk(s) && Enabled(s, step) && Live(Apply(s, step), o)
    ensures Apply(s, step).owners[o].refs == |References(Apply(s, step).at, o)|
  {
    CountPut(s, o, step.token, Apply(s, step).at[step.token]);
  }

  lemma CountLeaves(s: State, step: Step, o: OwnerId)
    requires step.OpenFails? || step.Release? || step.Unregister?
    requires TokensOk(s) && FilesOk(s) && CountsOk(s) && Enabled(s, step) && Live(Apply(s, step), o)
    ensures Apply(s, step).owners[o].refs == |References(Apply(s, step).at, o)|
  {
    var t := step.token;
    assert PhaseOk(s, s.at[t]);
    if step.Release? { CountPut(s, o, t, Closing(s.at[t].owner)); }
    CountTake(s, o, t);
  }

  lemma CountKept(s: State, step: Step, o: OwnerId)
    requires TokensOk(s) && FilesOk(s) && CountsOk(s) && Enabled(s, step) && Live(Apply(s, step), o)
    ensures Apply(s, step).owners[o].refs == |References(Apply(s, step).at, o)|
  {
    match step
    case BorrowShared(_, _) => CountJoins(s, step, o);
    case Retain(_, _) => CountJoins(s, step, o);
    case BorrowFirst(_, _, _) => CountFirst(s, step, o);
    case OpenSucceeds(_, _) => CountMoves(s, step, o);
    case Publish(_) => CountMoves(s, step, o);
    case Close(_) => CountMoves(s, step, o);
    case OpenFails(_) => CountLeaves(s, step, o);
    case Release(_) => CountLeaves(s, step, o);
    case Unregister(_) => CountLeaves(s, step, o);
  }

  lemma NoReferences(s: State, o: OwnerId)
    requires TokensOk(s) && o !in s.owners
    ensures References(s.at, o) == {}
  {
    forall t | t in s.at ensures s.at[t].owner != o { assert PhaseOk(s, s.at[t]); }
  }

  /** Other goroutines keep closing what they were closing. */
  lemma OthersStay(s: State, step: Step, u: Token)
    requires Enabled(s, step) && u in s.at && u != step.token
    ensures u in Apply(s, step).at && Apply(s, step).at[u] == s.at[u]
  {
  }

  lemma BusyFresh(s: State, step: Step, o: OwnerId)
    requires TokensOk(s) && CountsOk(s) && Enabled(s, step) && Live(s, o) && s.owners[o].refs > 0
    ensures Apply(s, step).owners[o].refs > 0 || exists t :: t in Apply(s, step).at && Ends(Apply(s, step).at[t], o)
  {
    var r, t := Apply(s, step), step.token;
    if step.Release? && s.at[t].owner == o && s.owners[o].refs == 1 { assert Ends(r.at[t], o); }
  }

  lemma BusyKept(s: State, step: Step, o: OwnerId)
    requires TokensOk(s) && FilesOk(s) && CountsOk(s) && BusyOk(s) && HandlesOk(s) && Enabled(s, step) && Live(Apply(s, step), o)
    ensures Apply(s, step).owners[o].refs > 0 || exists t :: t in Apply(s, step).at && Ends(Apply(s, step).at[t], o)
  {
    if Live(s, o) {
      if s.owners[o].refs > 0 {
        BusyFresh(s, step, o);
      } else {
        var u :| u in s.at && Ends(s.at[u], o);
        if u == step.token { EndStays(s, step, o); } else { OthersStay(s, step, u); }
      }
    }
  }

  lemma EndStays(s: State, step: Step, o: OwnerId)
    requires TokensOk(s) && HandlesOk(s) && Enabled(s, step) && Live(Apply(s, step), o) && step.token in s.at && Ends(s.at[step.token], o)
    ensures step.token in Apply(s, step).at && Ends(Apply(s, step).at[step.token], o)
  {
    assert PhaseOk(s, s.at[step.token]);
  }

  lemma InvKept(s: State, step: Step)
    requires Inv(s) && Enabled(s, step)
    ensures Inv(Apply(s, step))
  {
    ExcludedHolds(s, step);
    var r := Apply(s, step);
    EndsKept(s, step);
    forall t | t in r.at ensures PhaseOk(r, r.at[t]) { TokenKept(s, step, t); }
    forall p | p in r.files ensures r.files[p] in r.owners && r.owners[r.files[p]].path == p { FileKept(s, step, p); }
    forall o | Live(r, o) ensures r.owners[o].refs == |References(r.at, o)| { CountKept(s, step, o); }
    forall o | Live(r, o) ensures r.owners[o].refs > 0 || exists t :: t in r.at && Ends(r.at[t], o) { BusyKept(s, step, o); }
    forall o | Live(r, o) && !r.owners[o].pending ensures Has(r, o, true) { ReadyKept(s, step, o); }
    forall h | h in r.handles ensures HandleOk(r, h) { HandleKept(s, step, h); }
  }

  // ---------------------------------------------------------------- whole runs

  ghost predicate IsRun(run: seq<State>, steps: seq<Step>) {
    && |run| == |steps| + 1 && run[0] == Init()
    && forall i | 0 <= i < |steps| :: Enabled(run[i], steps[i]) && run[i + 1] == Apply(run[i], steps[i])
  }

  lemma {:induction false} RunInv(run: seq<State>, steps: seq<Step>, i: nat)
    requires IsRun(run, steps) && i < |run|
    ensures Inv(run[i])
  {
    if i > 0 {
      RunInv(run, steps, i - 1);
      InvKept(run[i - 1], steps[i - 1]);
    }
  }

  /** MAIN: no file ever has two open handles. */
  lemma OneHandlePerFile(run: seq<State>, steps: seq<Step>, i: nat, h: HandleId, k: HandleId)
    requires IsRun(run, steps) && i < |run| && h in run[i].handles && k in run[i].handles
    requires run[i].handles[h].open && run[i].handles[k].open && run[i].handles[h].path == run[i].handles[k].path
    ensures h == k
  {
    var s := run[i];
    RunInv(run, steps, i);
    assert HandleOk(s, h) && HandleOk(s, k);
    var o := s.handles[h].owner;
    assert s.handles[k].owner == o;
    if t :| t in s.at && s.at[t] == Opened(o, h) {
      assert PhaseOk(s, s.at[t]);
      SoleReference(s, t);
    } else if t :| t in s.at && s.at[t] == Opened(o, k) {
      assert PhaseOk(s, s.at[t]);
      SoleReference(s, t);
    }
  }

  /** MAIN: whoever holds a borrow shares the one open handle of its file, and the count is the number of borrows. */
  lemma BorrowedIsOpen(run: seq<State>, steps: seq<Step>, i: nat, t: Token)
    requires IsRun(run, steps) && i < |run| && t in run[i].at && run[i].at[t].Held?
    ensures var s := run[i];
            var o := s.at[t].owner;
            && Live(s, o) && !s.owners[o].pending && Has(s, o, true)
            && s.handles[s.owners[o].handle.value].path == s.owners[o].path
            && s.owners[o].refs == |References(s.at, o)|
            && forall u | u in s.at && s.at[u].owner == o :: s.at[u].Held?
  {
    var s := run[i];
    RunInv(run, steps, i);
    assert PhaseOk(s, s.at[t]);
    assert HandleOk(s, s.owners[s.at[t].owner].handle.value);
    forall u | u in s.at && s.at[u].owner == s.at[t].owner ensures s.at[u].Held? { assert PhaseOk(s, s.at[u]); }
  }

  /** MAIN: a handle is never closed twice, and once every reference has ended, nothing stays registered or open. */
  lemma ClosedExactlyOnce(run: seq<State>, steps: seq<Step>, i: nat)
    requires IsRun(run, steps) && i < |run|
    ensures forall h | h in run[i].handles :: run[i].handles[h].closes == if run[i].handles[h].open then 0 else 1
    ensures run[i].at == map[] ==> run[i].files == map[] && forall h | h in run[i].handles :: !run[i].handles[h].open
  {
    RunInv(run, steps, i);
    forall h | h in run[i].handles ensures HandleOk(run[i], h) {}
    if run[i].at == map[] { QuietRegistry(run[i]); }
  }

  lemma QuietRegistry(s: State)
    requires Inv(s) && s.at == map[]
    ensures s.files == map[] && forall h | h in s.handles :: !s.handles[h].open
  {
    forall o ensures !Live(s, o) { assert References(s.at, o) == {}; }
    forall p ensures p !in s.files { assert p in s.files ==> Live(s, s.files[p]); }
    forall h | h in s.handles ensures !s.handles[h].open { assert HandleOk(s, h); }
  }

  /** Only the release of the last reference starts a close. */
  lemma ClosesOnLastRelease(s: State, step: Step, o: OwnerId)
    requires Inv(s) && Enabled(s, step) && Live(s, o)
    requires !(exists t :: t in s.at && Ends(s.at[t], o))
    ensures (exists t :: t in Apply(s, step).at && Ends(Apply(s, step).at[t], o)) <==>
            step.Release? && s.at[step.token].owner == o && References(s.at, o) == {step.token}
  {
    if step.Release? && s.at[step.token].owner == o && References(s.at, o) == {step.token} {
      assert Ends(Apply(s, step).at[step.token], o);
    }
    if t :| t in Apply(s, step).at && Ends(Apply(s, step).at[t], o) { CloseStarts(s, step, o, t); }
  }

  lemma CloseStarts(s: State, step: Step, o: OwnerId, t: Token)
    requires Inv(s) && Enabled(s, step) && Live(s, o) && t in Apply(s, step).at && Ends(Apply(s, step).at[t], o)
    requires !(exists u :: u in s.at && Ends(s.at[u], o))
    ensures step == Release(t) && s.at[t].owner == o && References(s.at, o) == {t}
  {
    EndsBegin(s, step, t, o);
    OnlyReference(s, t, o);
  }

  /** A goroutine closing an owner was closing it before, or has just dropped its last reference. */
  lemma EndsBegin(s: State, step: Step, t: Token, o: OwnerId)
    requires Enabled(s, step) && t in Apply(s, step).at && Ends(Apply(s, step).at[t], o)
    ensures t in s.at
    ensures Ends(s.at[t], o) || (step == Release(t) && s.at[t] == Held(o) && s.owners[o].refs == 1)
  {
  }

  lemma OnlyReference(s: State, t: Token, o: OwnerId)
    requires CountsOk(s) && Live(s, o) && t in s.at && s.owners[o].refs == 1 && Counts(s.at[t], o)
    ensures References(s.at, o) == {t}
  {
    var refs := References(s.at, o);
    assert t in refs && |refs - {t}| == 0;
  }

  // ---------------------------------------------------------------- nobody is stuck

  /** Whoever has begun something can go on: an open ends one way or the other, a finished open is published, a borrow can be
      shared and given back, and a close runs to its end. */
  lemma EveryoneMoves(s: State, t: Token, fresh': Token, h: HandleId)
    requires Inv(s) && t in s.at && fresh' !in s.at && h !in s.handles
    ensures match s.at[t]
            case Opening(_) => Enabled(s, OpenSucceeds(t, h)) && Enabled(s, OpenFails(t))
            case Opened(_, _) => Enabled(s, Publish(t))
            case Held(_) => Enabled(s, Release(t)) && Enabled(s, Retain(t, fresh'))
            case Closing(_) => Enabled(s, Close(t))
            case Closed(_) => Enabled(s, Unregister(t))
  {
    assert PhaseOk(s, s.at[t]);
  }

  /** A borrow begins at once: it opens a file nobody has, or shares an open one; only while the file is being opened or closed it
      waits for whoever does that. */
  lemma BorrowersMove(s: State, t: Token, p: Path, o: OwnerId)
    requires Inv(s) && t !in s.at && o !in s.owners
    ensures p !in s.files ==> Enabled(s, BorrowFirst(t, p, o))
    ensures p in s.files ==> s.files[p] in s.owners
    ensures p in s.files && !s.owners[s.files[p]].pending ==>
              Enabled(s, BorrowShared(t, p)) && Apply(s, BorrowShared(t, p)).at == s.at[t := Held(s.files[p])]
    ensures p in s.files && s.owners[s.files[p]].pending ==> exists u :: u in s.at && s.at[u].owner == s.files[p] && !s.at[u].Held?
  {
    if p in s.files {
      var w := s.files[p];
      assert Live(s, w);
      if s.owners[w].pending {
        if s.owners[w].refs > 0 {
          var refs := References(s.at, w);
          assert |refs| > 0;
          var u :| u in refs;
          assert PhaseOk(s, s.at[u]);
        }
      }
    }
  }
}
