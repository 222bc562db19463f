/** The audit deduplication cache as a simple timestamped LRU, and what its answers mean. */
module DedupSpec {
  import opened Basics

  datatype Entry = Entry(fingerprint: string, expires: int)

  /** Held fingerprints, least recently used first. */
  type Table = seq<Entry>

  predicate Fresh(e: Entry, now: int) { now <= e.expires }

  function Live(m: Table, now: int): Table {
    if m == [] then [] else (if Fresh(m[0], now) then [m[0]] else []) + Live(m[1..], now)
  }

  predicate Has(m: Table, f: string) { exists i :: 0 <= i < |m| && m[i].fingerprint == f }

  function Without(m: Table, f: string): Table {
    if m == [] then [] else if m[0].fingerprint == f then m[1..] else [m[0]] + Without(m[1..], f)
  }

  function Lookup(m: Table, f: string): Table
  {
    if m == [] then [] else if m[0].fingerprint == f then [m[0]] else Lookup(m[1..], f)
  }

  /** Asking drops what expired and makes a hit the most recently used. */
  function Ask(m: Table, f: string, now: int): Table {
    var live := Live(m, now);
    Without(live, f) + Lookup(live, f)
  }

  function Trim(m: Table, capacity: nat): Table { if |m| > capacity then m[1..] else m }

  /** Remembering restarts the time to live, makes the fingerprint the most recent and, beyond capacity, drops the least recent. */
  function Remember(m: Table, f: string, now: int, ttl: int, capacity: nat): Table {
    Trim(Without(Live(m, now), f) + [Entry(f, now + ttl)], capacity)
  }

  datatype Op = Seen(fingerprint: string, now: int) | Remembered(fingerprint: string, now: int)

  type History = seq<Op>

  ghost predicate Until(h: History, now: int) { forall i | 0 <= i < |h| :: h[i].now <= now }

  function Step(m: Table, op: Op, ttl: int, capacity: nat): Table {
    match op
    case Seen(f, now) => Ask(m, f, now)
    case Remembered(f, now) => Remember(m, f, now, ttl, capacity)
  }

  function Run(h: History, ttl: int, capacity: nat): Table {
    if h == [] then [] else Step(Run(h[..|h| - 1], ttl, capacity), h[|h| - 1], ttl, capacity)
  }

  // ---------------------------------------------------------------- the table as a map

  ghost predicate Unique(m: Table) { forall i, j | 0 <= i < j < |m| :: m[i].fingerprint != m[j].fingerprint }

  lemma {:induction false} LiveMembers(m: Table, now: int, e: Entry)
    ensures e in Live(m, now) <==> e in m && Fresh(e, now)
  {
    if m != [] { LiveMembers(m[1..], now, e); }
  }

  lemma {:induction false} LiveUnique(m: Table, now: int)
    requires Unique(m)
    ensures Unique(Live(m, now))
  {
    if m != [] {
      LiveUnique(m[1..], now);
      forall e | e in Live(m[1..], now) ensures e.fingerprint != m[0].fingerprint { LiveMembers(m[1..], now, e); }
    }
  }

  lemma {:induction false} WithoutMembers(m: Table, f: string, e: Entry)
    requires Unique(m)
    ensures e in Without(m, f) <==> e in m && e.fingerprint != f
  {
    if m != [] && m[0].fingerprint != f { WithoutMembers(m[1..], f, e); }
  }

  lemma {:induction false} WithoutUnique(m: Table, f: string)
    requires Unique(m)
    ensures Unique(Without(m, f))
  {
    if m != [] && m[0].fingerprint != f {
      WithoutUnique(m[1..], f);
      forall e | e in Without(m[1..], f) ensures e.fingerprint != m[0].fingerprint { WithoutMembers(m[1..], f, e); }
    }
  }

  lemma {:induction false} LookupMembers(m: Table, f: string, e: Entry)
    requires Unique(m)
    ensures (e in Lookup(m, f) <==> e in m && e.fingerprint == f) && |Lookup(m, f)| <= 1
  {
    if m != [] { LookupMembers(m[1..], f, e); }
  }

  lemma AppendUnique(m: Table, e: Entry)
    requires Unique(m) && !Has(m, e.fingerprint)
    ensures Unique(m + [e])
  {
  }

  lemma AskMembers(m: Table, f: string, now: int, e: Entry)
    requires Unique(m)
    ensures e in Ask(m, f, now) <==> e in m && Fresh(e, now)
  {
    var live := Live(m, now);
    LiveUnique(m, now);
    LiveMembers(m, now, e);
    WithoutMembers(live, f, e);
    LookupMembers(live, f, e);
  }

  lemma HasNotWithout(m: Table, f: string)
    requires Unique(m)
    ensures !Has(Without(m, f), f)
  {
    forall e | e in Without(m, f) ensures e.fingerprint != f { WithoutMembers(m, f, e); }
  }

  lemma AskUnique(m: Table, f: string, now: int)
    requires Unique(m)
    ensures Unique(Ask(m, f, now))
  {
    var live := Live(m, now);
    LiveUnique(m, now);
    WithoutUnique(live, f);
    HasNotWithout(live, f);
    var found := Lookup(live, f);
    if found == [] {
      assert Without(live, f) + found == Without(live, f);
    } else {
      LookupMembers(live, f, found[0]);
      assert found == [found[0]];
      AppendUnique(Without(live, f), found[0]);
    }
  }

  lemma RememberUnique(m: Table, f: string, now: int, ttl: int, capacity: nat)
    requires Unique(m)
    ensures Unique(Remember(m, f, now, ttl, capacity))
  {
    var live := Live(m, now);
    LiveUnique(m, now);
    WithoutUnique(live, f);
    HasNotWithout(live, f);
    AppendUnique(Without(live, f), Entry(f, now + ttl));
  }

  lemma {:induction false} RunUnique(h: History, ttl: int, capacity: nat)
    ensures Unique(Run(h, ttl, capacity))
  {
    if h != [] {
      var m, op := Run(h[..|h| - 1], ttl, capacity), h[|h| - 1];
      RunUnique(h[..|h| - 1], ttl, capacity);
      if op.Seen? { AskUnique(m, op.fingerprint, op.now); } else { RememberUnique(m, op.fingerprint, op.now, ttl, capacity); }
    }
  }

  // ---------------------------------------------------------------- what an answer means

  /** When the fingerprint was last remembered. */
  function LastRemembered(h: History, f: string): Option<int> {
    if h == [] then None
    else var op := h[|h| - 1];
      if op.Remembered? && op.fingerprint == f then Some(op.now) else LastRemembered(h[..|h| - 1], f)
  }

  /** Capacity drops `f` when another fingerprint is remembered while `f` is still within its time to live. */
  predicate Evicts(m: Table, op: Op, f: string, ttl: int, capacity: nat) {
    op.Remembered? && op.fingerprint != f && Has(Live(m, op.now), f) && !Has(Step(m, op, ttl, capacity), f)
  }

  /** Capacity has dropped `f` since it was last remembered. */
  predicate Evicted(h: History, f: string, ttl: int, capacity: nat) {
    if h == [] then false
    else
      var p, op := h[..|h| - 1], h[|h| - 1];
      if op.Remembered? && op.fingerprint == f then false
      else Evicted(p, f, ttl, capacity) || Evicts(Run(p, ttl, capacity), op, f, ttl, capacity)
  }

  /** Last remembered within the time to live, and not dropped by capacity since. */
  predicate Duplicate(h: History, f: string, now: int, ttl: int, capacity: nat) {
    LastRemembered(h, f).Some? && now <= LastRemembered(h, f).value + ttl && !Evicted(h, f, ttl, capacity)
  }

  /** Whether asking at `now` finds `f`. */
  predicate Answer(m: Table, f: string, now: int) { Has(Live(m, now), f) }

  /** What the table should hold for `f` after `h`, in terms of the history alone. */
  ghost predicate Explained(m: Table, h: History, f: string, ttl: int, capacity: nat) {
    && (forall e | e in m && e.fingerprint == f ::
          LastRemembered(h, f).Some? && e.expires == LastRemembered(h, f).value + ttl && !Evicted(h, f, ttl, capacity))
    && (LastRemembered(h, f).Some? && !Evicted(h, f, ttl, capacity) && !Has(m, f) ==>
          exists i :: 0 <= i < |h| && LastRemembered(h, f).value + ttl < h[i].now)
  }

  lemma HasMember(m: Table, f: string)
    ensures Has(m, f) <==> exists e :: e in m && e.fingerprint == f
  {
    if e :| e in m && e.fingerprint == f {
      var i :| 0 <= i < |m| && m[i] == e;
    }
  }

  /** A step on another fingerprint, or a question, only removes entries of `f`. */
  lemma StepKeepsEntries(m: Table, op: Op, f: string, ttl: int, capacity: nat, e: Entry)
    requires Unique(m) && (op.Seen? || op.fingerprint != f)
    requires e.fingerprint == f && e in Step(m, op, ttl, capacity)
    ensures e in m && Fresh(e, op.now)
  {
    if op.Seen? {
      AskMembers(m, op.fingerprint, op.now, e);
    } else {
      var live := Live(m, op.now);
      LiveUnique(m, op.now);
      assert e in Without(live, op.fingerprint);
      WithoutMembers(live, op.fingerprint, e);
      LiveMembers(m, op.now, e);
    }
  }

  /** An entry that such a step removes had expired or was evicted. */
  lemma StepLoses(m: Table, op: Op, f: string, ttl: int, capacity: nat, e: Entry)
    requires Unique(m) && (op.Seen? || op.fingerprint != f)
    requires e.fingerprint == f && e in m && !Has(Step(m, op, ttl, capacity), f)
    ensures !Fresh(e, op.now) || Evicts(m, op, f, ttl, capacity)
  {
    if Fresh(e, op.now) {
      LiveMembers(m, op.now, e);
      HasMember(Live(m, op.now), f);
      if op.Seen? {
        AskMembers(m, op.fingerprint, op.now, e);
        HasMember(Step(m, op, ttl, capacity), f);
      }
    }
  }

  /** What is remembered is in the table, once, with its new expiry. */
  lemma RememberHolds(m: Table, f: string, now: int, ttl: int, capacity: nat, e: Entry)
    requires Unique(m) && capacity > 0 && e.fingerprint == f
    ensures e in Remember(m, f, now, ttl, capacity) <==> e.expires == now + ttl
  {
    var live := Live(m, now);
    LiveUnique(m, now);
    var all := Without(live, f) + [Entry(f, now + ttl)];
    var r := Remember(m, f, now, ttl, capacity);
    WithoutMembers(live, f, e);
    assert r[|r| - 1] == all[|all| - 1] == Entry(f, now + ttl);
    assert forall x | x in r :: x in all;
  }

  lemma ExplainedRemember(h: History, f: string, ttl: int, capacity: nat)
    requires h != [] && capacity > 0 && h[|h| - 1] == Remembered(f, h[|h| - 1].now)
    ensures Explained(Run(h, ttl, capacity), h, f, ttl, capacity)
  {
    var p, op := h[..|h| - 1], h[|h| - 1];
    var m, r := Run(p, ttl, capacity), Run(h, ttl, capacity);
    RunUnique(p, ttl, capacity);
    forall e | e in r && e.fingerprint == f ensures e.expires == op.now + ttl { RememberHolds(m, f, op.now, ttl, capacity, e); }
    RememberHolds(m, f, op.now, ttl, capacity, Entry(f, op.now + ttl));
    assert Entry(f, op.now + ttl) in r;
    HasMember(r, f);
  }

  lemma ExplainedOther(h: History, f: string, ttl: int, capacity: nat)
    requires h != [] && (h[|h| - 1].Seen? || h[|h| - 1].fingerprint != f)
    requires Explained(Run(h[..|h| - 1], ttl, capacity), h[..|h| - 1], f, ttl, capacity)
    ensures Explained(Run(h, ttl, capacity), h, f, ttl, capacity)
  {
    var p, op := h[..|h| - 1], h[|h| - 1];
    var m, r := Run(p, ttl, capacity), Run(h, ttl, capacity);
    RunUnique(p, ttl, capacity);
    forall e | e in r && e.fingerprint == f
      ensures e in m && Has(r, f)
    {
      StepKeepsEntries(m, op, f, ttl, capacity, e);
      HasMember(r, f);
    }
    if LastRemembered(h, f).Some? && !Evicted(h, f, ttl, capacity) && !Has(r, f) {
      if Has(m, f) {
        HasMember(m, f);
        var e :| e in m && e.fingerprint == f;
        StepLoses(m, op, f, ttl, capacity, e);
        assert h[|h| - 1] == op;
      } else {
        var i :| 0 <= i < |p| && LastRemembered(p, f).value + ttl < p[i].now;
        assert h[i] == p[i];
      }
    }
  }

  lemma {:induction false} RunExplained(h: History, f: string, ttl: int, capacity: nat)
    requires capacity > 0
    ensures Explained(Run(h, ttl, capacity), h, f, ttl, capacity)
  {
    if h != [] {
      if h[|h| - 1].Remembered? && h[|h| - 1].fingerprint == f {
        ExplainedRemember(h, f, ttl, capacity);
      } else {
        RunExplained(h[..|h| - 1], f, ttl, capacity);
        ExplainedOther(h, f, ttl, capacity);
      }
    }
  }

  /** MAIN: a fingerprint is found exactly when it was last remembered within the time to live and capacity
      has not dropped it since. */
  lemma SeenExactly(h: History, f: string, now: int, ttl: int, capacity: nat)
    requires capacity > 0 && Until(h, now)
    ensures Answer(Run(h, ttl, capacity), f, now) <==> Duplicate(h, f, now, ttl, capacity)
  {
    var m := Run(h, ttl, capacity);
    RunExplained(h, f, ttl, capacity);
    HasMember(m, f);
    HasMember(Live(m, now), f);
    forall e ensures e in Live(m, now) <==> e in m && Fresh(e, now) { LiveMembers(m, now, e); }
  }

  // ---------------------------------------------------------------- eviction needs a full cache of newer uses

  /** The other fingerprints asked about or remembered since `f` was last remembered. */
  function Since(h: History, f: string): set<string> {
    if h == [] then {}
    else
      var op := h[|h| - 1];
      if op.fingerprint == f then (if op.Remembered? then {} else Since(h[..|h| - 1], f))
      else Since(h[..|h| - 1], f) + {op.fingerprint}
  }

  /** The entries used more recently than `f`. */
  function After(m: Table, f: string): Table {
    if m == [] then [] else if m[0].fingerprint == f then m[1..] else After(m[1..], f)
  }

  ghost predicate NewerIn(m: Table, f: string, s: set<string>) { forall e | e in After(m, f) :: e.fingerprint in s }

  lemma {:induction false} AfterLive(m: Table, f: string, now: int, s: set<string>)
    requires Unique(m) && NewerIn(m, f, s)
    ensures NewerIn(Live(m, now), f, s)
  {
    if m != [] {
      if m[0].fingerprint == f {
        forall e | e in After(Live(m, now), f) ensures e.fingerprint in s {
          LiveMembers(m[1..], now, e);
          if Fresh(m[0], now) {
            assert Live(m, now)[1..] == Live(m[1..], now);
          } else {
            assert Live(m, now) == Live(m[1..], now);
            AfterMembers(Live(m[1..], now), f, e);
          }
        }
      } else {
        AfterLive(m[1..], f, now, s);
        assert ([m[0]] + Live(m[1..], now))[1..] == Live(m[1..], now);
        assert [] + Live(m[1..], now) == Live(m[1..], now);
      }
    }
  }

  lemma {:induction false} AfterMembers(m: Table, f: string, e: Entry)
    requires e in After(m, f)
    ensures e in m
  {
    if m != [] && m[0].fingerprint != f { AfterMembers(m[1..], f, e); }
  }

  lemma {:induction false} AfterWithout(m: Table, f: string, g: string, s: set<string>)
    requires Unique(m) && NewerIn(m, f, s)
    ensures NewerIn(Without(m, g), f, s)
  {
    if m != [] {
      if m[0].fingerprint == g {
        forall e | e in After(m[1..], f) ensures e.fingerprint in s {
          if g == f { AfterMembers(m[1..], f, e); }
        }
      } else if m[0].fingerprint == f {
        assert ([m[0]] + Without(m[1..], g))[1..] == Without(m[1..], g);
        forall e | e in Without(m[1..], g) ensures e.fingerprint in s { WithoutMembers(m[1..], g, e); }
      } else {
        AfterWithout(m[1..], f, g, s);
        assert ([m[0]] + Without(m[1..], g))[1..] == Without(m[1..], g);
      }
    }
  }

  lemma {:induction false} AfterAppend(m: Table, f: string, x: Entry, s: set<string>)
    requires NewerIn(m, f, s) && (x.fingerprint in s || (x.fingerprint == f && !Has(m, f)))
    ensures NewerIn(m + [x], f, s)
  {
    if m == [] {
      assert m + [x] == [x] && [x][1..] == [] && After([], f) == [];
    } else {
      assert (m + [x])[1..] == m[1..] + [x];
      if m[0].fingerprint != f {
        assert Has(m[1..], f) ==> Has(m, f) by {
          if i :| 0 <= i < |m[1..]| && m[1..][i].fingerprint == f { assert m[i + 1].fingerprint == f; }
        }
        AfterAppend(m[1..], f, x, s);
      }
    }
  }

  lemma {:induction false} RunNewer(h: History, f: string, ttl: int, capacity: nat)
    ensures NewerIn(Run(h, ttl, capacity), f, Since(h, f))
  {
    if h != [] {
      var p, op := h[..|h| - 1], h[|h| - 1];
      var m, g := Run(p, ttl, capacity), op.fingerprint;
      RunNewer(p, f, ttl, capacity);
      RunUnique(p, ttl, capacity);
      if op.Seen? { NewerAsk(m, f, g, op.now, Since(p, f), Since(h, f)); }
      else { NewerRemember(m, f, g, op.now, ttl, capacity, Since(p, f), Since(h, f)); }
    }
  }

  lemma NewerAsk(m: Table, f: string, g: string, now: int, s: set<string>, t: set<string>)
    requires Unique(m) && NewerIn(m, f, s) && s <= t && (g == f || g in t)
    ensures NewerIn(Ask(m, g, now), f, t)
  {
    var live := Live(m, now);
    AfterLive(m, f, now, t);
    LiveUnique(m, now);
    AfterWithout(live, f, g, t);
    HasNotWithout(live, g);
    var found := Lookup(live, g);
    if found == [] {
      assert Without(live, g) + found == Without(live, g);
    } else {
      LookupMembers(live, g, found[0]);
      assert found == [found[0]];
      AfterAppend(Without(live, g), f, found[0], t);
    }
  }

  /** The table before trimming. */
  function Untrimmed(m: Table, g: string, now: int, ttl: int): Table { Without(Live(m, now), g) + [Entry(g, now + ttl)] }

  lemma NewerUntrimmed(m: Table, f: string, g: string, now: int, ttl: int, s: set<string>)
    requires Unique(m) && NewerIn(m, f, s) && g != f
    ensures NewerIn(Untrimmed(m, g, now, ttl), f, s + {g}) && Unique(Untrimmed(m, g, now, ttl))
  {
    var live, t := Live(m, now), s + {g};
    AfterLive(m, f, now, t);
    LiveUnique(m, now);
    AfterWithout(live, f, g, t);
    HasNotWithout(live, g);
    WithoutUnique(live, g);
    AfterAppend(Without(live, g), f, Entry(g, now + ttl), t);
    AppendUnique(Without(live, g), Entry(g, now + ttl));
  }

  lemma NewerRemember(m: Table, f: string, g: string, now: int, ttl: int, capacity: nat, s: set<string>, t: set<string>)
    requires Unique(m) && NewerIn(m, f, s) && t == if g == f then {} else s + {g}
    ensures NewerIn(Remember(m, g, now, ttl, capacity), f, t)
  {
    if g == f {
      var rest := Without(Live(m, now), f);
      LiveUnique(m, now);
      HasNotWithout(Live(m, now), f);
      AfterNone(rest, f);
      AfterAppend(rest, f, Entry(f, now + ttl), {});
      NewerTrimmed(rest + [Entry(f, now + ttl)], f, capacity, {});
    } else {
      NewerUntrimmed(m, f, g, now, ttl, s);
      NewerTrimmed(Untrimmed(m, g, now, ttl), f, capacity, t);
    }
  }

  lemma {:induction false} AfterNone(m: Table, f: string)
    requires !Has(m, f)
    ensures After(m, f) == []
  {
    if m != [] {
      assert m[0].fingerprint != f;
      forall i | 0 <= i < |m| - 1 ensures m[1..][i].fingerprint != f { assert m[i + 1].fingerprint != f; }
      AfterNone(m[1..], f);
    }
  }

  lemma NewerTrimmed(m: Table, f: string, capacity: nat, s: set<string>)
    requires NewerIn(m, f, s)
    ensures NewerIn(Trim(m, capacity), f, s)
  {
    if |m| > capacity && m[0].fingerprint == f {
      forall e | e in After(m[1..], f) ensures e.fingerprint in s { AfterMembers(m[1..], f, e); }
    }
  }

  lemma {:induction false} Counted(m: Table, s: set<string>)
    requires Unique(m) && forall e | e in m :: e.fingerprint in s
    ensures |m| <= |s|
  {
    if m != [] {
      assert m[0].fingerprint in s;
      forall e | e in m[1..] ensures e.fingerprint in s - {m[0].fingerprint} {
        var i :| 0 <= i < |m| - 1 && m[1..][i] == e;
        assert m[i + 1] == e;
      }
      Counted(m[1..], s - {m[0].fingerprint});
    }
  }

  lemma EvictsNeedsCapacity(p: History, op: Op, f: string, ttl: int, capacity: nat)
    requires Evicts(Run(p, ttl, capacity), op, f, ttl, capacity)
    ensures |Since(p, f) + {op.fingerprint}| >= capacity
  {
    var m, g := Run(p, ttl, capacity), op.fingerprint;
    RunUnique(p, ttl, capacity);
    RunNewer(p, f, ttl, capacity);
    NewerUntrimmed(m, f, g, op.now, ttl, Since(p, f));
    var x := Untrimmed(m, g, op.now, ttl);
    assert Step(m, op, ttl, capacity) == Trim(x, capacity);
    HasKept(m, f, g, op.now, ttl);
    var i :| 0 <= i < |x| && x[i].fingerprint == f;
    assert |x| > capacity;
    assert x[1..] == Trim(x, capacity);
    assert After(x, f) == x[1..];
    Counted(x[1..], Since(p, f) + {g});
  }

  lemma HasKept(m: Table, f: string, g: string, now: int, ttl: int)
    requires Unique(m) && f != g && Has(Live(m, now), f)
    ensures Has(Untrimmed(m, g, now, ttl), f)
  {
    var live := Live(m, now);
    LiveUnique(m, now);
    var i :| 0 <= i < |live| && live[i].fingerprint == f;
    WithoutMembers(live, g, live[i]);
    HasMember(Untrimmed(m, g, now, ttl), f);
  }

  /** MAIN: capacity drops a fingerprint only after at least `capacity` distinct others were used since it was
      last remembered, so fewer than that can never let a duplicate through early. */
  lemma {:induction false} EvictionNeedsCapacity(h: History, f: string, ttl: int, capacity: nat)
    requires Evicted(h, f, ttl, capacity)
    ensures |Since(h, f)| >= capacity
  {
    var p, op := h[..|h| - 1], h[|h| - 1];
    if Evicted(p, f, ttl, capacity) {
      EvictionNeedsCapacity(p, f, ttl, capacity);
      SubsetSize(Since(p, f), Since(h, f));
    } else {
      EvictsNeedsCapacity(p, op, f, ttl, capacity);
    }
  }

  /** MAIN: a fingerprint remembered within the time to live is found unless `capacity` others were used since. */
  lemma RecentIsFound(h: History, f: string, now: int, ttl: int, capacity: nat)
    requires capacity > 0 && Until(h, now) && |Since(h, f)| < capacity
    requires LastRemembered(h, f).Some? && now <= LastRemembered(h, f).value + ttl
    ensures Answer(Run(h, ttl, capacity), f, now)
  {
    if Evicted(h, f, ttl, capacity) { EvictionNeedsCapacity(h, f, ttl, capacity); }
    SeenExactly(h, f, now, ttl, capacity);
  }
}
