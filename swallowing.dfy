/** The window "swallowing" hooks of the qtile configuration: when a window
    opens whose process descends from a terminal that owns an open window,
    the terminal window is minimized; when the child closes, it is restored. */
module Swallowing {

  import opened Wrappers

  /** The only WM class whose windows are swallowed. The configuration
      launches kitty as its terminal but still checks for this class. */
  const TERMINAL_CLASS := "Alacritty"

  /** How many ancestors of the new window's process the walk inspects. */
  const MAX_HOPS := 5

  /** A client of the window manager. `pid` and `wmClass` are the window's
      _NET_WM_PID and WM_CLASS properties as the hook reads them, `minimized`
      the client's minimized state, and `parent` the attribute the hook adds
      to a swallowing window (null while it has not been set). */
  class Window {
    var pid: int
    var wmClass: seq<string>
    var minimized: bool
    var parent: Window?

    constructor (pid: int, wmClass: seq<string>)
      ensures this.pid == pid && this.wmClass == wmClass
      ensures !minimized && parent == null
    {
      this.pid := pid;
      this.wmClass := wmClass;
      minimized := false;
      parent := null;
    }
  }

  /** One item of the window manager's `windows_map`: a window id and its
      client. A registry lists the items in the map's iteration order. */
  datatype Slot = Slot(wid: int, client: Window)

  /** What the hook reads of one open window: its id, pid and WM class. */
  datatype Entry = Entry(wid: int, pid: int, wmClass: seq<string>)

  /** Why the walk up the process tree stopped. */
  datatype Stop =
    | Raised(pid: int)  // the process table has no entry for this pid
    | Orphan            // an ancestor pid was 0
    | Exhausted         // every inspected ancestor was passed over
    | Owner(wid: int)   // this window belongs to the first ancestor that owns one

  /** What one run of the window-created hook did. Only `Swallowed` changes
      any state. */
  datatype Outcome =
    | ProcessGone(pid: int)   // the process lookup for `pid` raised
    | Orphaned                // the walk reached pid 0 and returned
    | NoOwner                 // none of the five ancestors owns an open window
    | ParentMissing(wid: int) // `windows_map.get` found no window `wid`
    | NoWmClass(wid: int)     // window `wid` has an empty WM class
    | NotTerminal(wid: int)   // window `wid` is not of the terminal class
    | Swallowed(wid: int)     // window `wid` was minimized and back-referenced

  // ----- the registry -----

  function Clients(reg: seq<Slot>): set<Window> {
    set i | 0 <= i < |reg| :: reg[i].client
  }

  /** The window ids of the open windows, in iteration order. */
  function EntryWids(es: seq<Entry>): seq<int> {
    seq(|es|, i requires 0 <= i < |es| => es[i].wid)
  }

  /** The keys of `windows_map`, in iteration order; they are the window
      ids of the registry's snapshot (`SnapshotWids`). */
  function SlotWids(reg: seq<Slot>): seq<int> {
    seq(|reg|, i requires 0 <= i < |reg| => reg[i].wid)
  }

  /** Window ids are keys of a map, so no two items share one. */
  predicate DistinctWids(wids: seq<int>) {
    forall i, j :: 0 <= i < j < |wids| ==> wids[i] != wids[j]
  }

  /** What the hook reads of every open window, in iteration order. */
  function Snapshot(reg: seq<Slot>): (es: seq<Entry>)
    reads Clients(reg)
    ensures |es| == |reg|
    ensures forall i :: 0 <= i < |reg| ==>
      es[i] == Entry(reg[i].wid, reg[i].client.pid, reg[i].client.wmClass)
  {
    if reg == [] then []
    else
      assert Clients(reg[1..]) <= Clients(reg) by {
        forall c | c in Clients(reg[1..]) ensures c in Clients(reg) {
          var i :| 0 <= i < |reg[1..]| && reg[1..][i].client == c;
          assert reg[i + 1].client == c;
        }
      }
      [Entry(reg[0].wid, reg[0].client.pid, reg[0].client.wmClass)] + Snapshot(reg[1..])
  }

  /** `windows_map.get(wid)`: the position of window `wid`, if it is open. */
  function Find(wids: seq<int>, wid: int): (r: Option<nat>)
    ensures r.Some? ==> r.value < |wids| && wids[r.value] == wid
    ensures r.None? ==> forall i :: 0 <= i < |wids| ==> wids[i] != wid
  {
    if wids == [] then None
    else if wids[0] == wid then Some(0)
    else match Find(wids[1..], wid)
      case None => None
      case Some(k) => Some(k + 1)
  }

  /** The snapshot lists the windows under the ids `windows_map` gives them. */
  lemma SnapshotWids(reg: seq<Slot>)
    ensures EntryWids(Snapshot(reg)) == SlotWids(reg)
  {
  }

  // ----- the pid table -----

  /** `{pid: wid for wid, c in windows_map.items()}`: later items overwrite
      earlier ones that have the same pid. */
  function PidTable(es: seq<Entry>): (table: map<int, int>)
    ensures table.Keys == set i | 0 <= i < |es| :: es[i].pid
    ensures table.Values <= set i | 0 <= i < |es| :: es[i].wid
  {
    if es == [] then map[]
    else
      var init, last := es[..|es| - 1], es[|es| - 1];
      var table := PidTable(init)[last.pid := last.wid];
      assert table.Values <= set i | 0 <= i < |es| :: es[i].wid by {
        forall v | v in table.Values ensures exists i :: 0 <= i < |es| && es[i].wid == v {
          var q :| q in table && table[q] == v;
          if q == last.pid {
            assert es[|es| - 1].wid == v;
          } else {
            assert PidTable(init)[q] == v;
            assert v in PidTable(init).Values;
            assert v in set i | 0 <= i < |init| :: init[i].wid;
            var i :| 0 <= i < |init| && init[i].wid == v;
            assert es[i] == init[i];
          }
        }
      }
      table
  }

  /** Item `i` is the last one in iteration order whose pid is `pid`. */
  predicate LastWithPid(es: seq<Entry>, pid: int, i: int) {
    0 <= i < |es| && es[i].pid == pid && forall j :: i < j < |es| ==> es[j].pid != pid
  }

  /** The table maps the pid of the last item that has it to that item's
      window id. */
  lemma {:induction false} PidTableLastWins(es: seq<Entry>, pid: int, i: int)
    requires LastWithPid(es, pid, i)
    ensures pid in PidTable(es) && PidTable(es)[pid] == es[i].wid
  {
    if i < |es| - 1 {
      PidTableLastWins(es[..|es| - 1], pid, i);
    }
  }

  /** Every pid in the table is the pid of some item, and the table's window
      id for it is that item's. */
  lemma {:induction false} PidTableSound(es: seq<Entry>, pid: int)
    requires pid in PidTable(es)
    ensures exists i :: 0 <= i < |es| && es[i].pid == pid && es[i].wid == PidTable(es)[pid]
  {
    var n := |es| - 1;
    if es[n].pid != pid {
      PidTableSound(es[..n], pid);
      var i :| 0 <= i < n && es[..n][i].pid == pid && es[..n][i].wid == PidTable(es[..n])[pid];
      assert es[i] == es[..n][i];
    } else {
      assert es[n].wid == PidTable(es)[pid];
    }
  }

  /** Every open window's pid is a key of the table. */
  lemma {:induction false} PidTableComplete(es: seq<Entry>, i: int)
    requires 0 <= i < |es|
    ensures es[i].pid in PidTable(es)
  {
    var n := |es| - 1;
    if i < n {
      PidTableComplete(es[..n], i);
    }
  }

  // ----- the process tree -----

  /** The pid reached after `k` parent steps from `p`; None when a step
      would look up a pid the process table does not know. A process whose
      parent is unknown has parent pid 0. */
  function Hop(p: int, k: nat, procs: map<int, int>): Option<int>
    decreases k
  {
    if k == 0 then Some(p)
    else if p in procs then Hop(procs[p], k - 1, procs)
    else None
  }

  /** The walk goes past `q`: it is a real pid, owns no open window, and
      its parent can be looked up. */
  predicate PassesOver(q: int, table: map<int, int>, procs: map<int, int>) {
    q != 0 && q !in table && q in procs
  }

  /** The walk from `p` goes past the first `k` pids of the chain. */
  predicate PassedFirst(p: int, k: nat, table: map<int, int>, procs: map<int, int>) {
    forall m :: 0 <= m < k ==> Hop(p, m, procs).Some? && PassesOver(Hop(p, m, procs).value, table, procs)
  }

  /** The `k`-th pid of the chain from `p` is the first to own an open
      window, and that window is `w`. */
  predicate FirstOwnerAt(p: int, k: nat, table: map<int, int>, procs: map<int, int>, w: int) {
    PassedFirst(p, k, table, procs)
    && Hop(p, k, procs).Some?
    && Hop(p, k, procs).value != 0
    && Hop(p, k, procs).value in table
    && table[Hop(p, k, procs).value] == w
  }

  /** Within the first `n` pids of the chain from `p`, the first that owns
      an open window owns `w`. */
  predicate FirstOwnerWithin(p: int, n: nat, table: map<int, int>, procs: map<int, int>, w: int) {
    exists k :: 0 <= k < n && FirstOwnerAt(p, k, table, procs, w)
  }

  /** The walk of `_swallow` from `ppid`, with `left` iterations to go:
      it returns on pid 0, stops at the first pid that owns an open window,
      and otherwise moves to the parent. */
  function Search(ppid: int, left: nat, table: map<int, int>, procs: map<int, int>): (r: Stop)
    ensures r.Owner? ==> r.wid in table.Values
    ensures r.Raised? ==> r.pid != 0 && r.pid !in table && r.pid !in procs
    decreases left
  {
    if left == 0 then Exhausted
    else if ppid == 0 then Orphan
    else if ppid in table then Owner(table[ppid])
    else if ppid !in procs then Raised(ppid)
    else Search(procs[ppid], left - 1, table, procs)
  }

  // ----- the hook, as a function of what it reads -----

  predicate IsTerminal(wmClass: seq<string>) {
    |wmClass| > 0 && wmClass[0] == TERMINAL_CLASS
  }

  /** Window `w` is open and of the terminal class. */
  predicate OpenTerminal(es: seq<Entry>, w: int) {
    exists i :: 0 <= i < |es| && es[i].wid == w && IsTerminal(es[i].wmClass)
  }

  /** What the hook does once window `w` is the first owner found. */
  function Verdict(es: seq<Entry>, w: int): (r: Outcome)
    ensures r.ParentMissing? || r.NoWmClass? || r.NotTerminal? || r.Swallowed?
    ensures r.wid == w
    ensures r.ParentMissing? <==> w !in EntryWids(es)
    ensures r.Swallowed? ==> OpenTerminal(es, w)
  {
    match Find(EntryWids(es), w)
    case None => ParentMissing(w)
    case Some(k) =>
      if |es[k].wmClass| == 0 then NoWmClass(w)
      else if es[k].wmClass[0] != TERMINAL_CLASS then NotTerminal(w)
      else Swallowed(w)
  }

  /** `_swallow` for a window whose process is `pid`, over the open windows
      `es` and the process table `procs` (pid to parent pid). */
  function SwallowSpec(pid: int, es: seq<Entry>, procs: map<int, int>): (r: Outcome)
    ensures r.ProcessGone? ==> r.pid !in procs
    ensures r.Swallowed? ==> pid in procs && r.wid in PidTable(es).Values && OpenTerminal(es, r.wid)
  {
    if pid !in procs then ProcessGone(pid)
    else match Search(procs[pid], MAX_HOPS, PidTable(es), procs)
      case Raised(q) => ProcessGone(q)
      case Orphan => Orphaned
      case Exhausted => NoOwner
      case Owner(w) => Verdict(es, w)
  }

  /** The client an outcome swallowed, or null. */
  function Target(reg: seq<Slot>, o: Outcome): Window? {
    if o.Swallowed? then
      match Find(SlotWids(reg), o.wid)
      case None => null
      case Some(k) => reg[k].client
    else null
  }

  // ----- the hooks -----

  /** `_swallow`, run when `window` is created. */
  method Swallow(window: Window, reg: seq<Slot>, procs: map<int, int>) returns (outcome: Outcome)
    modifies window`parent, Clients(reg)`minimized
    ensures outcome == SwallowSpec(window.pid, old(Snapshot(reg)), procs)
    ensures outcome.Swallowed? ==> Target(reg, outcome) != null
    ensures window.parent == if outcome.Swallowed? then Target(reg, outcome) else old(window.parent)
    ensures forall c :: c in Clients(reg) ==>
      c.minimized == (old(c.minimized) || c == Target(reg, outcome))
  {
    var entries := Snapshot(reg);
    var pid := window.pid;
    if pid !in procs {
      return ProcessGone(pid);
    }
    var ppid := procs[pid];
    var cpids := PidTable(entries);
    for i := 0 to MAX_HOPS
      invariant Search(ppid, MAX_HOPS - i, cpids, procs) == Search(procs[pid], MAX_HOPS, cpids, procs)
    {
      if ppid == 0 {
        return Orphaned;
      }
      if ppid in cpids {
        var wid := cpids[ppid];
        assert SwallowSpec(pid, entries, procs) == Verdict(entries, wid);
        outcome := SwallowOwner(window, reg, wid);
        return;
      }
      if ppid !in procs {
        return ProcessGone(ppid);
      }
      ppid := procs[ppid];
    }
    return NoOwner;
  }

  /** The end of `_swallow` once window `wid` belongs to the first owning
      ancestor: fetch it from `windows_map`, and minimize it and record it
      as `window`'s parent if it is a terminal. */
  method SwallowOwner(window: Window, reg: seq<Slot>, wid: int) returns (outcome: Outcome)
    modifies window`parent, Clients(reg)`minimized
    ensures outcome == Verdict(old(Snapshot(reg)), wid)
    ensures outcome.Swallowed? ==> Target(reg, outcome) != null
    ensures window.parent == if outcome.Swallowed? then Target(reg, outcome) else old(window.parent)
    ensures forall c :: c in Clients(reg) ==>
      c.minimized == (old(c.minimized) || c == Target(reg, outcome))
  {
    var entries := Snapshot(reg);
    SnapshotWids(reg);
    var k := Find(SlotWids(reg), wid);
    if k.None? {
      return ParentMissing(wid);
    }
    var parent := reg[k.value].client;
    assert parent.wmClass == entries[k.value].wmClass;
    if |parent.wmClass| == 0 {
      return NoWmClass(wid);
    }
    if parent.wmClass[0] != TERMINAL_CLASS {
      return NotTerminal(wid);
    }
    parent.minimized := true;
    window.parent := parent;
    return Swallowed(wid);
  }

  /** `_unswallow`, run when `window` is closed: restores the window it
      swallowed, if it swallowed one. */
  method Unswallow(window: Window)
    modifies (if window.parent == null then {} else {window.parent})`minimized
    ensures window.parent == old(window.parent)
    ensures window.parent != null ==> !window.parent.minimized
  {
    if window.parent != null {
      window.parent.minimized := false;
    }
  }

  // ----- the walk -----

  /** Going past the first k + 1 pids from `p` is going past `p` and then
      past the first k pids from its parent. */
  lemma PassedFirstStep(p: int, k: nat, table: map<int, int>, procs: map<int, int>)
    ensures PassedFirst(p, k + 1, table, procs) <==>
      PassesOver(p, table, procs) && PassedFirst(procs[p], k, table, procs)
  {
    if PassedFirst(p, k + 1, table, procs) {
      assert Hop(p, 0, procs) == Some(p);
      forall m | 0 <= m < k
        ensures Hop(procs[p], m, procs).Some? && PassesOver(Hop(procs[p], m, procs).value, table, procs)
      {
        assert Hop(p, m + 1, procs) == Hop(procs[p], m, procs);
      }
    }
    if PassesOver(p, table, procs) && PassedFirst(procs[p], k, table, procs) {
      forall m | 0 <= m < k + 1
        ensures Hop(p, m, procs).Some? && PassesOver(Hop(p, m, procs).value, table, procs)
      {
        if m > 0 {
          assert Hop(p, m, procs) == Hop(procs[p], m - 1, procs);
        }
      }
    }
  }

  /** The first owner k + 1 steps up from `p` is the first owner k steps up
      from `p`'s parent, provided the walk goes past `p`. */
  lemma FirstOwnerStep(p: int, k: nat, table: map<int, int>, procs: map<int, int>, w: int)
    ensures FirstOwnerAt(p, 0, table, procs, w) <==> p != 0 && p in table && table[p] == w
    ensures FirstOwnerAt(p, k + 1, table, procs, w) <==>
      PassesOver(p, table, procs) && FirstOwnerAt(procs[p], k, table, procs, w)
  {
    PassedFirstStep(p, k, table, procs);
    if PassesOver(p, table, procs) {
      assert Hop(p, k + 1, procs) == Hop(procs[p], k, procs);
    }
  }

  /** The walk with `n` iterations stops at window `w` exactly when, among
      the first `n` pids of the chain, the first one that owns an open window
      owns `w` and every pid before it is passed over. */
  lemma {:induction false} SearchFindsFirstOwner(p: int, n: nat, table: map<int, int>, procs: map<int, int>, w: int)
    ensures Search(p, n, table, procs) == Owner(w) <==> FirstOwnerWithin(p, n, table, procs, w)
    decreases n
  {
    FirstOwnerStep(p, 0, table, procs, w);
    if n == 0 {
    } else if !PassesOver(p, table, procs) {
      forall k | 0 < k < n ensures !FirstOwnerAt(p, k, table, procs, w) {
        FirstOwnerStep(p, k - 1, table, procs, w);
      }
    } else {
      SearchFindsFirstOwner(procs[p], n - 1, table, procs, w);
      if Search(p, n, table, procs) == Owner(w) {
        var k :| 0 <= k < n - 1 && FirstOwnerAt(procs[p], k, table, procs, w);
        FirstOwnerStep(p, k, table, procs, w);
      }
      if exists k :: 0 <= k < n && FirstOwnerAt(p, k, table, procs, w) {
        var k :| 0 <= k < n && FirstOwnerAt(p, k, table, procs, w);
        FirstOwnerStep(p, k - 1, table, procs, w);
      }
    }
  }

  /** The walk with `n` iterations runs to the end exactly when it goes
      past each of the first `n` pids of the chain. */
  lemma {:induction false} SearchExhausted(p: int, n: nat, table: map<int, int>, procs: map<int, int>)
    ensures Search(p, n, table, procs) == Exhausted <==> PassedFirst(p, n, table, procs)
    decreases n
  {
    if n > 0 {
      PassedFirstStep(p, n - 1, table, procs);
      if PassesOver(p, table, procs) {
        SearchExhausted(procs[p], n - 1, table, procs);
      }
    }
  }

  /** Reaching pid 0 before any owner ends the walk with no owner. */
  lemma {:induction false} SearchOrphan(p: int, n: nat, k: nat, table: map<int, int>, procs: map<int, int>)
    requires k < n
    requires PassedFirst(p, k, table, procs) && Hop(p, k, procs) == Some(0)
    ensures Search(p, n, table, procs) == Orphan
    decreases k
  {
    if k > 0 {
      PassedFirstStep(p, k - 1, table, procs);
      assert Hop(p, k, procs) == Hop(procs[p], k - 1, procs);
      SearchOrphan(procs[p], n - 1, k - 1, table, procs);
    }
  }

  // ----- the hook -----

  /** `windows_map.get` never comes back empty: the window id the table
      gives for an ancestor belongs to an open window. */
  lemma ParentAlwaysFound(pid: int, es: seq<Entry>, procs: map<int, int>)
    ensures !SwallowSpec(pid, es, procs).ParentMissing?
  {
    if pid in procs {
      var table := PidTable(es);
      var stop := Search(procs[pid], MAX_HOPS, table, procs);
      if stop.Owner? {
        SearchFindsFirstOwner(procs[pid], MAX_HOPS, table, procs, stop.wid);
        var k :| 0 <= k < MAX_HOPS && FirstOwnerAt(procs[pid], k, table, procs, stop.wid);
        PidTableSound(es, Hop(procs[pid], k, procs).value);
        var i :| 0 <= i < |es| && es[i].wid == stop.wid;
        assert EntryWids(es)[i] == stop.wid;
      }
    }
  }

  /** Once `w` is the first owner among the five ancestors, the outcome is
      decided by `w` alone: pids further up are never looked at. */
  lemma FirstOwnerDecides(pid: int, es: seq<Entry>, procs: map<int, int>, k: nat, w: int)
    requires pid in procs && k < MAX_HOPS
    requires FirstOwnerAt(procs[pid], k, PidTable(es), procs, w)
    ensures SwallowSpec(pid, es, procs) == Verdict(es, w)
  {
    SearchFindsFirstOwner(procs[pid], MAX_HOPS, PidTable(es), procs, w);
  }

  /** Given its first owner `w`, the hook swallows exactly when the open
      window `w` is of the terminal class. */
  lemma VerdictSwallows(es: seq<Entry>, w: int)
    requires DistinctWids(EntryWids(es))
    ensures Verdict(es, w) == Swallowed(w) <==> OpenTerminal(es, w)
  {
    if OpenTerminal(es, w) {
      var i :| 0 <= i < |es| && es[i].wid == w && IsTerminal(es[i].wmClass);
      assert EntryWids(es)[i] == w;
      assert Find(EntryWids(es), w) == Some(i);
    }
  }

  /** The hook swallows `w` exactly when the walk stops at `w` and the
      verdict on `w` is to swallow it. */
  lemma SwallowedByVerdict(pid: int, es: seq<Entry>, procs: map<int, int>, w: int)
    ensures SwallowSpec(pid, es, procs) == Swallowed(w) <==>
      pid in procs && Search(procs[pid], MAX_HOPS, PidTable(es), procs) == Owner(w)
      && Verdict(es, w) == Swallowed(w)
  {
    if pid in procs {
      var stop := Search(procs[pid], MAX_HOPS, PidTable(es), procs);
      if stop.Owner? {
        assert Verdict(es, stop.wid).Swallowed? ==> Verdict(es, stop.wid).wid == stop.wid;
      }
    }
  }

  /** The hook swallows window `w` exactly when the first of the five
      ancestors that owns an open window owns `w`, and `w` is a terminal. */
  lemma SwallowedIff(pid: int, es: seq<Entry>, procs: map<int, int>, w: int)
    requires DistinctWids(EntryWids(es))
    ensures SwallowSpec(pid, es, procs) == Swallowed(w) <==>
      pid in procs && FirstOwnerWithin(procs[pid], MAX_HOPS, PidTable(es), procs, w) && OpenTerminal(es, w)
  {
    SwallowedByVerdict(pid, es, procs, w);
    VerdictSwallows(es, w);
    if pid in procs {
      SearchFindsFirstOwner(procs[pid], MAX_HOPS, PidTable(es), procs, w);
    }
  }

  /** If no pid among the five ancestors owns an open window, the hook
      changes nothing. */
  lemma NoOwnerNoChange(pid: int, es: seq<Entry>, procs: map<int, int>)
    requires forall k :: 1 <= k <= MAX_HOPS && Hop(pid, k, procs).Some? ==> Hop(pid, k, procs).value !in PidTable(es)
    ensures !SwallowSpec(pid, es, procs).Swallowed?
  {
    if pid in procs {
      var table := PidTable(es);
      forall k | 0 <= k < MAX_HOPS ensures Hop(pid, k + 1, procs) == Hop(procs[pid], k, procs) {
      }
      var stop := Search(procs[pid], MAX_HOPS, table, procs);
      if stop.Owner? {
        SearchFindsFirstOwner(procs[pid], MAX_HOPS, table, procs, stop.wid);
        assert false;
      }
    }
  }

  /** Reaching pid 0 among the five ancestors before any owner makes the
      hook return without a change. */
  lemma OrphanNoChange(pid: int, es: seq<Entry>, procs: map<int, int>, k: nat)
    requires pid in procs && k < MAX_HOPS
    requires PassedFirst(procs[pid], k, PidTable(es), procs) && Hop(procs[pid], k, procs) == Some(0)
    ensures SwallowSpec(pid, es, procs) == Orphaned
  {
    SearchOrphan(procs[pid], MAX_HOPS, k, PidTable(es), procs);
  }

  // ----- the bound of five ancestors -----

  /** A chain in which the terminal's process is the fifth ancestor of the
      new window's process: 100, 10, 20, 30, 40, 50. */
  function FiveDeep(): map<int, int> {
    map[100 := 10, 10 := 20, 20 := 30, 30 := 40, 40 := 50, 50 := 1, 1 := 0]
  }

  /** The same chain one step longer: 100, 5, 10, 20, 30, 40, 50. */
  function SixDeep(): map<int, int> {
    FiveDeep()[100 := 5][5 := 10]
  }

  /** A terminal window 7 owned by process 50. */
  function TerminalAt50(): seq<Entry> {
    [Entry(7, 50, ["Alacritty", "Alacritty"])]
  }

  /** The bound is inclusive: the fifth ancestor is still found... */
  lemma FifthAncestorSwallowed()
    ensures SwallowSpec(100, TerminalAt50(), FiveDeep()) == Swallowed(7)
  {
  }

  /** ...and the sixth is not. */
  lemma SixthAncestorIgnored()
    ensures SwallowSpec(100, TerminalAt50(), SixDeep()) == NoOwner
  {
  }

  /** A new window whose process's parent owns an Alacritty window swallows
      it, and closing the new window restores it. */
  method SwallowThenUnswallow() returns (outcome: Outcome, restored: bool)
    ensures outcome == Swallowed(1) && restored
  {
    var term := new Window(50, ["Alacritty", "Alacritty"]);
    var app := new Window(100, ["feh", "feh"]);
    var procs := map[100 := 50, 50 := 1, 1 := 0];
    outcome := Swallow(app, [Slot(1, term)], procs);
    assert outcome == Swallowed(1);
    assert term.minimized && app.parent == term;
    Unswallow(app);
    restored := !term.minimized;
  }
}
