/**
 The release-version cache: one cell, one refresh lock, and any number of callers whose steps
 interleave. A caller may be cancelled wherever it awaits; time passes between steps.
 */
module VersionCache {
  import opened Common

  datatype Cached = Cached(version: string, fetchedAt: int)

  type Cell = Option<Cached>

  /** What a caller gets: a version, or the floor that is built in. */
  datatype Answer = Version(version: string) | Floor

  /** The cell's version while it is younger than `ttl`. */
  function Fresh(cell: Cell, now: int, ttl: int): Option<string> {
    if cell.Some? && now - cell.value.fetchedAt < ttl then Some(cell.value.version) else None
  }

  /** The cell's version whatever its age, else the floor. */
  function Read(cell: Cell): Answer {
    match cell
    case Some(c) => Version(c.version)
    case None => Floor
  }

  class CodexVersionCache {
    const ttl: int
    var cached: Cell

    constructor (ttl: int)
      ensures this.ttl == ttl && cached == None
    {
      this.ttl := ttl;
      cached := None;
    }

    method FreshCached(now: int) returns (r: Option<string>)
      ensures r.Some? <==> cached.Some? && now - cached.value.fetchedAt < ttl
      ensures r.Some? ==> r.value == cached.value.version
    {
      match cached {
        case Some(c) => r := if now - c.fetchedAt < ttl then Some(c.version) else None;
        case None => r := None;
      }
    }

    method CachedOrFallback() returns (r: Answer)
      ensures r == Read(cached)
    {
      r := match cached
        case Some(c) => Version(c.version)
        case None => Floor;
    }

    /**
     One call: the first check at `now`, the second at `locked`, the end of the fetch at `done`. While
     it waits for the lock another caller may leave a value (`left`); `fetched` is the source's answer,
     if it is asked. Only an expired cell asks; what is answered is what the cell then holds.
     */
    method GetVersion(now: int, locked: int, done: int, left: Cell, fetched: Option<string>)
        returns (r: Answer, asked: bool)
      modifies this
      ensures asked <==>
        && (old(cached).None? || now - old(cached).value.fetchedAt >= ttl)
        && var found := if left.Some? then left else old(cached);
           found.None? || locked - found.value.fetchedAt >= ttl
      ensures cached ==
        if old(cached).Some? && now - old(cached).value.fetchedAt < ttl then old(cached)
        else if asked && fetched.Some? then Some(Cached(fetched.value, done))
        else if left.Some? then left
        else old(cached)
      ensures r == Read(cached)
    {
      var v := FreshCached(now);
      if v.Some? {
        return Version(v.value), false;
      }
      if left.Some? {
        cached := left;
      }
      v := FreshCached(locked);
      if v.Some? {
        return Version(v.value), false;
      }
      match fetched {
        case Some(version) =>
          cached := Some(Cached(version, done));
          return Version(version), true;
        case None =>
          if cached.Some? {
            return Version(cached.value.version), true;
          }
          return Floor, true;
      }
    }
  }

  // ---------- interleaved callers ----------

  datatype Pc = Idle | Waiting | Holding | Fetching | Fetched(version: string) | FetchFailed

  datatype State = State(now: int, cell: Cell, lock: Option<nat>, pcs: map<nat, Pc>)

  function PcOf(st: State, p: nat): Pc {
    if p in st.pcs then st.pcs[p] else Idle
  }

  datatype Event =
    | FetchStarted(at: int)
    | FetchEnded
    | Stored(version: string, at: int)
    | Answered(answer: Answer)

  datatype Step =
    | Call(p: nat)
    | Acquire(p: nat)
    | Recheck(p: nat)
    | FetchReturns(p: nat, result: Option<string>)
    | Conclude(p: nat)
    | Cancel(p: nat)
    | SyncRead
    | Tick(elapsed: nat)

  function Goto(st: State, p: nat, pc: Pc): State {
    st.(pcs := st.pcs[p := pc])
  }

  function Release(st: State, p: nat): State {
    st.(pcs := st.pcs[p := Idle], lock := None)
  }

  /** One step of one caller; a step that is not enabled does nothing. */
  function Do(st: State, step: Step, ttl: int): (State, seq<Event>) {
    match step
    case Call(p) =>
      if PcOf(st, p) != Idle then (st, [])
      else
        (match Fresh(st.cell, st.now, ttl)
         case Some(v) => (st, [Answered(Version(v))])
         case None => (Goto(st, p, Waiting), []))
    case Acquire(p) =>
      if PcOf(st, p) == Waiting && st.lock.None? then (Goto(st, p, Holding).(lock := Some(p)), []) else (st, [])
    case Recheck(p) =>
      if PcOf(st, p) != Holding then (st, [])
      else
        (match Fresh(st.cell, st.now, ttl)
         case Some(v) => (Release(st, p), [Answered(Version(v))])
         case None => (Goto(st, p, Fetching), [FetchStarted(st.now)]))
    case FetchReturns(p, result) =>
      if PcOf(st, p) != Fetching then (st, [])
      else (Goto(st, p, if result.Some? then Fetched(result.value) else FetchFailed), [FetchEnded])
    case Conclude(p) =>
      (match PcOf(st, p)
       case Fetched(v) =>
         (Release(st, p).(cell := Some(Cached(v, st.now))), [Stored(v, st.now), Answered(Version(v))])
       case FetchFailed => (Release(st, p), [Answered(Read(st.cell))])
       case _ => (st, []))
    case Cancel(p) =>
      (match PcOf(st, p)
       case Waiting => (Goto(st, p, Idle), [])
       case Fetching => (Release(st, p), [FetchEnded])
       case _ => (st, []))
    case SyncRead => (st, [Answered(Read(st.cell))])
    case Tick(elapsed) => (st.(now := st.now + elapsed), [])
  }

  /**
   The steps of one call do what the method does, with whatever the other callers leave behind while
   this one waits for the lock.
   */
  lemma StepsOfOneCall(st: State, p: nat, ttl: int, locked: int, done: int, left: Cell, fetched: Option<string>)
    requires PcOf(st, p) == Idle
    ensures Fresh(st.cell, st.now, ttl).Some? ==> Do(st, Call(p), ttl) == (st, [Answered(Read(st.cell))])
    ensures Fresh(st.cell, st.now, ttl).None? ==>
      var cell := if left.Some? then left else st.cell;
      var waited := Do(st, Call(p), ttl).0.(now := locked, cell := cell, lock := None);
      var (checked, shown) := Do(Do(waited, Acquire(p), ttl).0, Recheck(p), ttl);
      if Fresh(cell, locked, ttl).Some? then
        checked.cell == cell && checked.lock.None? && shown == [Answered(Read(cell))]
      else
        && shown == [FetchStarted(locked)] && checked.lock == Some(p)
        && var (ended, told) := Do(Do(checked, FetchReturns(p, fetched), ttl).0.(now := done), Conclude(p), ttl);
           && ended.cell == (if fetched.Some? then Some(Cached(fetched.value, done)) else cell)
           && ended.lock.None? && told != [] && told[|told| - 1] == Answered(Read(ended.cell))
  {
  }

  /** All steps in the order in which they happen, from a cold cache, with what they show. */
  function Exec(start: int, steps: seq<Step>, ttl: int): (State, seq<Event>) {
    if steps == [] then (State(start, None, None, map[]), [])
    else
      var n := |steps| - 1;
      var (st, log) := Exec(start, steps[..n], ttl);
      var (st1, more) := Do(st, steps[n], ttl);
      (st1, log + more)
  }

  // ---------- reading the log ----------

  function InFlight(log: seq<Event>): int {
    if log == [] then 0
    else
      var n := |log| - 1;
      InFlight(log[..n]) + match log[n]
        case FetchStarted(_) => 1
        case FetchEnded => -1
        case _ => 0
  }

  function LastStored(log: seq<Event>): Cell {
    if log == [] then None
    else
      match log[|log| - 1]
      case Stored(v, at) => Some(Cached(v, at))
      case _ => LastStored(log[..|log| - 1])
  }

  /** What a log may say at its position `k`, given what it says before. */
  ghost predicate Proper(log: seq<Event>, k: nat, ttl: int)
    requires k < |log|
  {
    && 0 <= InFlight(log[..k]) <= 1 && 0 <= InFlight(log[..k + 1]) <= 1
    && (match log[k]
        case FetchStarted(at) => LastStored(log[..k]).Some? ==> at - LastStored(log[..k]).value.fetchedAt >= ttl
        case Stored(_, at) => LastStored(log[..k]).Some? ==> at >= LastStored(log[..k]).value.fetchedAt
        case Answered(answer) => answer == Read(LastStored(log[..k]))
        case FetchEnded => true)
  }

  predicate Inside(pc: Pc) {
    pc.Holding? || pc.Fetching? || pc.Fetched? || pc.FetchFailed?
  }

  ghost predicate Inv(st: State, log: seq<Event>, ttl: int) {
    && (forall p: nat :: Inside(PcOf(st, p)) <==> st.lock == Some(p))
    && InFlight(log) == (if st.lock.Some? && PcOf(st, st.lock.value).Fetching? then 1 else 0)
    && st.cell == LastStored(log)
    && (st.cell.Some? ==> st.cell.value.fetchedAt <= st.now)
    && forall k :: 0 <= k < |log| ==> Proper(log, k, ttl)
  }

  lemma Extend(log: seq<Event>, e: Event, ttl: int)
    requires forall k :: 0 <= k < |log| ==> Proper(log, k, ttl)
    ensures var log1 := log + [e];
      && InFlight(log1) == InFlight(log) + (match e
         case FetchStarted(_) => 1
         case FetchEnded => -1
         case _ => 0)
      && LastStored(log1) == (if e.Stored? then Some(Cached(e.version, e.at)) else LastStored(log))
      && (forall k :: 0 <= k < |log| ==> Proper(log1, k, ttl))
      && log1[..|log|] == log && log1[|log|] == e && log1[..|log| + 1] == log1
  {
    hide Proper;
    var log1 := log + [e];
    assert log1[..|log|] == log && log1[..|log| + 1] == log1;
    forall k | 0 <= k < |log| ensures Proper(log1, k, ttl) {
      ProperAlike(log, log1, k, ttl);
    }
  }

  lemma ProperAlike(log: seq<Event>, other: seq<Event>, k: nat, ttl: int)
    requires k < |log| && k < |other| && log[..k + 1] == other[..k + 1]
    ensures Proper(log, k, ttl) <==> Proper(other, k, ttl)
  {
    assert log[..k + 1][..k] == log[..k] && other[..k + 1][..k] == other[..k];
    assert log[..k + 1][k] == log[k] && other[..k + 1][k] == other[k];
  }

  lemma StepInv(st: State, log: seq<Event>, step: Step, ttl: int)
    requires Inv(st, log, ttl)
    ensures var (st1, more) := Do(st, step, ttl);
      Inv(st1, log + more, ttl)
  {
    hide InFlight, LastStored;
    var (st1, more) := Do(st, step, ttl);
    if |more| >= 1 {
      Extend(log, more[0], ttl);
      assert log + [more[0]] == log + more[..1];
      if |more| == 2 {
        assert Proper(log + [more[0]], |log|, ttl);
        Extend(log + [more[0]], more[1], ttl);
        assert log + more == log + [more[0]] + [more[1]];
      } else {
        assert more == [more[0]];
      }
    } else {
      assert log + more == log;
    }
  }

  lemma {:induction false} ExecInv(start: int, steps: seq<Step>, ttl: int)
    ensures Inv(Exec(start, steps, ttl).0, Exec(start, steps, ttl).1, ttl)
  {
    hide Do, Inv;
    if steps == [] {
      InitInv(start, ttl);
    } else {
      var n := |steps| - 1;
      ExecInv(start, steps[..n], ttl);
      StepInv(Exec(start, steps[..n], ttl).0, Exec(start, steps[..n], ttl).1, steps[n], ttl);
    }
  }

  lemma InitInv(start: int, ttl: int)
    ensures Inv(State(start, None, None, map[]), [], ttl)
  {
  }

  // ---------- for every interleaving ----------

  /**
   A call answers at once exactly if the version stored last is younger than the time-to-live, and then
   with that version; otherwise it waits for the lock.
   */
  lemma FirstCheck(start: int, steps: seq<Step>, ttl: int, p: nat)
    requires PcOf(Exec(start, steps, ttl).0, p) == Idle
    ensures var (st, log) := Exec(start, steps, ttl);
      var (st1, more) := Do(st, Call(p), ttl);
      var stored := LastStored(log);
      if stored.Some? && st.now - stored.value.fetchedAt < ttl then
        more == [Answered(Version(stored.value.version))] && st1 == st
      else
        more == [] && PcOf(st1, p) == Waiting
  {
    ExecInv(start, steps, ttl);
  }

  /**
   Under the lock, a version stored last that is younger than the time-to-live is the answer; otherwise,
   and only then, a fetch starts.
   */
  lemma SecondCheck(start: int, steps: seq<Step>, ttl: int, p: nat)
    requires PcOf(Exec(start, steps, ttl).0, p) == Holding
    ensures var (st, log) := Exec(start, steps, ttl);
      var (st1, more) := Do(st, Recheck(p), ttl);
      var stored := LastStored(log);
      if stored.Some? && st.now - stored.value.fetchedAt < ttl then
        more == [Answered(Version(stored.value.version))] && st1.lock.None?
      else
        more == [FetchStarted(st.now)] && PcOf(st1, p) == Fetching
  {
    ExecInv(start, steps, ttl);
  }

  /** A caller that is cancelled while it fetches ends the fetch and frees the lock for the next one. */
  lemma CancelFreesLock(start: int, steps: seq<Step>, ttl: int, p: nat, q: nat)
    requires var st := Exec(start, steps, ttl).0;
      PcOf(st, p) == Fetching && PcOf(st, q) == Waiting
    ensures var st := Exec(start, steps, ttl).0;
      var (freed, more) := Do(st, Cancel(p), ttl);
      && more == [FetchEnded] && freed.cell == st.cell && PcOf(freed, p) == Idle
      && PcOf(Do(freed, Acquire(q), ttl).0, q) == Holding
  {
    ExecInv(start, steps, ttl);
  }

  /** At most one fetch is in flight at any time. */
  lemma SingleFlight(start: int, steps: seq<Step>, ttl: int, k: nat)
    requires k <= |Exec(start, steps, ttl).1|
    ensures 0 <= InFlight(Exec(start, steps, ttl).1[..k]) <= 1
  {
    ExecInv(start, steps, ttl);
    var log := Exec(start, steps, ttl).1;
    if k < |log| {
      assert Proper(log, k, ttl);
    } else {
      assert log[..k] == log;
    }
  }

  lemma {:induction false} LastStoredIsLatest(log: seq<Event>, ttl: int, i: nat)
    requires (forall k :: 0 <= k < |log| ==> Proper(log, k, ttl)) && i < |log| && log[i].Stored?
    ensures LastStored(log).Some? && LastStored(log).value.fetchedAt >= log[i].at
  {
    var n := |log| - 1;
    if i < n {
      ProperPrefix(log, ttl, n);
      LastStoredIsLatest(log[..n], ttl, i);
      assert Proper(log, n, ttl);
    }
  }

  lemma ProperPrefix(log: seq<Event>, ttl: int, j: nat)
    requires (forall k :: 0 <= k < |log| ==> Proper(log, k, ttl)) && j <= |log|
    ensures forall k :: 0 <= k < j ==> Proper(log[..j], k, ttl)
  {
    forall k | 0 <= k < j ensures Proper(log[..j], k, ttl) {
      assert log[..j][..k + 1] == log[..k + 1];
      ProperAlike(log, log[..j], k, ttl);
    }
  }

  /** No fetch starts within the TTL of any earlier successful one. */
  lemma FetchesAreSpaced(start: int, steps: seq<Step>, ttl: int, i: nat, j: nat)
    requires i < j < |Exec(start, steps, ttl).1|
    requires Exec(start, steps, ttl).1[i].Stored? && Exec(start, steps, ttl).1[j].FetchStarted?
    ensures Exec(start, steps, ttl).1[j].at - Exec(start, steps, ttl).1[i].at >= ttl
  {
    ExecInv(start, steps, ttl);
    var log := Exec(start, steps, ttl).1;
    ProperPrefix(log, ttl, j);
    LastStoredIsLatest(log[..j], ttl, i);
    assert Proper(log, j, ttl);
  }

  /** Every answer, synchronous or not, is the version stored last, or the floor before any was. */
  lemma AnswersAreLatest(start: int, steps: seq<Step>, ttl: int, j: nat)
    requires j < |Exec(start, steps, ttl).1| && Exec(start, steps, ttl).1[j].Answered?
    ensures Exec(start, steps, ttl).1[j].answer == Read(LastStored(Exec(start, steps, ttl).1[..j]))
  {
    ExecInv(start, steps, ttl);
    assert Proper(Exec(start, steps, ttl).1, j, ttl);
  }

  /** Once any version has been stored, no later answer is the floor. */
  lemma NoFloorAfterSuccess(start: int, steps: seq<Step>, ttl: int, i: nat, j: nat)
    requires i < j < |Exec(start, steps, ttl).1|
    requires Exec(start, steps, ttl).1[i].Stored? && Exec(start, steps, ttl).1[j].Answered?
    ensures !Exec(start, steps, ttl).1[j].answer.Floor?
  {
    ExecInv(start, steps, ttl);
    var log := Exec(start, steps, ttl).1;
    AnswersAreLatest(start, steps, ttl, j);
    ProperPrefix(log, ttl, j);
    LastStoredIsLatest(log[..j], ttl, i);
  }
}
