/** The re-entrant cross-process file lock, as a step system over any number of processes and
    threads: a lock per path in each process, the table of held locks, and the operating
    system's lock on the file. */
module FileLock {
  import opened Wrappers

  type Proc = int
  type Tid = int
  type Path = string
  type LockId = int
  type Handle = int

  // ---------- Tables ----------

  // `threading.RLock`
  datatype RLock = RLock(owner: Option<Tid>, count: nat)

  const FREE: RLock := RLock(None, 0)

  predicate CanTake(l: RLock, t: Tid) { l.owner in {None, Some(t)} }

  function Taken(l: RLock, t: Tid): RLock { RLock(Some(t), l.count + 1) }

  function Dropped(l: RLock): RLock
    requires l.count > 0
  {
    if l.count == 1 then FREE else RLock(l.owner, l.count - 1)
  }

  type HeldTable<K(==)> = map<K, (Handle, nat)>

  // The guarded lookup on entry: one more nesting level for a lock this thread already holds.
  function EnterHeld<K>(held: HeldTable<K>, k: K): HeldTable<K> {
    if k in held then held[k := (held[k].0, held[k].1 + 1)] else held
  }

  // The guarded update in `finally`: one level less, or the handle to release.
  function LeaveHeld<K>(held: HeldTable<K>, k: K): HeldTable<K> {
    if k !in held then held
    else if held[k].1 > 1 then held[k := (held[k].0, held[k].1 - 1)]
    else held - {k}
  }

  function ToRelease<K>(held: HeldTable<K>, k: K): Option<Handle> {
    if k in held && held[k].1 <= 1 then Some(held[k].0) else None
  }

  // ---------- Threads ----------

  // One call's local variables.
  datatype Frame = Frame(path: Path, lock: LockId, handle: Option<Handle>, reentrant: bool)

  /** Where a thread is in the call it is making. `entered` records that the body ran; the code
      does not look at it. */
  datatype Phase =
    | Idle
    | Waiting(f: Frame)      // for the local lock
    | Checking(f: Frame)     // whether the thread already holds the path
    | Opening(f: Frame)
    | Polling(f: Frame)
    | Registering(f: Frame)
    | Settling(f: Frame, entered: bool)
    | Unlocking(f: Frame, release: Handle)
    | Closing(f: Frame, release: Handle)
    | Leaving(f: Frame)

  // The bodies the thread is inside of, innermost last.
  datatype Thread = Thread(bodies: seq<Frame>, phase: Phase)

  datatype Opener = Opener(p: Proc, t: Tid, path: Path)

  datatype World = World(
    locals: map<(Proc, Path), LockId>,
    rlocks: map<(Proc, LockId), RLock>,
    held: HeldTable<(Proc, Path, Tid)>,
    open: map<Handle, Opener>,
    os: map<Path, Handle>,
    threads: map<(Proc, Tid), Thread>)

  const START: World := World(map[], map[], map[], map[], map[], map[])

  predicate Inside(w: World, p: Proc, t: Tid, x: Path) {
    (p, t) in w.threads && exists i :: 0 <= i < |w.threads[(p, t)].bodies| && w.threads[(p, t)].bodies[i].path == x
  }

  // ---------- Steps ----------

  datatype Action =
    | Begin(x: Path, id: LockId)
    | Acquire
    | GiveUp
    | Check
    | Open(h: Handle)
    | Fail
    | TryLock
    | Register
    | Exit
    | Settle
    | Unlock
    | Close
    | Leave

  datatype Event = Spawn(p: Proc, t: Tid) | End(p: Proc, t: Tid) | Crash(p: Proc) | Act(p: Proc, t: Tid, a: Action)

  // `_local_lock`: a path's lock is made on first use and kept.
  function WithLocal(w: World, p: Proc, x: Path, id: LockId): World {
    if (p, x) in w.locals then w
    else w.(locals := w.locals[(p, x) := id], rlocks := w.rlocks[(p, id) := FREE])
  }

  predicate CanAct(w: World, p: Proc, t: Tid, a: Action) {
    (p, t) in w.threads &&
    var th := w.threads[(p, t)];
    match a
    case Begin(x, id) => th.phase.Idle? && ((p, x) in w.locals || (p, id) !in w.rlocks)
    case Acquire => th.phase.Waiting? && (p, th.phase.f.lock) in w.rlocks && CanTake(w.rlocks[(p, th.phase.f.lock)], t)
    case GiveUp => th.phase.Waiting? && (p, th.phase.f.lock) in w.rlocks && !CanTake(w.rlocks[(p, th.phase.f.lock)], t)
    case Check => th.phase.Checking?
    case Open(h) => th.phase.Opening? && h !in w.open
    case Fail => th.phase.Opening? || th.phase.Polling?
    case TryLock => th.phase.Polling? && th.phase.f.handle.Some?
    case Register => th.phase.Registering? && th.phase.f.handle.Some?
    case Exit => th.phase.Idle? && th.bodies != []
    case Settle => th.phase.Settling?
    case Unlock => th.phase.Unlocking?
    case Close => th.phase.Closing?
    case Leave => th.phase.Leaving? && CanLeave(w, p, t)
  }

  // `RLock.release` raises unless its caller owns the lock.
  predicate CanLeave(w: World, p: Proc, t: Tid)
    requires (p, t) in w.threads && w.threads[(p, t)].phase.Leaving?
  {
    var k := (p, w.threads[(p, t)].phase.f.lock);
    k in w.rlocks && w.rlocks[k].owner == Some(t) && w.rlocks[k].count > 0
  }

  function Move(w: World, p: Proc, t: Tid, th: Thread): World {
    w.(threads := w.threads[(p, t) := th])
  }

  function Without(os: map<Path, Handle>, x: Path, h: Handle): map<Path, Handle> {
    if x in os && os[x] == h then os - {x} else os
  }

  function Did(w: World, p: Proc, t: Tid, a: Action): World
    requires CanAct(w, p, t, a)
  {
    var th := w.threads[(p, t)];
    match a
    case Begin(x, id) =>
      var w1 := WithLocal(w, p, x, id);
      Move(w1, p, t, th.(phase := Waiting(Frame(x, w1.locals[(p, x)], None, false))))
    case Acquire =>
      var f := th.phase.f;
      Move(w.(rlocks := w.rlocks[(p, f.lock) := Taken(w.rlocks[(p, f.lock)], t)]), p, t, th.(phase := Checking(f)))
    case GiveUp =>
      Move(w, p, t, th.(phase := Idle))
    case Check =>
      var f := th.phase.f;
      var k := (p, f.path, t);
      if k in w.held
      then Move(w.(held := EnterHeld(w.held, k)), p, t, Thread(th.bodies + [f.(reentrant := true)], Idle))
      else Move(w, p, t, th.(phase := Opening(f)))
    case Open(h) =>
      var f := th.phase.f;
      Move(w.(open := w.open[h := Opener(p, t, f.path)]), p, t, th.(phase := Polling(f.(handle := Some(h)))))
    case Fail =>
      Move(w, p, t, th.(phase := Settling(th.phase.f, false)))
    case TryLock =>
      var f := th.phase.f;
      if f.path in w.os then w
      else Move(w.(os := w.os[f.path := f.handle.value]), p, t, th.(phase := Registering(f)))
    case Register =>
      var f := th.phase.f;
      Move(w.(held := w.held[(p, f.path, t) := (f.handle.value, 1)]), p, t, Thread(th.bodies + [f], Idle))
    case Exit =>
      var n := |th.bodies| - 1;
      Move(w, p, t, Thread(th.bodies[..n], Settling(th.bodies[n], true)))
    case Settle =>
      var f := th.phase.f;
      var k := (p, f.path, t);
      var release := ToRelease(w.held, k);
      Move(w.(held := LeaveHeld(w.held, k)), p, t, th.(phase :=
        if release.Some? then Unlocking(f, release.value)
        else if f.handle.Some? && !f.reentrant then Closing(f, f.handle.value)
        else Leaving(f)))
    case Unlock =>
      var f, h := th.phase.f, th.phase.release;
      Move(w.(os := Without(w.os, f.path, h)), p, t, th.(phase := Closing(f, h)))
    case Close =>
      var f, h := th.phase.f, th.phase.release;
      Move(w.(os := Without(w.os, f.path, h), open := w.open - {h}), p, t, th.(phase := Leaving(f)))
    case Leave =>
      var f := th.phase.f;
      Move(w.(rlocks := w.rlocks[(p, f.lock) := Dropped(w.rlocks[(p, f.lock)])]), p, t, th.(phase := Idle))
  }

  predicate Enabled(w: World, e: Event) {
    match e
    case Spawn(p, t) => (p, t) !in w.threads
    case End(p, t) => (p, t) in w.threads && w.threads[(p, t)] == Thread([], Idle)
    case Crash(p) => true
    case Act(p, t, a) => CanAct(w, p, t, a)
  }

  // The operating system closes a dead process's files, which drops their locks.
  function Crashed(w: World, p: Proc): World {
    World(
      map k | k in w.locals && k.0 != p :: w.locals[k],
      map k | k in w.rlocks && k.0 != p :: w.rlocks[k],
      map k | k in w.held && k.0 != p :: w.held[k],
      map h | h in w.open && w.open[h].p != p :: w.open[h],
      map x | x in w.os && !(w.os[x] in w.open && w.open[w.os[x]].p == p) :: w.os[x],
      map k | k in w.threads && k.0 != p :: w.threads[k])
  }

  function Next(w: World, e: Event): World
    requires Enabled(w, e)
  {
    match e
    case Spawn(p, t) => Move(w, p, t, Thread([], Idle))
    case End(p, t) => w.(threads := w.threads - {(p, t)})
    case Crash(p) => Crashed(w, p)
    case Act(p, t, a) => Did(w, p, t, a)
  }

  ghost predicate IsStep(w: World, w': World) { exists e :: Enabled(w, e) && w' == Next(w, e) }

  // A run: the worlds it goes through, from the one with nothing in it.
  ghost predicate IsRun(ws: seq<World>) {
    ws != [] && ws[0] == START &&
    forall i :: 0 <= i < |ws| - 1 ==> IsStep(ws[i], ws[i + 1])
  }

  // One thread's actions, one after the other, with no step of another between.
  predicate CanActs(w: World, p: Proc, t: Tid, acts: seq<Action>)
    decreases |acts|
  {
    acts == [] || (CanAct(w, p, t, acts[0]) && CanActs(Did(w, p, t, acts[0]), p, t, acts[1..]))
  }

  function Acted(w: World, p: Proc, t: Tid, acts: seq<Action>): World
    requires CanActs(w, p, t, acts)
    decreases |acts|
  {
    if acts == [] then w else Acted(Did(w, p, t, acts[0]), p, t, acts[1..])
  }

  // ---------- What a thread has of a path ----------

  function Depth(bodies: seq<Frame>, x: Path): nat {
    if bodies == [] then 0
    else Depth(bodies[..|bodies| - 1], x) + if bodies[|bodies| - 1].path == x then 1 else 0
  }

  // The handle the outermost body on `x` opened.
  function FirstHandle(bodies: seq<Frame>, x: Path): Option<Handle> {
    if bodies == [] then None
    else if Depth(bodies[..|bodies| - 1], x) > 0 then FirstHandle(bodies[..|bodies| - 1], x)
    else if bodies[|bodies| - 1].path == x then bodies[|bodies| - 1].handle else None
  }

  predicate On(ph: Phase, x: Path) { !ph.Idle? && ph.f.path == x }

  predicate HasLocal(ph: Phase, x: Path) { On(ph, x) && !ph.Waiting? }

  function PhaseHandle(ph: Phase, x: Path): Option<Handle> {
    if !On(ph, x) then None
    else if ph.Polling? || ph.Registering? || ph.Settling? then ph.f.handle
    else if ph.Unlocking? || ph.Closing? then Some(ph.release) else None
  }

  predicate PhaseOs(ph: Phase, x: Path) {
    On(ph, x) && (ph.Registering? || (ph.Settling? && ph.entered) || ph.Unlocking?)
  }

  /** Levels of the local lock, nesting level in the table, open handle, operating-system lock. */
  datatype Footprint = Footprint(uses: nat, count: nat, handle: Option<Handle>, os: bool)

  const NOTHING: Footprint := Footprint(0, 0, None, false)

  function Foot(th: Thread, x: Path): Footprint {
    var d := Depth(th.bodies, x);
    Footprint(
      d + (if HasLocal(th.phase, x) then 1 else 0),
      d + (if On(th.phase, x) && th.phase.Settling? && th.phase.entered then 1 else 0),
      if d > 0 then FirstHandle(th.bodies, x) else PhaseHandle(th.phase, x),
      d > 0 || PhaseOs(th.phase, x))
  }

  function FootAt(w: World, p: Proc, t: Tid, x: Path): Footprint {
    if (p, t) in w.threads then Foot(w.threads[(p, t)], x) else NOTHING
  }

  // ---------- The invariant ----------

  // A nested body has no handle of its own; the outermost has one.
  predicate FrameOk(below: seq<Frame>, f: Frame) {
    f.reentrant == (Depth(below, f.path) > 0) && f.handle.Some? == !f.reentrant
  }

  predicate Nested(bodies: seq<Frame>) {
    bodies == [] || (Nested(bodies[..|bodies| - 1]) && FrameOk(bodies[..|bodies| - 1], bodies[|bodies| - 1]))
  }

  predicate PhaseOk(th: Thread) {
    var ph := th.phase;
    match ph
    case Idle => true
    case Waiting(f) => f.handle == None && !f.reentrant
    case Checking(f) => f.handle == None && !f.reentrant
    case Opening(f) => f.handle == None && !f.reentrant && Depth(th.bodies, f.path) == 0
    case Polling(f) => f.handle.Some? && !f.reentrant && Depth(th.bodies, f.path) == 0
    case Registering(f) => f.handle.Some? && !f.reentrant && Depth(th.bodies, f.path) == 0
    case Settling(f, entered) =>
      if entered then FrameOk(th.bodies, f) else !f.reentrant && Depth(th.bodies, f.path) == 0
    case Unlocking(f, _) => Depth(th.bodies, f.path) == 0
    case Closing(f, _) => Depth(th.bodies, f.path) == 0
    case Leaving(f) => true
  }

  predicate LockIs(w: World, p: Proc, f: Frame) {
    (p, f.path) in w.locals && w.locals[(p, f.path)] == f.lock
  }

  ghost predicate ThreadOk(w: World, p: Proc, th: Thread) {
    && Nested(th.bodies) && PhaseOk(th)
    && (forall i :: 0 <= i < |th.bodies| ==> LockIs(w, p, th.bodies[i]))
    && (!th.phase.Idle? ==> LockIs(w, p, th.phase.f))
  }

  // Each path of a process has a local lock of its own.
  ghost predicate LocalsOk(w: World) {
    && (forall k :: k in w.locals ==> (k.0, w.locals[k]) in w.rlocks)
    && (forall k, j :: k in w.locals && j in w.locals && k.0 == j.0 && w.locals[k] == w.locals[j] ==> k == j)
  }

  function LockOf(w: World, p: Proc, x: Path): RLock {
    if (p, x) in w.locals && (p, w.locals[(p, x)]) in w.rlocks then w.rlocks[(p, w.locals[(p, x)])] else FREE
  }

  /** The three layers agree on what the thread has of the path. */
  ghost predicate Agree(w: World, p: Proc, t: Tid, x: Path) {
    var f := FootAt(w, p, t, x);
    && (f.uses > 0 <==> LockOf(w, p, x).owner == Some(t))
    && (f.uses > 0 ==> LockOf(w, p, x).count == f.uses)
    && ((p, x, t) in w.held <==> f.count > 0)
    && (f.count > 0 ==> f.handle == Some(w.held[(p, x, t)].0) && w.held[(p, x, t)].1 == f.count)
    && (f.handle.Some? ==> f.handle.value in w.open && w.open[f.handle.value] == Opener(p, t, x))
    && (f.os ==> x in w.os && f.handle == Some(w.os[x]))
  }

  // No handle is open, and no file locked, but by the thread that has it in its footprint.
  ghost predicate OpenOk(w: World, h: Handle) {
    h in w.open ==> FootAt(w, w.open[h].p, w.open[h].t, w.open[h].path).handle == Some(h)
  }

  ghost predicate OsOk(w: World, x: Path) {
    x in w.os ==>
      w.os[x] in w.open && w.open[w.os[x]].path == x && FootAt(w, w.open[w.os[x]].p, w.open[w.os[x]].t, x).os
  }

  ghost predicate FreeOk(w: World, p: Proc, x: Path) {
    LockOf(w, p, x).owner == None ==> LockOf(w, p, x).count == 0
  }

  ghost predicate Inv(w: World) {
    && LocalsOk(w)
    && (forall p, t :: (p, t) in w.threads ==> ThreadOk(w, p, w.threads[(p, t)]))
    && (forall p, t, x :: Agree(w, p, t, x))
    && (forall h :: OpenOk(w, h))
    && (forall x :: OsOk(w, x))
    && (forall p, x :: FreeOk(w, p, x))
  }

  // ---------- A step touches one thread's share of one path ----------

  ghost predicate SameLocks(w: World, w': World, p: Proc, t: Tid, x: Path) {
    && (forall k :: k in w.locals ==> k in w'.locals && w'.locals[k] == w.locals[k])
    && (forall q, y :: (q, y) != (p, x) ==> LockOf(w', q, y) == LockOf(w, q, y))
    && (LockOf(w', p, x) == LockOf(w, p, x) ||
        (LockOf(w, p, x).owner in {None, Some(t)} && LockOf(w', p, x).owner in {None, Some(t)}))
  }

  ghost predicate SameThreads(w: World, w': World, p: Proc, t: Tid, x: Path) {
    && (p, t) in w.threads && (p, t) in w'.threads
    && w'.threads == w.threads[(p, t) := w'.threads[(p, t)]]
    && (forall y :: y != x ==> FootAt(w', p, t, y) == FootAt(w, p, t, y))
  }

  ghost predicate SameHeld(w: World, w': World, p: Proc, t: Tid, x: Path) {
    forall k :: k != (p, x, t) ==> ((k in w'.held <==> k in w.held) && (k in w.held ==> w'.held[k] == w.held[k]))
  }

  ghost predicate SameOpen(w: World, w': World, p: Proc, t: Tid, x: Path) {
    && (forall h :: h in w.open && w.open[h] != Opener(p, t, x) ==> h in w'.open && w'.open[h] == w.open[h])
    && (forall h :: h in w'.open && w'.open[h] != Opener(p, t, x) ==> h in w.open && w'.open[h] == w.open[h])
  }

  ghost predicate SameOs(w: World, w': World, p: Proc, t: Tid, x: Path) {
    && (forall y :: y != x ==> ((y in w'.os <==> y in w.os) && (y in w.os ==> w'.os[y] == w.os[y])))
    && (((x in w.os <==> x in w'.os) && (x in w.os ==> w'.os[x] == w.os[x])) || x !in w.os || FootAt(w, p, t, x).os)
  }

  ghost predicate TouchesOnly(w: World, w': World, p: Proc, t: Tid, x: Path) {
    SameLocks(w, w', p, t, x) && SameThreads(w, w', p, t, x) && SameHeld(w, w', p, t, x) &&
    SameOpen(w, w', p, t, x) && SameOs(w, w', p, t, x)
  }

  lemma {:induction false} FootElsewhere(w: World, w': World, p: Proc, t: Tid, x: Path, q: Proc, s: Tid, y: Path)
    requires SameThreads(w, w', p, t, x) && (q, s, y) != (p, t, x)
    ensures FootAt(w', q, s, y) == FootAt(w, q, s, y)
  {
    hide Foot;
  }

  lemma {:induction false} AgreeElsewhere(w: World, w': World, p: Proc, t: Tid, x: Path, q: Proc, s: Tid, y: Path)
    requires TouchesOnly(w, w', p, t, x) && (q, s, y) != (p, t, x)
    requires Agree(w, q, s, y) && Agree(w, p, t, x)
    ensures Agree(w', q, s, y)
  {
    hide FootAt, LockOf;
    FootElsewhere(w, w', p, t, x, q, s, y);
    var f := FootAt(w, q, s, y);
    if f.handle.Some? {
      var h := f.handle.value;
      assert h in w.open && w.open[h] == Opener(q, s, y) != Opener(p, t, x);
      assert h in w'.open;
    }
  }

  lemma {:induction false} KeepsInv(w: World, w': World, p: Proc, t: Tid, x: Path)
    requires Inv(w) && TouchesOnly(w, w', p, t, x)
    requires LocalsOk(w') && ThreadOk(w', p, w'.threads[(p, t)])
    requires Agree(w', p, t, x) && FreeOk(w', p, x) && OsOk(w', x)
    requires forall h :: h in w'.open && w'.open[h] == Opener(p, t, x) ==> FootAt(w', p, t, x).handle == Some(h)
    ensures Inv(w')
  {
    hide Agree, ThreadOk, FootAt, LockOf, LocalsOk;
    forall q, s | (q, s) in w'.threads ensures ThreadOk(w', q, w'.threads[(q, s)]) {
      if (q, s) != (p, t) { ThreadElsewhere(w, w', q, w.threads[(q, s)]); }
    }
    forall q, s, y ensures Agree(w', q, s, y) {
      if (q, s, y) != (p, t, x) { AgreeElsewhere(w, w', p, t, x, q, s, y); }
    }
    forall h ensures OpenOk(w', h) {
      if h in w'.open && w'.open[h] != Opener(p, t, x) {
        var o := w.open[h];
        assert OpenOk(w, h);
        FootElsewhere(w, w', p, t, x, o.p, o.t, o.path);
      }
    }
    forall y ensures OsOk(w', y) {
      if y != x && y in w'.os {
        assert OsOk(w, y);
        FootElsewhere(w, w', p, t, x, w.open[w.os[y]].p, w.open[w.os[y]].t, y);
      }
    }
    forall q, y ensures FreeOk(w', q, y) {
      if (q, y) != (p, x) { assert FreeOk(w, q, y); }
    }
  }

  lemma {:induction false} ThreadElsewhere(w: World, w': World, p: Proc, th: Thread)
    requires ThreadOk(w, p, th)
    requires forall k :: k in w.locals ==> k in w'.locals && w'.locals[k] == w.locals[k]
    ensures ThreadOk(w', p, th)
  {
    hide Nested, PhaseOk;
  }

  // ---------- Every step keeps the invariant ----------

  lemma {:induction false} Pushed(bodies: seq<Frame>, f: Frame, y: Path)
    ensures Depth(bodies + [f], y) == Depth(bodies, y) + if f.path == y then 1 else 0
    ensures FirstHandle(bodies + [f], y) ==
      if Depth(bodies, y) > 0 then FirstHandle(bodies, y) else if f.path == y then f.handle else None
    ensures Nested(bodies + [f]) <==> Nested(bodies) && FrameOk(bodies, f)
  {
    assert (bodies + [f])[..|bodies|] == bodies;
  }

  // A step within one call on `x` changes the thread only there.
  lemma {:induction false} CallMoves(w: World, w': World, p: Proc, t: Tid, x: Path)
    requires (p, t) in w.threads && (p, t) in w'.threads
    requires w'.threads == w.threads[(p, t) := w'.threads[(p, t)]]
    requires var a, b := w.threads[(p, t)], w'.threads[(p, t)];
      a.bodies == b.bodies && (a.phase.Idle? || a.phase.f.path == x) && (b.phase.Idle? || b.phase.f.path == x)
    ensures SameThreads(w, w', p, t, x)
  {
    hide Depth, FirstHandle;
  }

  // So does a step into a body, or out of it.
  lemma {:induction false} BodyMoves(w: World, w': World, p: Proc, t: Tid, f: Frame)
    requires (p, t) in w.threads && (p, t) in w'.threads
    requires w'.threads == w.threads[(p, t) := w'.threads[(p, t)]]
    requires var a, b := w.threads[(p, t)], w'.threads[(p, t)];
      && (b.bodies == a.bodies + [f] || a.bodies == b.bodies + [f])
      && (a.phase.Idle? || a.phase.f.path == f.path) && (b.phase.Idle? || b.phase.f.path == f.path)
    ensures SameThreads(w, w', p, t, f.path)
  {
    hide Depth, FirstHandle;
    var a, b := w.threads[(p, t)], w'.threads[(p, t)];
    forall y | y != f.path ensures Foot(a, y) == Foot(b, y) {
      if b.bodies == a.bodies + [f] { Pushed(a.bodies, f, y); } else { Pushed(b.bodies, f, y); }
    }
  }

  lemma {:induction false} NewLocal(w: World, p: Proc, x: Path, id: LockId)
    requires LocalsOk(w) && ((p, x) in w.locals || (p, id) !in w.rlocks)
    ensures LocalsOk(WithLocal(w, p, x, id))
    ensures forall q, y :: LockOf(WithLocal(w, p, x, id), q, y) == LockOf(w, q, y)
  {
  }

  lemma {:induction false} SetLock(w: World, w': World, p: Proc, x: Path, l: RLock)
    requires LocalsOk(w) && (p, x) in w.locals && w'.locals == w.locals
    requires w'.rlocks == w.rlocks[(p, w.locals[(p, x)]) := l]
    ensures LocalsOk(w') && LockOf(w', p, x) == l
    ensures forall q, y :: (q, y) != (p, x) ==> LockOf(w', q, y) == LockOf(w, q, y)
  {
    assert (p, x) in w'.locals && (p, w'.locals[(p, x)]) in w'.rlocks;
    forall q, y | (q, y) != (p, x) ensures LockOf(w', q, y) == LockOf(w, q, y) {
      if (q, y) in w.locals && (q, w.locals[(q, y)]) == (p, w.locals[(p, x)]) {
      }
    }
  }

  // What the invariant says of one thread and path.
  lemma {:induction false} At(w: World, p: Proc, t: Tid, x: Path)
    requires Inv(w) && (p, t) in w.threads
    ensures ThreadOk(w, p, w.threads[(p, t)]) && Agree(w, p, t, x) && FreeOk(w, p, x) && OsOk(w, x)
    ensures FootAt(w, p, t, x) == Foot(w.threads[(p, t)], x)
    ensures LocalsOk(w)
    ensures forall h :: h in w.open && w.open[h] == Opener(p, t, x) ==> FootAt(w, p, t, x).handle == Some(h)
  {
    hide FootAt, Agree, ThreadOk, LocalsOk, LockOf;
    forall h | h in w.open && w.open[h] == Opener(p, t, x) ensures FootAt(w, p, t, x).handle == Some(h) {
      assert OpenOk(w, h);
    }
    FootIs(w, p, t, x);
  }

  lemma FootIs(w: World, p: Proc, t: Tid, x: Path)
    requires (p, t) in w.threads
    ensures FootAt(w, p, t, x) == Foot(w.threads[(p, t)], x)
  {
  }

  lemma {:induction false} BeginKeeps(w: World, p: Proc, t: Tid, x: Path, id: LockId)
    requires Inv(w) && CanAct(w, p, t, Begin(x, id))
    ensures Inv(Did(w, p, t, Begin(x, id)))
  {
    hide Nested, Depth, FirstHandle, LockOf, LocalsOk, Inv, FrameOk;
    var w', th := Did(w, p, t, Begin(x, id)), w.threads[(p, t)];
    At(w, p, t, x);
    NewLocal(w, p, x, id);
    CallMoves(w, w', p, t, x);
    SameTables(WithLocal(w, p, x, id), w');
    assert FootAt(w', p, t, x) == FootAt(w, p, t, x);
    KeepsInv(w, w', p, t, x);
  }

  lemma {:induction false} SameTables(w: World, w': World)
    requires w'.locals == w.locals && w'.rlocks == w.rlocks
    ensures LocalsOk(w) ==> LocalsOk(w')
    ensures forall q, y :: LockOf(w', q, y) == LockOf(w, q, y)
  {
  }

  lemma {:induction false} AcquireKeeps(w: World, p: Proc, t: Tid)
    requires Inv(w) && CanAct(w, p, t, Acquire)
    ensures Inv(Did(w, p, t, Acquire))
  {
    hide Nested, Depth, FirstHandle, LockOf, LocalsOk, Inv;
    var w', th := Did(w, p, t, Acquire), w.threads[(p, t)];
    var f := th.phase.f;
    At(w, p, t, f.path);
    CallMoves(w, w', p, t, f.path);
    LockFound(w, p, f);
    SetLock(w, w', p, f.path, Taken(w.rlocks[(p, f.lock)], t));
    KeepsInv(w, w', p, t, f.path);
  }

  lemma {:induction false} LockFound(w: World, p: Proc, f: Frame)
    requires LockIs(w, p, f) && LocalsOk(w)
    ensures (p, f.lock) in w.rlocks && LockOf(w, p, f.path) == w.rlocks[(p, f.lock)]
  {
  }

  lemma {:induction false} LeaveKeeps(w: World, p: Proc, t: Tid)
    requires Inv(w) && CanAct(w, p, t, Leave)
    ensures Inv(Did(w, p, t, Leave))
  {
    hide Nested, Depth, FirstHandle, LockOf, LocalsOk, Inv;
    var w', th := Did(w, p, t, Leave), w.threads[(p, t)];
    var f := th.phase.f;
    At(w, p, t, f.path);
    CallMoves(w, w', p, t, f.path);
    LockFound(w, p, f);
    SetLock(w, w', p, f.path, Dropped(w.rlocks[(p, f.lock)]));
    KeepsInv(w, w', p, t, f.path);
  }

  // Giving up and failing only move the thread.
  lemma {:induction false} QuietKeeps(w: World, p: Proc, t: Tid, a: Action)
    requires Inv(w) && CanAct(w, p, t, a) && (a.GiveUp? || a.Fail?)
    ensures Inv(Did(w, p, t, a))
  {
    hide Nested, Depth, FirstHandle, LockOf, LocalsOk, Inv;
    var w', th := Did(w, p, t, a), w.threads[(p, t)];
    var x := th.phase.f.path;
    At(w, p, t, x);
    CallMoves(w, w', p, t, x);
    SameTables(w, w');
    assert FootAt(w', p, t, x) == FootAt(w, p, t, x);
    KeepsInv(w, w', p, t, x);
  }

  lemma {:induction false} CheckKeeps(w: World, p: Proc, t: Tid)
    requires Inv(w) && CanAct(w, p, t, Check)
    ensures Inv(Did(w, p, t, Check))
  {
    hide Nested, Depth, FirstHandle, LockOf, LocalsOk, Inv;
    var w', th := Did(w, p, t, Check), w.threads[(p, t)];
    var f := th.phase.f;
    At(w, p, t, f.path);
    SameTables(w, w');
    if (p, f.path, t) in w.held {
      CheckNested(w, w', p, t);
    } else {
      CallMoves(w, w', p, t, f.path);
      KeepsInv(w, w', p, t, f.path);
    }
  }

  lemma {:induction false} CheckNested(w: World, w': World, p: Proc, t: Tid)
    requires Inv(w) && CanAct(w, p, t, Check) && w' == Did(w, p, t, Check)
    requires (p, w.threads[(p, t)].phase.f.path, t) in w.held
    ensures Inv(w')
  {
    hide Nested, Depth, FirstHandle, LockOf, LocalsOk, Inv;
    var th := w.threads[(p, t)];
    var x, f := th.phase.f.path, th.phase.f.(reentrant := true);
    At(w, p, t, x);
    SameTables(w, w');
    Pushed(th.bodies, f, x);
    BodyMoves(w, w', p, t, f);
    KeepsInv(w, w', p, t, x);
  }

  lemma {:induction false} OpenKeeps(w: World, p: Proc, t: Tid, h: Handle)
    requires Inv(w) && CanAct(w, p, t, Open(h))
    ensures Inv(Did(w, p, t, Open(h)))
  {
    hide Nested, Depth, FirstHandle, LockOf, LocalsOk, Inv;
    var w', th := Did(w, p, t, Open(h)), w.threads[(p, t)];
    var f := th.phase.f;
    At(w, p, t, f.path);
    SameTables(w, w');
    CallMoves(w, w', p, t, f.path);
    KeepsInv(w, w', p, t, f.path);
  }

  lemma {:induction false} TryLockKeeps(w: World, p: Proc, t: Tid)
    requires Inv(w) && CanAct(w, p, t, TryLock)
    ensures Inv(Did(w, p, t, TryLock))
  {
    hide Nested, Depth, FirstHandle, LockOf, LocalsOk, Inv;
    var w', th := Did(w, p, t, TryLock), w.threads[(p, t)];
    var f := th.phase.f;
    if f.path !in w.os {
      At(w, p, t, f.path);
      SameTables(w, w');
      CallMoves(w, w', p, t, f.path);
      KeepsInv(w, w', p, t, f.path);
    }
  }

  lemma {:induction false} RegisterKeeps(w: World, p: Proc, t: Tid)
    requires Inv(w) && CanAct(w, p, t, Register)
    ensures Inv(Did(w, p, t, Register))
  {
    hide Nested, Depth, FirstHandle, LockOf, LocalsOk, Inv;
    var w', th := Did(w, p, t, Register), w.threads[(p, t)];
    var f := th.phase.f;
    At(w, p, t, f.path);
    SameTables(w, w');
    Pushed(th.bodies, f, f.path);
    BodyMoves(w, w', p, t, f);
    KeepsInv(w, w', p, t, f.path);
  }

  lemma {:induction false} ExitKeeps(w: World, p: Proc, t: Tid)
    requires Inv(w) && CanAct(w, p, t, Exit)
    ensures Inv(Did(w, p, t, Exit))
  {
    hide Nested, Depth, FirstHandle, LockOf, LocalsOk, Inv;
    var w', th := Did(w, p, t, Exit), w.threads[(p, t)];
    var n := |th.bodies| - 1;
    var f := th.bodies[n];
    assert th.bodies == th.bodies[..n] + [f];
    At(w, p, t, f.path);
    SameTables(w, w');
    Pushed(th.bodies[..n], f, f.path);
    BodyMoves(w, w', p, t, f);
    KeepsInv(w, w', p, t, f.path);
  }

  lemma {:induction false} SettleKeeps(w: World, p: Proc, t: Tid)
    requires Inv(w) && CanAct(w, p, t, Settle)
    ensures Inv(Did(w, p, t, Settle))
  {
    hide Nested, Depth, FirstHandle, LockOf, LocalsOk, Inv;
    var w', th := Did(w, p, t, Settle), w.threads[(p, t)];
    var f := th.phase.f;
    At(w, p, t, f.path);
    SameTables(w, w');
    CallMoves(w, w', p, t, f.path);
    KeepsInv(w, w', p, t, f.path);
  }

  lemma {:induction false} UnlockKeeps(w: World, p: Proc, t: Tid)
    requires Inv(w) && CanAct(w, p, t, Unlock)
    ensures Inv(Did(w, p, t, Unlock))
  {
    hide Nested, Depth, FirstHandle, LockOf, LocalsOk, Inv;
    var w', th := Did(w, p, t, Unlock), w.threads[(p, t)];
    var f := th.phase.f;
    At(w, p, t, f.path);
    SameTables(w, w');
    CallMoves(w, w', p, t, f.path);
    KeepsInv(w, w', p, t, f.path);
  }

  lemma {:induction false} CloseKeeps(w: World, p: Proc, t: Tid)
    requires Inv(w) && CanAct(w, p, t, Close)
    ensures Inv(Did(w, p, t, Close))
  {
    hide Nested, Depth, FirstHandle, LockOf, LocalsOk, Inv;
    var w', th := Did(w, p, t, Close), w.threads[(p, t)];
    var f := th.phase.f;
    At(w, p, t, f.path);
    SameTables(w, w');
    CallMoves(w, w', p, t, f.path);
    KeepsInv(w, w', p, t, f.path);
  }

  lemma {:induction false} ActKeeps(w: World, p: Proc, t: Tid, a: Action)
    requires Inv(w) && CanAct(w, p, t, a)
    ensures Inv(Did(w, p, t, a))
  {
    hide Inv, CanAct, Did;
    match a
    case Begin(x, id) => BeginKeeps(w, p, t, x, id);
    case Acquire => AcquireKeeps(w, p, t);
    case GiveUp => QuietKeeps(w, p, t, a);
    case Check => CheckKeeps(w, p, t);
    case Open(h) => OpenKeeps(w, p, t, h);
    case Fail => QuietKeeps(w, p, t, a);
    case TryLock => TryLockKeeps(w, p, t);
    case Register => RegisterKeeps(w, p, t);
    case Exit => ExitKeeps(w, p, t);
    case Settle => SettleKeeps(w, p, t);
    case Unlock => UnlockKeeps(w, p, t);
    case Close => CloseKeeps(w, p, t);
    case Leave => LeaveKeeps(w, p, t);
  }

  lemma NewThread(x: Path)
    ensures Foot(Thread([], Idle), x) == NOTHING
  {
  }

  // Adding or removing a thread that is in no call changes nothing else.
  lemma {:induction false} SameFeet(w: World, w': World)
    requires Inv(w) && w' == w.(threads := w'.threads)
    requires forall p, t, x :: FootAt(w', p, t, x) == FootAt(w, p, t, x)
    requires forall p, t :: (p, t) in w'.threads ==> ThreadOk(w, p, w'.threads[(p, t)])
    ensures Inv(w')
  {
    hide FootAt, ThreadOk;
    SameTables(w, w');
    hide LocalsOk, LockOf;
    forall p, t | (p, t) in w'.threads ensures ThreadOk(w', p, w'.threads[(p, t)]) {
      ThreadElsewhere(w, w', p, w'.threads[(p, t)]);
    }
    forall p, t, x ensures Agree(w', p, t, x) { assert Agree(w, p, t, x); }
    forall h ensures OpenOk(w', h) { assert OpenOk(w, h); }
    forall x ensures OsOk(w', x) { assert OsOk(w, x); }
    forall p, x ensures FreeOk(w', p, x) { assert FreeOk(w, p, x); }
  }

  // What the shared tables hold for one thread and path.
  ghost predicate SameShare(w: World, w': World, p: Proc, t: Tid, x: Path) {
    && (LockOf(w, p, x).owner == Some(t) <==> LockOf(w', p, x).owner == Some(t))
    && (LockOf(w, p, x).owner == Some(t) ==> LockOf(w', p, x) == LockOf(w, p, x))
    && ((p, x, t) in w.held <==> (p, x, t) in w'.held)
    && ((p, x, t) in w.held ==> w.held[(p, x, t)] == w'.held[(p, x, t)])
    && (forall h :: h in w.open && w.open[h] == Opener(p, t, x) <==> h in w'.open && w'.open[h] == Opener(p, t, x))
    && (forall h :: h in w.open && w.open[h] == Opener(p, t, x) ==>
          ((x in w.os && w.os[x] == h) <==> (x in w'.os && w'.os[x] == h)))
  }

  lemma {:induction false} CrashSame(w: World, p: Proc, q: Proc)
    ensures forall t, x :: FootAt(Crashed(w, p), q, t, x) == if q == p then NOTHING else FootAt(w, q, t, x)
    ensures forall x :: LockOf(Crashed(w, p), q, x) == if q == p then FREE else LockOf(w, q, x)
  {
    hide Foot;
  }

  lemma {:induction false} CrashAgrees(w: World, p: Proc, q: Proc, t: Tid, x: Path)
    requires Agree(w, q, t, x)
    ensures Agree(Crashed(w, p), q, t, x)
  {
    CrashSame(w, p, q);
    hide FootAt, LockOf;
  }

  lemma {:induction false} CrashKeeps(w: World, p: Proc)
    requires Inv(w)
    ensures Inv(Crashed(w, p))
    ensures forall x :: x in w.os && w.os[x] in w.open && w.open[w.os[x]].p == p ==> x !in Crashed(w, p).os
    ensures forall q, t :: q != p && (q, t) in w.threads ==>
      (q, t) in Crashed(w, p).threads && Crashed(w, p).threads[(q, t)] == w.threads[(q, t)]
    ensures forall q, t, x :: q != p ==> SameShare(w, Crashed(w, p), q, t, x)
  {
    hide FootAt, LockOf, Agree, ThreadOk;
    forall q, t, x | q != p ensures SameShare(w, Crashed(w, p), q, t, x) { CrashSame(w, p, q); }
    var w' := Crashed(w, p);
    forall q, t | (q, t) in w'.threads ensures ThreadOk(w', q, w'.threads[(q, t)]) {
      CrashThread(w, p, q, t);
    }
    forall q, t, x ensures Agree(w', q, t, x) { CrashAgrees(w, p, q, t, x); }
    forall h ensures OpenOk(w', h) {
      assert OpenOk(w, h);
      if h in w'.open { CrashSame(w, p, w.open[h].p); }
    }
    forall x ensures OsOk(w', x) {
      assert OsOk(w, x);
      if x in w'.os { CrashSame(w, p, w.open[w.os[x]].p); }
    }
    forall q, x ensures FreeOk(w', q, x) { CrashSame(w, p, q); assert FreeOk(w, q, x); }
  }

  lemma {:induction false} CrashThread(w: World, p: Proc, q: Proc, t: Tid)
    requires (q, t) in w.threads && ThreadOk(w, q, w.threads[(q, t)]) && q != p
    ensures ThreadOk(Crashed(w, p), q, w.threads[(q, t)])
  {
    hide Nested, PhaseOk;
  }

  /** Every step of every thread, every crash, keeps the three layers in agreement. */
  lemma {:induction false} StepKeeps(w: World, e: Event)
    requires Inv(w) && Enabled(w, e)
    ensures Inv(Next(w, e))
  {
    hide Inv, Did, CanAct, Crashed;
    match e
    case Spawn(p, t) => SpawnKeeps(w, p, t);
    case End(p, t) => EndKeeps(w, p, t);
    case Crash(p) => CrashKeeps(w, p);
    case Act(p, t, a) => ActKeeps(w, p, t, a);
  }

  lemma {:induction false} SpawnKeeps(w: World, p: Proc, t: Tid)
    requires Inv(w) && (p, t) !in w.threads
    ensures Inv(Move(w, p, t, Thread([], Idle)))
  {
    hide Foot;
    forall x ensures Foot(Thread([], Idle), x) == NOTHING { NewThread(x); }
    SameFeet(w, Move(w, p, t, Thread([], Idle)));
  }

  lemma {:induction false} EndKeeps(w: World, p: Proc, t: Tid)
    requires Inv(w) && (p, t) in w.threads && w.threads[(p, t)] == Thread([], Idle)
    ensures Inv(w.(threads := w.threads - {(p, t)}))
  {
    hide Foot;
    forall x ensures Foot(Thread([], Idle), x) == NOTHING { NewThread(x); }
    SameFeet(w, w.(threads := w.threads - {(p, t)}));
  }

  lemma {:induction false} RunKeeps(ws: seq<World>, i: nat)
    requires IsRun(ws) && i < |ws|
    ensures Inv(ws[i])
  {
    if i > 0 {
      RunKeeps(ws, i - 1);
      hide Inv, Enabled, Next;
      assert IsStep(ws[i - 1], ws[i - 1 + 1]);
      var e :| Enabled(ws[i - 1], e) && ws[i - 1 + 1] == Next(ws[i - 1], e);
      StepKeeps(ws[i - 1], e);
    }
  }

  // ---------- What follows ----------

  lemma {:induction false} DepthCounts(bodies: seq<Frame>, x: Path, i: nat)
    requires i < |bodies| && bodies[i].path == x
    ensures Depth(bodies, x) > 0
  {
    if i < |bodies| - 1 { DepthCounts(bodies[..|bodies| - 1], x, i); }
  }

  lemma {:induction false} InsideHolds(w: World, p: Proc, t: Tid, x: Path)
    requires Inv(w) && Inside(w, p, t, x)
    ensures x in w.os && w.os[x] in w.open && w.open[w.os[x]] == Opener(p, t, x)
    ensures LockOf(w, p, x).owner == Some(t)
    ensures (p, x, t) in w.held && w.held[(p, x, t)].0 == w.os[x]
  {
    var bodies := w.threads[(p, t)].bodies;
    var i :| 0 <= i < |bodies| && bodies[i].path == x;
    DepthCounts(bodies, x, i);
    assert Agree(w, p, t, x);
  }

  /** Mutual exclusion: at every moment of every run, whatever the interleaving, timeouts, failures
      and crashes, at most one thread of one process is inside a body that holds a path. */
  lemma {:induction false} MutualExclusion(ws: seq<World>, i: nat, p: Proc, t: Tid, q: Proc, s: Tid, x: Path)
    requires IsRun(ws) && i < |ws| && Inside(ws[i], p, t, x) && Inside(ws[i], q, s, x)
    ensures p == q && t == s
  {
    RunKeeps(ws, i);
    InsideHolds(ws[i], p, t, x);
    InsideHolds(ws[i], q, s, x);
  }

  /** Releasing the local lock never raises: its caller owns it. */
  lemma {:induction false} LeaveIsLegal(ws: seq<World>, i: nat, p: Proc, t: Tid)
    requires IsRun(ws) && i < |ws| && (p, t) in ws[i].threads && ws[i].threads[(p, t)].phase.Leaving?
    ensures CanLeave(ws[i], p, t)
  {
    RunKeeps(ws, i);
    var f := ws[i].threads[(p, t)].phase.f;
    At(ws[i], p, t, f.path);
    LockFound(ws[i], p, f);
  }

  /** The `finally` block's reading of the table is right: it releases a handle exactly when the
      call's body ran and was the outermost on the path, and the handle is the one that call opened;
      a call that failed, or a nested one, never gives up a lock held further out. */
  lemma {:induction false} SettleIsRight(ws: seq<World>, i: nat, p: Proc, t: Tid)
    requires IsRun(ws) && i < |ws| && (p, t) in ws[i].threads && ws[i].threads[(p, t)].phase.Settling?
    ensures var th := ws[i].threads[(p, t)];
      var release := ToRelease(ws[i].held, (p, th.phase.f.path, t));
      && (release.Some? <==> th.phase.entered && Depth(th.bodies, th.phase.f.path) == 0)
      && (release.Some? ==> release == th.phase.f.handle)
  {
    RunKeeps(ws, i);
    At(ws[i], p, t, ws[i].threads[(p, t)].phase.f.path);
  }

  /** Re-entrancy: a thread inside a body on the path takes the local lock at once and goes in
      without opening the file again. */
  lemma {:induction false} NestedGoesIn(ws: seq<World>, i: nat, p: Proc, t: Tid, x: Path)
    requires IsRun(ws) && i < |ws| && Inside(ws[i], p, t, x) && On(ws[i].threads[(p, t)].phase, x)
    ensures var ph := ws[i].threads[(p, t)].phase;
      && (ph.Waiting? ==> CanAct(ws[i], p, t, Acquire) && !CanAct(ws[i], p, t, GiveUp))
      && (ph.Checking? ==>
           Inside(Did(ws[i], p, t, Check), p, t, x) && Did(ws[i], p, t, Check).threads[(p, t)].phase.Idle?)
      && !ph.Opening? && !ph.Polling?
  {
    var w := ws[i];
    RunKeeps(ws, i);
    InsideHolds(w, p, t, x);
    At(w, p, t, x);
    var th := w.threads[(p, t)];
    LockFound(w, p, th.phase.f);
    var j :| 0 <= j < |th.bodies| && th.bodies[j].path == x;
    DepthCounts(th.bodies, x, j);
    if th.phase.Checking? {
      hide *;
      CheckGoesIn(w, p, t, x, j);
    }
  }

  lemma {:induction false} CheckGoesIn(w: World, p: Proc, t: Tid, x: Path, j: nat)
    requires (p, t) in w.threads && w.threads[(p, t)].phase.Checking? && w.threads[(p, t)].phase.f.path == x
    requires j < |w.threads[(p, t)].bodies| && w.threads[(p, t)].bodies[j].path == x && (p, x, t) in w.held
    ensures CanAct(w, p, t, Check)
    ensures Inside(Did(w, p, t, Check), p, t, x) && Did(w, p, t, Check).threads[(p, t)].phase.Idle?
  {
    assert Did(w, p, t, Check).threads[(p, t)].bodies[j].path == x;
  }

  /** Between calls, the table's count for a path is the thread's nesting depth on it. */
  lemma {:induction false} CountIsDepth(ws: seq<World>, i: nat, p: Proc, t: Tid, x: Path)
    requires IsRun(ws) && i < |ws| && (p, t) in ws[i].threads && ws[i].threads[(p, t)].phase.Idle?
    ensures var d := Depth(ws[i].threads[(p, t)].bodies, x);
      && ((p, x, t) in ws[i].held <==> d > 0)
      && (d > 0 ==> ws[i].held[(p, x, t)].1 == d && LockOf(ws[i], p, x) == RLock(Some(t), d))
      && (d == 0 ==> LockOf(ws[i], p, x).owner != Some(t))
  {
    RunKeeps(ws, i);
    At(ws[i], p, t, x);
  }

  lemma {:induction false} ShareFromFoot(w: World, w': World, p: Proc, t: Tid, x: Path)
    requires Inv(w) && Inv(w') && FootAt(w, p, t, x) == FootAt(w', p, t, x)
    ensures SameShare(w, w', p, t, x)
  {
    hide FootAt, LockOf;
    assert Agree(w, p, t, x) && Agree(w', p, t, x);
    forall h ensures h in w.open && w.open[h] == Opener(p, t, x) <==> h in w'.open && w'.open[h] == Opener(p, t, x) {
      assert OpenOk(w, h) && OpenOk(w', h);
    }
    assert OsOk(w, x) && OsOk(w', x);
    forall h | h in w.open && w.open[h] == Opener(p, t, x)
      ensures (x in w.os && w.os[x] == h) <==> (x in w'.os && w'.os[x] == h)
    {
      assert OpenOk(w, h) && OpenOk(w', h);
      assert h in w'.open && w'.open[h] == Opener(p, t, x);
    }
  }

  /** Conservation: whenever a thread is back in the body it was in, after any balanced sequence of
      entries, exits, exceptions and failed acquisitions, its share of every table is restored. */
  lemma {:induction false} BalancedRestores(ws: seq<World>, i: nat, j: nat, p: Proc, t: Tid, x: Path)
    requires IsRun(ws) && i < |ws| && j < |ws|
    requires (p, t) in ws[i].threads && (p, t) in ws[j].threads
    requires ws[i].threads[(p, t)].phase.Idle? && ws[j].threads[(p, t)] == ws[i].threads[(p, t)]
    ensures SameShare(ws[i], ws[j], p, t, x)
  {
    RunKeeps(ws, i);
    RunKeeps(ws, j);
    hide Inv, Foot, SameShare;
    ShareFromFoot(ws[i], ws[j], p, t, x);
  }

  /** When no thread is in a call or a body, nothing is held, open or locked. */
  lemma {:induction false} NothingLeft(ws: seq<World>, i: nat)
    requires IsRun(ws) && i < |ws|
    requires forall k :: k in ws[i].threads ==> ws[i].threads[k] == Thread([], Idle)
    ensures ws[i].held == map[] && ws[i].open == map[] && ws[i].os == map[]
    ensures forall p, x :: LockOf(ws[i], p, x) == FREE
  {
    var w := ws[i];
    RunKeeps(ws, i);
    forall p, t, x ensures FootAt(w, p, t, x) == NOTHING { NewThread(x); }
    hide FootAt, LockOf;
    forall k ensures k !in w.held { assert Agree(w, k.0, k.2, k.1); }
    forall h ensures h !in w.open { assert OpenOk(w, h); }
    forall x ensures x !in w.os { assert OsOk(w, x); }
    forall p, x ensures LockOf(w, p, x) == FREE {
      forall t ensures LockOf(w, p, x).owner != Some(t) { assert Agree(w, p, t, x); }
      assert FreeOk(w, p, x);
    }
  }

  // ---------- Going in, coming out ----------

  /** An attempt on the file takes it if nobody has it locked: one more step and the thread is inside,
      and the lock on the file is by the handle it opened. */
  lemma {:induction false} FreeIsTaken(ws: seq<World>, i: nat, p: Proc, t: Tid)
    requires IsRun(ws) && i < |ws| && (p, t) in ws[i].threads && ws[i].threads[(p, t)].phase.Polling?
    requires ws[i].threads[(p, t)].phase.f.path !in ws[i].os
    ensures CanActs(ws[i], p, t, [TryLock, Register])
    ensures var f, w := ws[i].threads[(p, t)].phase.f, Acted(ws[i], p, t, [TryLock, Register]);
      && Inside(w, p, t, f.path) && w.threads[(p, t)].phase.Idle? && f.handle.Some?
      && w.os == ws[i].os[f.path := f.handle.value] && w.open == ws[i].open
      && w.held == ws[i].held[(p, f.path, t) := (f.handle.value, 1)]
  {
    RunKeeps(ws, i);
    hide *;
    Polls(ws[i], p, t);
    TakesFree(ws[i], p, t);
  }

  /** It stays out, and changes nothing, exactly while another thread's handle has the file locked. */
  lemma {:induction false} StaysOutExactlyWhile(ws: seq<World>, i: nat, p: Proc, t: Tid)
    requires IsRun(ws) && i < |ws| && (p, t) in ws[i].threads && ws[i].threads[(p, t)].phase.Polling?
    ensures CanAct(ws[i], p, t, TryLock)
    ensures var x, w := ws[i].threads[(p, t)].phase.f.path, Did(ws[i], p, t, TryLock);
      && (w.threads[(p, t)].phase.Polling? <==>
           x in ws[i].os && ws[i].os[x] in ws[i].open && ws[i].open[ws[i].os[x]].path == x &&
           (ws[i].open[ws[i].os[x]].p, ws[i].open[ws[i].os[x]].t) != (p, t))
      && (w.threads[(p, t)].phase.Polling? ==> w == ws[i])
  {
    RunKeeps(ws, i);
    hide Inv, IsRun;
    Polls(ws[i], p, t);
  }

  lemma {:induction false} Polls(w: World, p: Proc, t: Tid)
    requires Inv(w) && (p, t) in w.threads && w.threads[(p, t)].phase.Polling?
    ensures var f := w.threads[(p, t)].phase.f;
      && f.handle.Some?
      && (f.path in w.os ==> w.os[f.path] in w.open)
      && (f.path in w.os ==> w.open[w.os[f.path]].path == f.path)
      && (f.path in w.os ==> (w.open[w.os[f.path]].p, w.open[w.os[f.path]].t) != (p, t))
  {
    At(w, p, t, w.threads[(p, t)].phase.f.path);
  }

  lemma {:induction false} TakesFree(w: World, p: Proc, t: Tid)
    requires (p, t) in w.threads && w.threads[(p, t)].phase.Polling? && w.threads[(p, t)].phase.f.handle.Some?
    requires w.threads[(p, t)].phase.f.path !in w.os
    ensures CanActs(w, p, t, [TryLock, Register])
    ensures var th, w' := w.threads[(p, t)], Acted(w, p, t, [TryLock, Register]);
      && Inside(w', p, t, th.phase.f.path) && w'.threads[(p, t)].phase.Idle?
      && w'.os == w.os[th.phase.f.path := th.phase.f.handle.value] && w'.open == w.open
      && w'.held == w.held[(p, th.phase.f.path, t) := (th.phase.f.handle.value, 1)]
  {
    var th, w1 := w.threads[(p, t)], Did(w, p, t, TryLock);
    assert Did(w1, p, t, Register).threads[(p, t)].bodies[|th.bodies|].path == th.phase.f.path;
    assert [TryLock, Register][1..] == [Register];
  }

  lemma {:induction false} OneMore(w: World, p: Proc, t: Tid, acts: seq<Action>, a: Action)
    requires CanActs(w, p, t, acts) && CanAct(Acted(w, p, t, acts), p, t, a)
    ensures CanActs(w, p, t, acts + [a]) && Acted(w, p, t, acts + [a]) == Did(Acted(w, p, t, acts), p, t, a)
    decreases |acts|
  {
    if acts == [] {
      assert acts + [a] == [a] && [a][1..] == [];
    } else {
      assert (acts + [a])[1..] == acts[1..] + [a];
      hide Did, CanAct;
      OneMore(Did(w, p, t, acts[0]), p, t, acts[1..], a);
    }
  }

  // The thread stands at `th`, and the local lock `l` of its call is `rl`.
  function Placed(w: World, p: Proc, t: Tid, l: LockId, rl: RLock, th: Thread): World {
    w.(rlocks := w.rlocks[(p, l) := rl], threads := w.threads[(p, t) := th])
  }

  function LocalAfter(w: World, p: Proc, x: Path, id: LockId): LockId {
    if (p, x) in w.locals then w.locals[(p, x)] else id
  }

  // The thread is between calls and not inside a body on the path; nobody has the path's local lock.
  ghost predicate Outside(w: World, p: Proc, t: Tid, x: Path, id: LockId) {
    && (p, t) in w.threads && w.threads[(p, t)].phase.Idle? && !Inside(w, p, t, x)
    && LockOf(w, p, x).owner == None && ((p, x) in w.locals || (p, id) !in w.rlocks)
  }

  lemma {:induction false} DepthInside(bodies: seq<Frame>, x: Path)
    requires Depth(bodies, x) > 0
    ensures exists i :: 0 <= i < |bodies| && bodies[i].path == x
  {
    var n := |bodies| - 1;
    if bodies[n].path != x {
      DepthInside(bodies[..n], x);
      var i :| 0 <= i < |bodies[..n]| && bodies[..n][i].path == x;
      assert bodies[i].path == x;
    }
  }

  lemma {:induction false} OutsideIs(w: World, p: Proc, t: Tid, x: Path, id: LockId)
    requires Inv(w) && Outside(w, p, t, x, id)
    ensures var l, w0 := LocalAfter(w, p, x, id), WithLocal(w, p, x, id);
      && (p, x, t) !in w.held && (p, x) in w0.locals && w0.locals[(p, x)] == l
      && (p, l) in w0.rlocks && w0.rlocks[(p, l)] == FREE
    ensures Depth(w.threads[(p, t)].bodies, x) == 0
  {
    At(w, p, t, x);
    var th, l := w.threads[(p, t)], LocalAfter(w, p, x, id);
    if Depth(th.bodies, x) > 0 { DepthInside(th.bodies, x); }
  }

  lemma {:induction false} BeginIs(w: World, p: Proc, t: Tid, x: Path, id: LockId)
    requires Inv(w) && Outside(w, p, t, x, id)
    ensures var w0, l, bodies := WithLocal(w, p, x, id), LocalAfter(w, p, x, id), w.threads[(p, t)].bodies;
      CanAct(w, p, t, Begin(x, id)) &&
      Did(w, p, t, Begin(x, id)) == Placed(w0, p, t, l, FREE, Thread(bodies, Waiting(Frame(x, l, None, false))))
  {
    OutsideIs(w, p, t, x, id);
    hide Inv, LockOf, Inside, Depth;
    var w0, l := WithLocal(w, p, x, id), LocalAfter(w, p, x, id);
    assert w0.rlocks[(p, l) := FREE] == w0.rlocks;
  }

  lemma {:induction false} Moves(w: World, p: Proc, t: Tid, l: LockId, rl: RLock, th: Thread, rl': RLock, th': Thread)
    ensures Move(Placed(w, p, t, l, rl, th), p, t, th') == Placed(w, p, t, l, rl, th')
    ensures Placed(Placed(w, p, t, l, rl, th), p, t, l, rl', th') == Placed(w, p, t, l, rl', th')
  {
    assert w.threads[(p, t) := th][(p, t) := th'] == w.threads[(p, t) := th'];
    assert w.rlocks[(p, l) := rl][(p, l) := rl] == w.rlocks[(p, l) := rl];
    assert w.rlocks[(p, l) := rl][(p, l) := rl'] == w.rlocks[(p, l) := rl'];
  }

  lemma {:induction false} PlacedBack(w: World, p: Proc, t: Tid, l: LockId, rl: RLock, th: Thread)
    requires (p, l) in w.rlocks && w.rlocks[(p, l)] == rl && (p, t) in w.threads && w.threads[(p, t)] == th
    ensures Placed(w, p, t, l, rl, th) == w
  {
  }

  // The moves of a call, each from a thread placed where the move before left it.
  lemma {:induction false} AcquireIs(w: World, p: Proc, t: Tid, f: Frame, b: seq<Frame>, n: nat)
    ensures var rl := if n == 0 then FREE else RLock(Some(t), n);
      var w1 := Placed(w, p, t, f.lock, rl, Thread(b, Waiting(f)));
      CanAct(w1, p, t, Acquire) &&
      Did(w1, p, t, Acquire) == Placed(w, p, t, f.lock, RLock(Some(t), n + 1), Thread(b, Checking(f)))
  {
    var rl := if n == 0 then FREE else RLock(Some(t), n);
    Moves(w, p, t, f.lock, rl, Thread(b, Waiting(f)), RLock(Some(t), n + 1), Thread(b, Checking(f)));
  }

  lemma {:induction false} CheckIs(w: World, p: Proc, t: Tid, f: Frame, b: seq<Frame>, rl: RLock)
    ensures var w1, k := Placed(w, p, t, f.lock, rl, Thread(b, Checking(f))), (p, f.path, t);
      CanAct(w1, p, t, Check) && Did(w1, p, t, Check) ==
        if k !in w.held then Placed(w, p, t, f.lock, rl, Thread(b, Opening(f)))
        else
          Placed(w.(held := w.held[k := (w.held[k].0, w.held[k].1 + 1)]), p, t, f.lock, rl,
                 Thread(b + [f.(reentrant := true)], Idle))
  {
    var w' := w.(held := EnterHeld(w.held, (p, f.path, t)));
    Moves(w, p, t, f.lock, rl, Thread(b, Checking(f)), rl, Thread(b, Opening(f)));
    Moves(w', p, t, f.lock, rl, Thread(b, Checking(f)), rl, Thread(b + [f.(reentrant := true)], Idle));
  }

  lemma {:induction false} OpenIs(w: World, p: Proc, t: Tid, f: Frame, b: seq<Frame>, rl: RLock, h: Handle)
    requires h !in w.open
    ensures var w1 := Placed(w, p, t, f.lock, rl, Thread(b, Opening(f)));
      CanAct(w1, p, t, Open(h)) && Did(w1, p, t, Open(h)) ==
        Placed(w.(open := w.open[h := Opener(p, t, f.path)]), p, t, f.lock, rl,
               Thread(b, Polling(f.(handle := Some(h)))))
  {
    var w' := w.(open := w.open[h := Opener(p, t, f.path)]);
    Moves(w', p, t, f.lock, rl, Thread(b, Opening(f)), rl, Thread(b, Polling(f.(handle := Some(h)))));
  }

  lemma {:induction false} TakeIs(w: World, p: Proc, t: Tid, f: Frame, b: seq<Frame>, rl: RLock, h: Handle)
    requires f.handle == Some(h) && f.path !in w.os
    ensures var w1 := Placed(w, p, t, f.lock, rl, Thread(b, Polling(f)));
      CanActs(w1, p, t, [TryLock, Register]) && Acted(w1, p, t, [TryLock, Register]) ==
        Placed(w.(os := w.os[f.path := h], held := w.held[(p, f.path, t) := (h, 1)]), p, t, f.lock, rl,
               Thread(b + [f], Idle))
  {
    var w1 := Placed(w, p, t, f.lock, rl, Thread(b, Polling(f)));
    var w2 := w.(os := w.os[f.path := h]);
    Moves(w2, p, t, f.lock, rl, Thread(b, Polling(f)), rl, Thread(b, Registering(f)));
    Moves(w2.(held := w.held[(p, f.path, t) := (h, 1)]), p, t, f.lock, rl, Thread(b, Registering(f)), rl,
          Thread(b + [f], Idle));
    assert [TryLock, Register][1..] == [Register];
  }

  lemma {:induction false} ExitIs(w: World, p: Proc, t: Tid, f: Frame, b: seq<Frame>, rl: RLock)
    ensures var w1 := Placed(w, p, t, f.lock, rl, Thread(b + [f], Idle));
      CanAct(w1, p, t, Exit) &&
      Did(w1, p, t, Exit) == Placed(w, p, t, f.lock, rl, Thread(b, Settling(f, true)))
  {
    Moves(w, p, t, f.lock, rl, Thread(b + [f], Idle), rl, Thread(b, Settling(f, true)));
    assert (b + [f])[..|b|] == b;
  }

  lemma {:induction false} FailIs(w: World, p: Proc, t: Tid, f: Frame, b: seq<Frame>, rl: RLock, ph: Phase)
    requires ph == Opening(f) || ph == Polling(f)
    ensures var w1 := Placed(w, p, t, f.lock, rl, Thread(b, ph));
      CanAct(w1, p, t, Fail) &&
      Did(w1, p, t, Fail) == Placed(w, p, t, f.lock, rl, Thread(b, Settling(f, false)))
  {
    Moves(w, p, t, f.lock, rl, Thread(b, ph), rl, Thread(b, Settling(f, false)));
  }

  // The entry in the table is of level `n`, and there is none for level zero.
  function AtLevel(held: HeldTable<(Proc, Path, Tid)>, k: (Proc, Path, Tid), h: Handle, n: nat):
    HeldTable<(Proc, Path, Tid)>
  {
    if n == 0 then held - {k} else held[k := (h, n)]
  }

  lemma {:induction false} LevelDown(held: HeldTable<(Proc, Path, Tid)>, k: (Proc, Path, Tid), h: Handle, n: nat)
    ensures LeaveHeld(AtLevel(held, k, h, n), k) == AtLevel(held, k, h, if n == 0 then 0 else n - 1)
    ensures ToRelease(AtLevel(held, k, h, n), k) == if n == 1 then Some(h) else None
  {
  }

  lemma {:induction false} SettleIs(w: World, p: Proc, t: Tid, f: Frame, b: seq<Frame>, rl: RLock, h: Handle,
                                    n: nat, ran: bool)
    requires ran == (n > 0)
    ensures var k := (p, f.path, t);
      var w1 := Placed(w.(held := AtLevel(w.held, k, h, n)), p, t, f.lock, rl, Thread(b, Settling(f, ran)));
      CanAct(w1, p, t, Settle) && Did(w1, p, t, Settle) ==
        Placed(w.(held := AtLevel(w.held, k, h, if n == 0 then 0 else n - 1)), p, t, f.lock, rl, Thread(b,
          if n == 1 then Unlocking(f, h)
          else if f.handle.Some? && !f.reentrant then Closing(f, f.handle.value) else Leaving(f)))
  {
    var k := (p, f.path, t);
    var held := AtLevel(w.held, k, h, n);
    var after := AtLevel(w.held, k, h, if n == 0 then 0 else n - 1);
    LevelDown(w.held, k, h, n);
    hide LeaveHeld, ToRelease, AtLevel;
    var ph :=
      if n == 1 then Unlocking(f, h)
      else if f.handle.Some? && !f.reentrant then Closing(f, f.handle.value) else Leaving(f);
    Moves(w.(held := after), p, t, f.lock, rl, Thread(b, Settling(f, ran)), rl, Thread(b, ph));
  }

  lemma {:induction false} UnlockIs(w: World, p: Proc, t: Tid, f: Frame, b: seq<Frame>, rl: RLock, h: Handle)
    requires f.path !in w.os
    ensures var w1 := Placed(w.(os := w.os[f.path := h]), p, t, f.lock, rl, Thread(b, Unlocking(f, h)));
      CanAct(w1, p, t, Unlock) && Did(w1, p, t, Unlock) == Placed(w, p, t, f.lock, rl, Thread(b, Closing(f, h)))
  {
    assert Without(w.os[f.path := h], f.path, h) == w.os;
    Moves(w, p, t, f.lock, rl, Thread(b, Unlocking(f, h)), rl, Thread(b, Closing(f, h)));
  }

  lemma {:induction false} CloseIs(w: World, p: Proc, t: Tid, f: Frame, b: seq<Frame>, rl: RLock, h: Handle)
    requires h !in w.open && (f.path in w.os ==> w.os[f.path] != h)
    ensures var w1 := Placed(w.(open := w.open[h := Opener(p, t, f.path)]), p, t, f.lock, rl, Thread(b, Closing(f, h)));
      CanAct(w1, p, t, Close) && Did(w1, p, t, Close) == Placed(w, p, t, f.lock, rl, Thread(b, Leaving(f)))
  {
    assert w.open[h := Opener(p, t, f.path)] - {h} == w.open;
    Moves(w, p, t, f.lock, rl, Thread(b, Closing(f, h)), rl, Thread(b, Leaving(f)));
  }

  lemma {:induction false} LeaveIs(w: World, p: Proc, t: Tid, f: Frame, b: seq<Frame>, n: nat)
    ensures var w1 := Placed(w, p, t, f.lock, RLock(Some(t), n + 1), Thread(b, Leaving(f)));
      CanAct(w1, p, t, Leave) && Did(w1, p, t, Leave) ==
        Placed(w, p, t, f.lock, if n == 0 then FREE else RLock(Some(t), n), Thread(b, Idle))
  {
    Moves(w, p, t, f.lock, RLock(Some(t), n + 1), Thread(b, Leaving(f)),
          if n == 0 then FREE else RLock(Some(t), n), Thread(b, Idle));
  }

  function GoIn(x: Path, id: LockId, h: Handle): seq<Action> { [Begin(x, id), Acquire, Check, Open(h)] + TAKE }

  const TAKE: seq<Action> := [TryLock, Register]

  const GO_OUT: seq<Action> := [Exit, Settle, Unlock, Close, Leave]

  lemma {:induction false} Chain(w: World, p: Proc, t: Tid, acts: seq<Action>, more: seq<Action>)
    requires CanActs(w, p, t, acts) && CanActs(Acted(w, p, t, acts), p, t, more)
    ensures CanActs(w, p, t, acts + more)
    ensures Acted(w, p, t, acts + more) == Acted(Acted(w, p, t, acts), p, t, more)
    decreases |more|
  {
    if more == [] {
      assert acts + more == acts;
    } else {
      OneMore(w, p, t, acts, more[0]);
      assert acts + more == acts + [more[0]] + more[1..];
      hide Did, CanAct;
      Chain(w, p, t, acts + [more[0]], more[1..]);
    }
  }

  lemma {:induction false} One(w: World, p: Proc, t: Tid, a: Action)
    requires CanAct(w, p, t, a)
    ensures CanActs(w, p, t, [a]) && Acted(w, p, t, [a]) == Did(w, p, t, a)
  {
    assert [a][1..] == [];
  }

  // Up to the moment the file is to be opened, and on to where it is.
  lemma {:induction false} ChecksOutside(w: World, p: Proc, t: Tid, x: Path, id: LockId)
    requires Inv(w) && Outside(w, p, t, x, id)
    ensures var l, w0 := LocalAfter(w, p, x, id), WithLocal(w, p, x, id);
      && CanActs(w, p, t, [Begin(x, id), Acquire, Check])
      && Acted(w, p, t, [Begin(x, id), Acquire, Check]) ==
           Placed(w0, p, t, l, RLock(Some(t), 1),
                  Thread(w.threads[(p, t)].bodies, Opening(Frame(x, l, None, false))))
  {
    var l, w0 := LocalAfter(w, p, x, id), WithLocal(w, p, x, id);
    var b, f := w.threads[(p, t)].bodies, Frame(x, l, None, false);
    OutsideIs(w, p, t, x, id);
    BeginIs(w, p, t, x, id);
    AcquireIs(w0, p, t, f, b, 0);
    CheckIs(w0, p, t, f, b, RLock(Some(t), 1));
    hide Inv, Outside, CanAct, Did, Placed;
    One(w, p, t, Begin(x, id));
    OneMore(w, p, t, [Begin(x, id)], Acquire);
    OneMore(w, p, t, [Begin(x, id), Acquire], Check);
    assert [Begin(x, id)] + [Acquire] == [Begin(x, id), Acquire];
    assert [Begin(x, id), Acquire] + [Check] == [Begin(x, id), Acquire, Check];
  }

  lemma {:induction false} OpensOutside(w: World, p: Proc, t: Tid, x: Path, id: LockId, h: Handle)
    requires Inv(w) && Outside(w, p, t, x, id) && h !in w.open
    ensures var l, w0 := LocalAfter(w, p, x, id), WithLocal(w, p, x, id);
      && CanActs(w, p, t, [Begin(x, id), Acquire, Check, Open(h)])
      && Acted(w, p, t, [Begin(x, id), Acquire, Check, Open(h)]) ==
           Placed(w0.(open := w0.open[h := Opener(p, t, x)]), p, t, l, RLock(Some(t), 1),
                  Thread(w.threads[(p, t)].bodies, Polling(Frame(x, l, Some(h), false))))
  {
    var l, w0 := LocalAfter(w, p, x, id), WithLocal(w, p, x, id);
    ChecksOutside(w, p, t, x, id);
    hide Inv, Outside, CanAct, Did, Placed, CanActs, Acted;
    OpenIs(w0, p, t, Frame(x, l, None, false), w.threads[(p, t)].bodies, RLock(Some(t), 1), h);
    OneMore(w, p, t, [Begin(x, id), Acquire, Check], Open(h));
    assert [Begin(x, id), Acquire, Check] + [Open(h)] == [Begin(x, id), Acquire, Check, Open(h)];
  }

  // What a body on the path adds to the tables.
  function With(w: World, p: Proc, t: Tid, x: Path, h: Handle): World {
    w.(open := w.open[h := Opener(p, t, x)], os := w.os[x := h], held := w.held[(p, x, t) := (h, 1)])
  }

  lemma {:induction false} Four(w: World, w1: World, w2: World, w3: World, w4: World,
                                p: Proc, t: Tid, a: Action, b: Action, c: Action, d: Action)
    requires CanAct(w, p, t, a) && Did(w, p, t, a) == w1
    requires CanAct(w1, p, t, b) && Did(w1, p, t, b) == w2
    requires CanAct(w2, p, t, c) && Did(w2, p, t, c) == w3
    requires CanAct(w3, p, t, d) && Did(w3, p, t, d) == w4
    ensures CanActs(w, p, t, [a, b, c, d]) && Acted(w, p, t, [a, b, c, d]) == w4
  {
    hide CanAct, Did;
    One(w, p, t, a);
    OneMore(w, p, t, [a], b);
    assert [a] + [b] == [a, b];
    OneMore(w, p, t, [a, b], c);
    assert [a, b] + [c] == [a, b, c];
    OneMore(w, p, t, [a, b, c], d);
    assert [a, b, c] + [d] == [a, b, c, d];
  }

  // Out of the outermost body.
  lemma {:induction false} GoesOut(w: World, p: Proc, t: Tid, f: Frame, b: seq<Frame>, h: Handle)
    requires f.handle == Some(h) && h !in w.open && f.path !in w.os && (p, f.path, t) !in w.held
    ensures
      var w1 := Placed(With(w, p, t, f.path, h), p, t, f.lock, RLock(Some(t), 1), Thread(b + [f], Idle));
      CanActs(w1, p, t, GO_OUT) && Acted(w1, p, t, GO_OUT) == Placed(w, p, t, f.lock, FREE, Thread(b, Idle))
  {
    var locked := w.(open := w.open[h := Opener(p, t, f.path)], os := w.os[f.path := h]);
    var rl := RLock(Some(t), 1);
    var w1 := Placed(With(w, p, t, f.path, h), p, t, f.lock, rl, Thread(b + [f], Idle));
    ExitIs(With(w, p, t, f.path, h), p, t, f, b, rl);
    SettleIs(locked, p, t, f, b, rl, h, 1, true);
    assert AtLevel(w.held, (p, f.path, t), h, 0) == w.held;
    hide CanAct, Did, Placed;
    One(w1, p, t, Exit);
    OneMore(w1, p, t, [Exit], Settle);
    assert [Exit] + [Settle] == [Exit, Settle];
    hide CanActs, Acted;
    Releases(w, p, t, f, b, h);
    Chain(w1, p, t, [Exit, Settle], [Unlock, Close, Leave]);
    assert [Exit, Settle] + [Unlock, Close, Leave] == GO_OUT;
  }

  lemma {:induction false} Releases(w: World, p: Proc, t: Tid, f: Frame, b: seq<Frame>, h: Handle)
    requires h !in w.open && f.path !in w.os
    ensures var locked := w.(open := w.open[h := Opener(p, t, f.path)], os := w.os[f.path := h]);
      var w1 := Placed(locked, p, t, f.lock, RLock(Some(t), 1), Thread(b, Unlocking(f, h)));
      CanActs(w1, p, t, [Unlock, Close, Leave]) &&
      Acted(w1, p, t, [Unlock, Close, Leave]) == Placed(w, p, t, f.lock, FREE, Thread(b, Idle))
  {
    var hasOpen, rl := w.(open := w.open[h := Opener(p, t, f.path)]), RLock(Some(t), 1);
    var w1 := Placed(hasOpen.(os := w.os[f.path := h]), p, t, f.lock, rl, Thread(b, Unlocking(f, h)));
    UnlockIs(hasOpen, p, t, f, b, rl, h);
    CloseIs(w, p, t, f, b, rl, h);
    LeaveIs(w, p, t, f, b, 0);
    hide CanAct, Did, Placed;
    One(w1, p, t, Unlock);
    OneMore(w1, p, t, [Unlock], Close);
    OneMore(w1, p, t, [Unlock, Close], Leave);
    assert [Unlock] + [Close] == [Unlock, Close] && [Unlock, Close] + [Leave] == [Unlock, Close, Leave];
  }

  // Into it, when the file is free.
  lemma {:induction false} GoesIn(w: World, p: Proc, t: Tid, x: Path, id: LockId, h: Handle)
    requires Inv(w) && Outside(w, p, t, x, id) && x !in w.os && h !in w.open
    ensures CanActs(w, p, t, GoIn(x, id, h))
    ensures var l := LocalAfter(w, p, x, id);
      Acted(w, p, t, GoIn(x, id, h)) ==
        Placed(With(WithLocal(w, p, x, id), p, t, x, h), p, t, l, RLock(Some(t), 1),
               Thread(w.threads[(p, t)].bodies + [Frame(x, l, Some(h), false)], Idle))
  {
    var l, w0, b := LocalAfter(w, p, x, id), WithLocal(w, p, x, id), w.threads[(p, t)].bodies;
    OpensOutside(w, p, t, x, id, h);
    hide CanAct, Did, Placed, Inv, Outside;
    TakeIs(w0.(open := w0.open[h := Opener(p, t, x)]), p, t, Frame(x, l, Some(h), false), b, RLock(Some(t), 1), h);
    hide *;
    assert GoIn(x, id, h) == [Begin(x, id), Acquire, Check, Open(h)] + TAKE by { GoInIs(x, id, h); }
    Chain(w, p, t, [Begin(x, id), Acquire, Check, Open(h)], TAKE);
  }

  lemma GoInIs(x: Path, id: LockId, h: Handle)
    ensures GoIn(x, id, h) == [Begin(x, id), Acquire, Check, Open(h)] + TAKE
  {
  }

  lemma {:induction false} LastIsInside(w: World, p: Proc, t: Tid, f: Frame, rl: RLock, b: seq<Frame>)
    ensures Inside(Placed(w, p, t, f.lock, rl, Thread(b + [f], Idle)), p, t, f.path)
  {
    assert (b + [f])[|b|] == f;
  }

  /** A path that nobody has is entered without waiting, and leaving the body gives back every table,
      but for the local lock that was made on first use. */
  lemma {:induction false} GoesInAndOut(ws: seq<World>, i: nat, p: Proc, t: Tid, x: Path, id: LockId, h: Handle)
    requires IsRun(ws) && i < |ws| && Outside(ws[i], p, t, x, id) && x !in ws[i].os && h !in ws[i].open
    ensures CanActs(ws[i], p, t, GoIn(x, id, h))
    ensures var inn := Acted(ws[i], p, t, GoIn(x, id, h));
      && Inside(inn, p, t, x) && x in inn.os && inn.os[x] == h
      && CanActs(inn, p, t, GO_OUT) && Acted(inn, p, t, GO_OUT) == WithLocal(ws[i], p, x, id)
  {
    RunKeeps(ws, i);
    hide IsRun, Inv, Placed, CanActs, Acted, Inside;
    var w := ws[i];
    var l, w0, b := LocalAfter(w, p, x, id), WithLocal(w, p, x, id), w.threads[(p, t)].bodies;
    var f := Frame(x, l, Some(h), false);
    OutsideIs(w, p, t, x, id);
    GoesIn(w, p, t, x, id, h);
    LastIsInside(With(w0, p, t, x, h), p, t, f, RLock(Some(t), 1), b);
    GoesOut(w0, p, t, f, b, h);
    PlacedBack(w0, p, t, l, FREE, Thread(b, Idle));
    PlacedKeeps(With(w0, p, t, x, h), p, t, l, RLock(Some(t), 1), Thread(b + [f], Idle));
  }

  lemma PlacedKeeps(w: World, p: Proc, t: Tid, l: LockId, rl: RLock, th: Thread)
    ensures Placed(w, p, t, l, rl, th).os == w.os && Placed(w, p, t, l, rl, th).held == w.held
  {
  }

  // A call whose acquisition fails after the file is open, or on opening it.
  const FAIL_POLLING: seq<Action> := [Fail, Settle, Close, Leave]

  const FAIL_OPENING: seq<Action> := [Fail, Settle, Leave]

  lemma {:induction false} FailsOpen(w: World, p: Proc, t: Tid, f: Frame, b: seq<Frame>, h: Handle)
    requires f.handle == Some(h) && !f.reentrant && h !in w.open && (f.path in w.os ==> w.os[f.path] != h)
    requires (p, f.path, t) !in w.held
    ensures var w1 :=
        Placed(w.(open := w.open[h := Opener(p, t, f.path)]), p, t, f.lock, RLock(Some(t), 1), Thread(b, Polling(f)));
      CanActs(w1, p, t, FAIL_POLLING) &&
      Acted(w1, p, t, FAIL_POLLING) == Placed(w, p, t, f.lock, FREE, Thread(b, Idle))
  {
    var hasOpen, rl := w.(open := w.open[h := Opener(p, t, f.path)]), RLock(Some(t), 1);
    var w1 := Placed(hasOpen, p, t, f.lock, rl, Thread(b, Polling(f)));
    FailIs(hasOpen, p, t, f, b, rl, Polling(f));
    assert AtLevel(w.held, (p, f.path, t), h, 0) == w.held;
    SettleIs(hasOpen, p, t, f, b, rl, h, 0, false);
    CloseIs(w, p, t, f, b, rl, h);
    LeaveIs(w, p, t, f, b, 0);
    hide CanAct, Did, Placed;
    Four(w1, Placed(hasOpen, p, t, f.lock, rl, Thread(b, Settling(f, false))),
         Placed(hasOpen, p, t, f.lock, rl, Thread(b, Closing(f, h))),
         Placed(w, p, t, f.lock, rl, Thread(b, Leaving(f))),
         Placed(w, p, t, f.lock, FREE, Thread(b, Idle)), p, t, Fail, Settle, Close, Leave);
  }

  lemma {:induction false} FailsUnopened(w: World, p: Proc, t: Tid, f: Frame, b: seq<Frame>)
    requires f.handle == None && (p, f.path, t) !in w.held
    ensures var w1 := Placed(w, p, t, f.lock, RLock(Some(t), 1), Thread(b, Opening(f)));
      CanActs(w1, p, t, FAIL_OPENING) &&
      Acted(w1, p, t, FAIL_OPENING) == Placed(w, p, t, f.lock, FREE, Thread(b, Idle))
  {
    var rl := RLock(Some(t), 1);
    var w1 := Placed(w, p, t, f.lock, rl, Thread(b, Opening(f)));
    FailIs(w, p, t, f, b, rl, Opening(f));
    assert AtLevel(w.held, (p, f.path, t), 0, 0) == w.held;
    SettleIs(w, p, t, f, b, rl, 0, 0, false);
    LeaveIs(w, p, t, f, b, 0);
    hide CanAct, Did, Placed;
    One(w1, p, t, Fail);
    OneMore(w1, p, t, [Fail], Settle);
    OneMore(w1, p, t, [Fail, Settle], Leave);
    assert [Fail] + [Settle] == [Fail, Settle] && [Fail, Settle] + [Leave] == FAIL_OPENING;
  }

  /** A call that fails, whether on opening the file or while another has it locked, gives back
      every table too, and takes nobody else's lock with it. */
  lemma {:induction false} FailsAndRestores(ws: seq<World>, i: nat, p: Proc, t: Tid, x: Path, id: LockId, h: Handle)
    requires IsRun(ws) && i < |ws| && Outside(ws[i], p, t, x, id) && h !in ws[i].open
    ensures CanActs(ws[i], p, t, [Begin(x, id), Acquire, Check] + FAIL_OPENING)
    ensures Acted(ws[i], p, t, [Begin(x, id), Acquire, Check] + FAIL_OPENING) == WithLocal(ws[i], p, x, id)
    ensures CanActs(ws[i], p, t, [Begin(x, id), Acquire, Check, Open(h)] + FAIL_POLLING)
    ensures Acted(ws[i], p, t, [Begin(x, id), Acquire, Check, Open(h)] + FAIL_POLLING) == WithLocal(ws[i], p, x, id)
  {
    RunKeeps(ws, i);
    hide IsRun, Placed, CanActs, Acted, LockOf, LocalsOk, ThreadOk, Agree, FreeOk, FootAt;
    var w := ws[i];
    var l, w0, b := LocalAfter(w, p, x, id), WithLocal(w, p, x, id), w.threads[(p, t)].bodies;
    assert OsOk(w, x);
    OutsideIs(w, p, t, x, id);
    ChecksOutside(w, p, t, x, id);
    OpensOutside(w, p, t, x, id, h);
    FailsOpen(w0, p, t, Frame(x, l, Some(h), false), b, h);
    FailsUnopened(w0, p, t, Frame(x, l, None, false), b);
    PlacedBack(w0, p, t, l, FREE, Thread(b, Idle));
    hide *;
    Chain(w, p, t, [Begin(x, id), Acquire, Check], FAIL_OPENING);
    Chain(w, p, t, [Begin(x, id), Acquire, Check, Open(h)], FAIL_POLLING);
  }

  /** While another thread of the process has the local lock, a call can only give up, and that changes
      nothing. */
  lemma {:induction false} GivesUp(ws: seq<World>, i: nat, p: Proc, t: Tid, x: Path, id: LockId)
    requires IsRun(ws) && i < |ws| && (p, t) in ws[i].threads && ws[i].threads[(p, t)].phase.Idle?
    requires LockOf(ws[i], p, x).owner !in {None, Some(t)}
    ensures CanAct(ws[i], p, t, Begin(x, id)) && !CanAct(Did(ws[i], p, t, Begin(x, id)), p, t, Acquire)
    ensures CanActs(ws[i], p, t, [Begin(x, id), GiveUp]) && Acted(ws[i], p, t, [Begin(x, id), GiveUp]) == ws[i]
  {
    hide IsRun;
    var w, w1 := ws[i], Did(ws[i], p, t, Begin(x, id));
    assert w1.threads[(p, t) := w.threads[(p, t)]] == w.threads;
    assert [Begin(x, id), GiveUp][1..] == [GiveUp];
    hide Did, CanAct;
    One(w1, p, t, GiveUp);
  }

  /** A nested call goes one level deeper and comes out one level higher, with nothing else changed. */
  lemma {:induction false} NestsAndRestores(ws: seq<World>, i: nat, p: Proc, t: Tid, x: Path, id: LockId)
    requires IsRun(ws) && i < |ws| && Inside(ws[i], p, t, x) && ws[i].threads[(p, t)].phase.Idle?
    ensures CanActs(ws[i], p, t, [Begin(x, id), Acquire, Check])
    ensures var inn := Acted(ws[i], p, t, [Begin(x, id), Acquire, Check]);
      && inn.open == ws[i].open && inn.os == ws[i].os && (p, t) in inn.threads
      && inn.threads[(p, t)].phase.Idle? && |inn.threads[(p, t)].bodies| == |ws[i].threads[(p, t)].bodies| + 1
      && CanActs(inn, p, t, [Exit, Settle, Leave]) && Acted(inn, p, t, [Exit, Settle, Leave]) == ws[i]
  {
    RunKeeps(ws, i);
    hide IsRun;
    InsideIs(ws[i], p, t, x);
    hide Inv, Inside, Depth, LockOf;
    var d := Depth(ws[i].threads[(p, t)].bodies, x);
    NestsIn(ws[i], p, t, x, id, d);
    NestsOut(ws[i], p, t, x, d);
  }

  lemma {:induction false} InsideIs(w: World, p: Proc, t: Tid, x: Path)
    requires Inv(w) && Inside(w, p, t, x) && w.threads[(p, t)].phase.Idle?
    ensures var d, k := Depth(w.threads[(p, t)].bodies, x), (p, x, t);
      && d > 0 && (p, x) in w.locals && (p, w.locals[(p, x)]) in w.rlocks
      && w.rlocks[(p, w.locals[(p, x)])] == RLock(Some(t), d) && k in w.held && w.held[k].1 == d
  {
    At(w, p, t, x);
    var bodies := w.threads[(p, t)].bodies;
    var j :| 0 <= j < |bodies| && bodies[j].path == x;
    DepthCounts(bodies, x, j);
  }

  // The world of a nested call that has gone in, `w` being the one before.
  function Deeper(w: World, p: Proc, t: Tid, x: Path, d: nat): World
    requires (p, x) in w.locals && (p, x, t) in w.held && (p, t) in w.threads
  {
    var k, l := (p, x, t), w.locals[(p, x)];
    Placed(w.(held := w.held[k := (w.held[k].0, d + 1)]), p, t, l, RLock(Some(t), d + 1),
           Thread(w.threads[(p, t)].bodies + [Frame(x, l, None, true)], Idle))
  }

  lemma {:induction false} NestsIn(w: World, p: Proc, t: Tid, x: Path, id: LockId, d: nat)
    requires (p, x) in w.locals && (p, x, t) in w.held && (p, t) in w.threads && w.threads[(p, t)].phase.Idle?
    requires d > 0 && (p, w.locals[(p, x)]) in w.rlocks && w.rlocks[(p, w.locals[(p, x)])] == RLock(Some(t), d)
    requires w.held[(p, x, t)].1 == d
    ensures CanActs(w, p, t, [Begin(x, id), Acquire, Check])
    ensures Acted(w, p, t, [Begin(x, id), Acquire, Check]) == Deeper(w, p, t, x, d)
  {
    var l, b := w.locals[(p, x)], w.threads[(p, t)].bodies;
    var f := Frame(x, l, None, false);
    assert w.rlocks[(p, l) := RLock(Some(t), d)] == w.rlocks;
    assert Did(w, p, t, Begin(x, id)) == Placed(w, p, t, l, RLock(Some(t), d), Thread(b, Waiting(f)));
    AcquireIs(w, p, t, f, b, d);
    CheckIs(w, p, t, f, b, RLock(Some(t), d + 1));
    hide Did, CanAct;
    One(w, p, t, Begin(x, id));
    OneMore(w, p, t, [Begin(x, id)], Acquire);
    OneMore(w, p, t, [Begin(x, id), Acquire], Check);
    assert [Begin(x, id)] + [Acquire] == [Begin(x, id), Acquire];
    assert [Begin(x, id), Acquire] + [Check] == [Begin(x, id), Acquire, Check];
  }

  lemma {:induction false} NestsOut(w: World, p: Proc, t: Tid, x: Path, d: nat)
    requires (p, x) in w.locals && (p, x, t) in w.held && (p, t) in w.threads && w.threads[(p, t)].phase.Idle?
    requires d > 0 && (p, w.locals[(p, x)]) in w.rlocks && w.rlocks[(p, w.locals[(p, x)])] == RLock(Some(t), d)
    requires w.held[(p, x, t)].1 == d
    ensures CanActs(Deeper(w, p, t, x, d), p, t, [Exit, Settle, Leave])
    ensures Acted(Deeper(w, p, t, x, d), p, t, [Exit, Settle, Leave]) == w
  {
    var l, b, k := w.locals[(p, x)], w.threads[(p, t)].bodies, (p, x, t);
    var f, rl, h := Frame(x, l, None, true), RLock(Some(t), d + 1), w.held[k].0;
    var inn := Deeper(w, p, t, x, d);
    ExitIs(w.(held := AtLevel(w.held, k, h, d + 1)), p, t, f, b, rl);
    SettleIs(w, p, t, f, b, rl, h, d + 1, true);
    assert AtLevel(w.held, k, h, d) == w.held;
    LeaveIs(w, p, t, f, b, d);
    PlacedBack(w, p, t, l, RLock(Some(t), d), Thread(b, Idle));
    hide Did, CanAct, Placed;
    One(inn, p, t, Exit);
    OneMore(inn, p, t, [Exit], Settle);
    OneMore(inn, p, t, [Exit, Settle], Leave);
    assert [Exit] + [Settle] == [Exit, Settle] && [Exit, Settle] + [Leave] == [Exit, Settle, Leave];
  }

  /** Unlocking frees the file. */
  lemma {:induction false} UnlockFrees(ws: seq<World>, i: nat, p: Proc, t: Tid)
    requires IsRun(ws) && i < |ws| && (p, t) in ws[i].threads && ws[i].threads[(p, t)].phase.Unlocking?
    ensures var x := ws[i].threads[(p, t)].phase.f.path;
      x in ws[i].os && Did(ws[i], p, t, Unlock).os == ws[i].os - {x}
  {
    RunKeeps(ws, i);
    At(ws[i], p, t, ws[i].threads[(p, t)].phase.f.path);
    hide Inv, IsRun;
  }

  // ---------- A run that goes in ----------

  ghost predicate Reaches(w: World) { exists ws :: IsRun(ws) && ws[|ws| - 1] == w }

  lemma {:induction false} ReachStep(w: World, e: Event)
    requires Reaches(w) && Enabled(w, e)
    ensures Reaches(Next(w, e))
  {
    var ws :| IsRun(ws) && ws[|ws| - 1] == w;
    hide Next, Enabled;
    var more := ws + [Next(w, e)];
    assert IsStep(w, Next(w, e));
    forall i | 0 <= i < |more| - 1 ensures IsStep(more[i], more[i + 1]) {
      if i < |ws| - 1 { assert IsStep(ws[i], ws[i + 1]); }
    }
    assert IsRun(more) && more[|more| - 1] == Next(w, e);
  }

  lemma {:induction false} ReachActs(w: World, p: Proc, t: Tid, acts: seq<Action>)
    requires Reaches(w) && CanActs(w, p, t, acts)
    ensures Reaches(Acted(w, p, t, acts))
    decreases |acts|
  {
    if acts != [] {
      hide Did, CanAct, Reaches;
      ReachStep(w, Act(p, t, acts[0]));
      ReachActs(Did(w, p, t, acts[0]), p, t, acts[1..]);
    }
  }

  /** From nothing, a thread alone gets inside. */
  lemma {:induction false} LoneThreadEnters(p: Proc, t: Tid, x: Path)
    ensures exists ws :: IsRun(ws) && Inside(ws[|ws| - 1], p, t, x)
  {
    assert IsRun([START]) && [START][|[START]| - 1] == START;
    var w := Next(START, Spawn(p, t));
    ReachStep(START, Spawn(p, t));
    assert Outside(w, p, t, x, 0) && x !in w.os && 0 !in w.open;
    hide IsRun, Outside, Next, Inside, CanActs, Acted;
    var ws :| IsRun(ws) && ws[|ws| - 1] == w;
    GoesInAndOut(ws, |ws| - 1, p, t, x, 0, 0);
    ReachActs(w, p, t, GoIn(x, 0, 0));
    var more :| IsRun(more) && more[|more| - 1] == Acted(w, p, t, GoIn(x, 0, 0));
    assert Inside(more[|more| - 1], p, t, x);
  }

  // ---------- The tables of one process ----------

  /** The module's state: the local locks and the locks that threads of the process hold. */
  class LockTables {
    var locals: map<Path, LockId>
    var made: nat
    var held: HeldTable<(Path, Tid)>

    ghost predicate Valid()
      reads this
    {
      && (forall x :: x in locals ==> 0 <= locals[x] < made)
      && (forall x, y :: x in locals && y in locals && locals[x] == locals[y] ==> x == y)
    }

    constructor ()
      ensures Valid() && locals == map[] && held == map[]
    {
      locals, made, held := map[], 0, map[];
    }

    // `_local_lock`
    method LocalLock(x: Path) returns (lock: LockId)
      requires Valid()
      modifies this`locals, this`made
      ensures Valid() && x in locals && locals[x] == lock
      ensures x in old(locals) ==> locals == old(locals)
      ensures x !in old(locals) ==> locals == old(locals)[x := lock]
      ensures x !in old(locals) ==> forall y :: y in old(locals) ==> old(locals)[y] != lock
    {
      if x !in locals {
        locals := locals[x := made];
        made := made + 1;
      }
      lock := locals[x];
    }

    // The first guarded block of `file_lock`.
    method Enter(key: (Path, Tid)) returns (reentrant: bool)
      modifies this`held
      ensures held == EnterHeld(old(held), key) && reentrant == (key in old(held))
    {
      reentrant := false;
      if key in held {
        var (heldHandle, count) := held[key];
        held := held[key := (heldHandle, count + 1)];
        reentrant := true;
      }
    }

    // The second, once the file is locked.
    method Record(key: (Path, Tid), handle: Handle)
      modifies this`held
      ensures held == old(held)[key := (handle, 1)]
    {
      held := held[key := (handle, 1)];
    }

    // The third, in `finally`.
    method Depart(key: (Path, Tid)) returns (release: Option<Handle>)
      modifies this`held
      ensures held == LeaveHeld(old(held), key) && release == ToRelease(old(held), key)
    {
      release := None;
      if key in held {
        var (heldHandle, count) := held[key];
        if count > 1 {
          held := held[key := (heldHandle, count - 1)];
        } else {
          held := held - {key};
          release := Some(heldHandle);
        }
      }
    }
  }

  // ---------- How long a call takes ----------

  function Max(a: real, b: real): real { if a < b then b else a }

  // The moment of the k-th attempt on the file, with exact sleeps.
  function Attempt(start: real, step: real, k: nat): real { start + k as real * step }

  /** Some attempt made before the deadline, or the first after it, finds the file free. */
  ghost predicate FreeInTime(start: real, timeout: real, step: real, x: Path, at: real -> World) {
    exists k: nat :: (k == 0 || Attempt(start, step, k - 1) < start + timeout) && x !in at(Attempt(start, step, k)).os
  }

  /** The polling loop. `at` says how the world is at each moment; an attempt takes the file when it is
      free (`FreeIsTaken`) and stays out when it is not (`StaysOutExactlyWhile`). */
  method PollFile(start: real, timeout: real, poll: real, x: Path, at: real -> World) returns (ok: bool, end: real)
    requires timeout >= 0.0
    ensures start <= end < start + timeout + Max(0.01, poll)
    ensures ok ==> x !in at(end).os
    ensures ok <==> FreeInTime(start, timeout, Max(0.01, poll), x, at)
  {
    var step := Max(0.01, poll);
    var deadline := start + timeout;
    end := start;
    ghost var k: nat := 0;
    while x in at(end).os
      invariant end == Attempt(start, step, k) && start <= end < deadline + step
      invariant k == 0 || Attempt(start, step, k - 1) < deadline
      invariant forall j: nat :: j < k ==> x in at(Attempt(start, step, j)).os
      decreases ((deadline + step - end) * 100.0).Floor
    {
      if end >= deadline {
        LateIsLate(start, timeout, step, x, at, k);
        return false, end;
      }
      end := end + step;
      k := k + 1;
    }
    ok := true;
  }

  lemma {:induction false} LateIsLate(start: real, timeout: real, step: real, x: Path, at: real -> World, k: nat)
    requires step > 0.0 && Attempt(start, step, k) >= start + timeout
    requires forall j: nat :: j <= k ==> x in at(Attempt(start, step, j)).os
    ensures !FreeInTime(start, timeout, step, x, at)
  {
    forall j: nat | k <= j ensures Attempt(start, step, j) >= start + timeout {
      LaterAttempt(start, step, k, j);
    }
  }

  lemma LaterAttempt(start: real, step: real, k: nat, j: nat)
    requires k <= j && step > 0.0
    ensures Attempt(start, step, k) <= Attempt(start, step, j)
  {
    assert (j - k) as real * step >= 0.0;
  }

  /** One call: the wait for the local lock, free from `localAt` on, then the polling. It enters or
      fails within twice the timeout and one poll interval. */
  method WaitToEnter(start: real, timeoutSeconds: real, poll: real, localAt: real, x: Path, at: real -> World)
    returns (entered: bool, end: real)
    ensures start <= end <= start + 2.0 * Max(0.0, timeoutSeconds) + Max(0.01, poll)
    ensures entered <==>
      localAt <= start + Max(0.0, timeoutSeconds) &&
      FreeInTime(Max(start, localAt), Max(0.0, timeoutSeconds), Max(0.01, poll), x, at)
  {
    var timeout := Max(0.0, timeoutSeconds);
    if localAt > start + timeout { return false, start + timeout; }
    entered, end := PollFile(Max(start, localAt), timeout, poll, x, at);
  }
}
