/** The App Server client's transport: threads that make requests, a reader, and closers of several
    kinds share the pending table, the closed flag and the loss-observer latch. Each step below is
    one atomic access to that shared state; any number of threads take them in any order. */
module AppServerClient {
  import opened Wrappers

  type Tid = int
  type Rid = nat

  datatype Msg = Answer(body: int) | ClosedError

  // ---------- The pending table and its one-slot queues ----------

  datatype Board = Board(nextId: Rid, pending: set<Rid>, queues: map<Rid, Option<Msg>>)

  function Registered(b: Board): Board {
    Board(b.nextId + 1, b.pending + {b.nextId}, b.queues[b.nextId := None])
  }

  function Forgotten(b: Board, r: Rid): Board { b.(pending := b.pending - {r}) }

  // `put_nowait`, a full queue left as it is.
  function Offered(b: Board, r: Rid, m: Msg): Board {
    if r in b.queues && b.queues[r] == None then b.(queues := b.queues[r := Some(m)]) else b
  }

  function Emptied(b: Board, r: Rid): Board { b.(queues := b.queues[r := None]) }

  // ---------- Threads ----------

  /** What is left of a notification or of closing, innermost first. */
  datatype Op =
    | SetClosed(plain: bool) // `plain` in `close()`, which wakes waiters only with activity hooks
    | CloseTest            // `close` reads the flag
    | HookTest             // `_activity_hook_failed` reads it
    | Notify               // `_notify_transport_lost`
    | Observe              // inside the observer, with the latch
    | Unlatch
    | Snapshot             // `_fail_pending` copies the pending table
    | Puts(todo: set<Rid>) // and wakes the waiters

  datatype Outcome = Got(msg: Msg) | Raised

  datatype Job =
    | Free
    | Fresh
    | Checking(rid: Rid)
    | Sending(rid: Rid)
    | Waiting(rid: Rid)
    | Leaving(rid: Rid, outcome: Outcome)
    | Done(rid: Rid, outcome: Outcome)
    | Reading
    | Delivering(rid: Rid, msg: Msg)

  // The job goes on when no operation is left.
  datatype Thread = Thread(ops: seq<Op>, job: Job)

  // A loss observer is set; some activity hook is.
  datatype Settings = Settings(observer: bool, activity: bool)

  // `observed` and `calls` record that the observer ended, and how often it began.
  datatype Flags = Flags(closed: bool, notified: bool, latch: Option<Tid>, observed: bool, calls: nat)

  /** What has happened: a closing error was put, some closer has woken all the waiters it copied, one
      other than plain `close()` has set the flag, who registered a request, the first message its
      queue got, the answers the reader has read, each with its identifier. */
  datatype History = History(
    woke: bool, drained: bool, ended: bool, owner: map<Rid, Tid>, first: map<Rid, Msg>, read: set<(Rid, int)>)

  datatype State = State(cfg: Settings, flags: Flags, board: Board, threads: map<Tid, Thread>, hist: History)

  function Start(observer: bool, activity: bool): State {
    State(Settings(observer, activity || observer), Flags(false, false, None, false, 0), Board(1, {}, map[]), map[],
          History(false, false, false, map[], map[], {}))
  }

  // ---------- Steps ----------

  datatype Program = Request | Reader | Close | BoundClose | HookFailed | Loss

  datatype ObserverDoes = Returns | Raises | Reenters

  datatype Act =
    | Register
    | Passes
    | Fails
    | Sent
    | Get
    | TimesOut
    | Forget
    | Reads(rid: Rid, body: int)
    | ReadsTrouble
    | HookFails
    | Ends
    | Deliver

  datatype Event =
    | Spawn(i: Tid, program: Program)
    | Operate(i: Tid, does: ObserverDoes, wake: Rid)
    | Work(i: Tid, act: Act)

  function Begin(p: Program): Thread {
    match p
    case Request => Thread([], Fresh)
    case Reader => Thread([], Reading)
    case Close => Thread([CloseTest], Free)
    case BoundClose => Thread([Notify, SetClosed(false), Snapshot], Free)
    case HookFailed => Thread([Notify, HookTest], Free)
    case Loss => Thread([Notify], Free)
  }

  predicate CanOperate(s: State, i: Tid, wake: Rid) {
    i in s.threads && s.threads[i].ops != [] &&
    match s.threads[i].ops[0]
    case Notify => s.cfg.observer ==> s.flags.latch in {None, Some(i)}
    case Puts(todo) => todo == {} || wake in todo
    case _ => true
  }

  predicate CanWork(s: State, i: Tid, a: Act) {
    i in s.threads && s.threads[i].ops == [] &&
    var job := s.threads[i].job;
    match a
    case Register => job.Fresh?
    case Passes => job.Checking? && !s.flags.closed
    case Fails => job.Checking? || job.Sending?
    case Sent => job.Sending?
    case Get => job.Waiting? && job.rid in s.board.queues && s.board.queues[job.rid].Some?
    case TimesOut => job.Waiting? && job.rid in s.board.queues && s.board.queues[job.rid].None?
    case Forget => job.Leaving?
    case Reads(_, _) => job.Reading?
    case ReadsTrouble => job.Reading?
    case HookFails => job.Reading?
    case Ends => job.Reading?
    case Deliver => job.Delivering? && job.rid in s.board.queues && s.board.queues[job.rid].None?
  }

  predicate Enabled(s: State, e: Event) {
    match e
    case Spawn(i, _) => i !in s.threads
    case Operate(i, _, wake) => CanOperate(s, i, wake)
    case Work(i, a) => CanWork(s, i, a)
  }

  function Moved(s: State, i: Tid, ops: seq<Op>, job: Job): State {
    s.(threads := s.threads[i := Thread(ops, job)])
  }

  // A message is put into a queue; the first one a request gets is remembered.
  function Delivered(s: State, r: Rid, m: Msg): State {
    var isFirst := r in s.board.queues && s.board.queues[r] == None && r !in s.hist.first;
    s.(board := Offered(s.board, r, m), hist := if isFirst then s.hist.(first := s.hist.first[r := m]) else s.hist)
  }

  // The operations that one at the head turns into.
  function Expands(s: State, op: Op, does: ObserverDoes, wake: Rid): seq<Op> {
    match op
    case CloseTest =>
      if s.flags.closed then [Notify]
      else if s.cfg.activity then [SetClosed(true), Notify, Snapshot] else [SetClosed(true), Notify]
    case HookTest => if !s.cfg.observer || s.flags.closed then [SetClosed(false), Snapshot] else []
    case Notify => if !s.cfg.observer || s.flags.notified then [] else [Observe]
    case Observe => (
      match does
      case Returns => []
      case Raises => [SetClosed(false), Snapshot, Unlatch]
      case Reenters => [CloseTest, Observe])
    case Snapshot => [Puts(s.board.pending)]
    case Puts(todo) => if todo == {} then [] else [Puts(todo - {wake})]
    case _ => []
  }

  // What it does to the flags and the latch.
  function Flagged(s: State, i: Tid, op: Op, does: ObserverDoes): Flags {
    match op
    case SetClosed(_) => s.flags.(closed := true)
    case Notify =>
      if !s.cfg.observer || s.flags.notified then s.flags
      else s.flags.(notified := true, latch := Some(i), calls := s.flags.calls + 1)
    case Observe => (
      match does
      case Returns => s.flags.(observed := true, latch := None)
      case Raises => s.flags.(observed := true)
      case Reenters => s.flags)
    case Unlatch => s.flags.(latch := None)
    case _ => s.flags
  }

  // And what it does to the queues.
  function Woken(s: State, op: Op, wake: Rid): State {
    if op.SetClosed? && !op.plain then s.(hist := s.hist.(ended := true))
    else if !op.Puts? then s
    else if op.todo == {} then s.(hist := s.hist.(drained := true))
    else
      var s1 := Delivered(s, wake, ClosedError);
      s1.(hist := s1.hist.(woke := true))
  }

  function Operated(s: State, i: Tid, does: ObserverDoes, wake: Rid): State
    requires CanOperate(s, i, wake)
  {
    var op, rest := s.threads[i].ops[0], s.threads[i].ops[1..];
    Woken(s, op, wake).(
      flags := Flagged(s, i, op, does),
      threads := s.threads[i := Thread(Expands(s, op, does, wake) + rest, s.threads[i].job)])
  }

  function Worked(s: State, i: Tid, a: Act): State
    requires CanWork(s, i, a)
  {
    var job := s.threads[i].job;
    match a
    case Register =>
      var r := s.board.nextId;
      Moved(s.(board := Registered(s.board), hist := s.hist.(owner := s.hist.owner[r := i])), i, [], Checking(r))
    case Passes => Moved(s, i, [], Sending(job.rid))
    case Fails => Moved(s, i, [Notify], Leaving(job.rid, Raised))
    case Sent => Moved(s, i, [], Waiting(job.rid))
    case Get =>
      Moved(s.(board := Emptied(s.board, job.rid)), i, [], Leaving(job.rid, Got(s.board.queues[job.rid].value)))
    case TimesOut => Moved(s, i, [Notify], Leaving(job.rid, Raised))
    case Forget => Moved(s.(board := Forgotten(s.board, job.rid)), i, [], Done(job.rid, job.outcome))
    case Reads(r, body) =>
      Moved(s.(hist := s.hist.(read := s.hist.read + {(r, body)})), i, [],
            if r in s.board.pending then Delivering(r, Answer(body)) else Reading)
    case ReadsTrouble => Moved(s, i, [Notify], Reading)
    case HookFails => Moved(s, i, [Notify, HookTest], Reading)
    case Ends => Moved(s, i, [SetClosed(false), Notify, Snapshot], Free)
    case Deliver => Moved(Delivered(s, job.rid, job.msg), i, [], Reading)
  }

  function Next(s: State, e: Event): State
    requires Enabled(s, e)
  {
    match e
    case Spawn(i, p) => s.(threads := s.threads[i := Begin(p)])
    case Operate(i, does, wake) => Operated(s, i, does, wake)
    case Work(i, a) => Worked(s, i, a)
  }

  ghost predicate IsStep(s: State, s': State, reentrant: bool) {
    exists e :: Enabled(s, e) && s' == Next(s, e) && (e.Operate? && e.does == Reenters ==> reentrant)
  }

  // A run of a client; `reentrant` says whether its observer may call `close`.
  ghost predicate IsRun(ss: seq<State>, reentrant: bool) {
    ss != [] && (exists o, a :: ss[0] == Start(o, a)) &&
    forall k :: 0 <= k < |ss| - 1 ==> IsStep(ss[k], ss[k + 1], reentrant)
  }

  // ---------- What holds in every run ----------

  // Waiters are woken only after the flag is set.
  predicate ClosedFirst(closed: bool, ops: seq<Op>)
    decreases |ops|
  {
    ops == [] ||
    match ops[0]
    case SetClosed(_) => ClosedFirst(true, ops[1..])
    case Snapshot => closed && ClosedFirst(closed, ops[1..])
    case Puts(_) => closed && ClosedFirst(closed, ops[1..])
    case _ => ClosedFirst(closed, ops[1..])
  }

  predicate Wakes(ops: seq<Op>) { exists k :: 0 <= k < |ops| && (ops[k].Snapshot? || ops[k].Puts?) }

  // Setting the flag is followed by waking the waiters, but in a plain `close` without activity hooks.
  predicate Follows(activity: bool, ops: seq<Op>) {
    forall k :: 0 <= k < |ops| && Owing(activity, ops[k]) ==> exists j :: k < j < |ops| && ops[j].Snapshot?
  }

  predicate Owing(activity: bool, op: Op) { op.SetClosed? && (activity || !op.plain) }

  // Only the operation under way is a wake-up.
  predicate HeadPuts(ops: seq<Op>) { forall k :: 0 < k < |ops| ==> !ops[k].Puts? }

  predicate Owned(s: State, i: Tid, r: Rid) { r in s.hist.owner && s.hist.owner[r] == i && r in s.board.queues }

  // Nothing was put and taken yet.
  predicate QueueOk(s: State, r: Rid) {
    r in s.board.queues &&
    match s.board.queues[r]
    case None => r !in s.hist.first
    case Some(m) => r in s.hist.first && s.hist.first[r] == m
  }

  predicate OutcomeOk(s: State, r: Rid, o: Outcome) { o.Got? ==> r in s.hist.first && s.hist.first[r] == o.msg }

  predicate JobOk(s: State, i: Tid, th: Thread) {
    match th.job
    case Free => true
    case Fresh => th.ops == []
    case Checking(r) => th.ops == [] && Owned(s, i, r) && r in s.board.pending && QueueOk(s, r)
    case Sending(r) => th.ops == [] && Owned(s, i, r) && r in s.board.pending && QueueOk(s, r)
    case Waiting(r) => th.ops == [] && Owned(s, i, r) && r in s.board.pending && QueueOk(s, r)
    case Leaving(r, o) => Owned(s, i, r) && OutcomeOk(s, r, o)
    case Done(r, o) => Owned(s, i, r) && OutcomeOk(s, r, o)
    case Reading => true
    case Delivering(r, _) => r in s.board.queues
  }

  predicate OpsOk(s: State, th: Thread) {
    ClosedFirst(s.flags.closed, th.ops) && HeadPuts(th.ops) && Follows(s.cfg.activity, th.ops) &&
    (th.ops != [] && th.ops[0].Puts? ==> forall r :: r in th.ops[0].todo ==> r in s.board.queues)
  }

  // A request that passed the running check and has no message yet counts on being woken.
  predicate Live(s: State, r: Rid) {
    r in s.hist.owner && s.hist.owner[r] in s.threads &&
    s.threads[s.hist.owner[r]].job in {Sending(r), Waiting(r)}
  }

  predicate HasMessage(s: State, r: Rid) { r in s.board.queues && s.board.queues[r].Some? }

  ghost predicate CoverOk(s: State, th: Thread) {
    th.ops != [] && th.ops[0].Puts? ==> forall r :: Live(s, r) ==> HasMessage(s, r) || r in th.ops[0].todo
  }

  ghost predicate BoardOk(s: State) {
    && (forall r :: r in s.board.queues <==> r < s.board.nextId && r in s.hist.owner)
    && (forall r :: r in s.hist.owner || r in s.hist.first || r in s.board.pending ==> r in s.board.queues)
  }

  // The flag was set by a closer that goes on to wake the waiters.
  predicate MustWake(s: State) { s.flags.closed && (s.cfg.activity || s.hist.ended) }

  ghost predicate WakeOk(s: State) {
    && (s.hist.drained ==> s.flags.closed && forall r :: Live(s, r) ==> HasMessage(s, r))
    && (s.hist.ended ==> s.flags.closed)
    && (MustWake(s) ==> s.hist.drained || exists i :: i in s.threads && Wakes(s.threads[i].ops))
  }

  predicate CallOnce(f: Flags) { f.calls == if f.notified then 1 else 0 }

  ghost predicate Inv(s: State) {
    && BoardOk(s) && WakeOk(s)
    && CallOnce(s.flags)
    && (forall i :: i in s.threads ==> JobOk(s, i, s.threads[i]) && OpsOk(s, s.threads[i]) && CoverOk(s, s.threads[i]))
  }

  /** Every step of every thread keeps the invariant, re-entrant observers included. */
  lemma {:induction false} StepKeeps(s: State, e: Event)
    requires Inv(s) && Enabled(s, e)
    ensures Inv(Next(s, e))
  {
    hide Inv, Operated, Worked, CanOperate, CanWork, Begin;
    match e
    case Spawn(i, p) => SpawnKeeps(s, i, p);
    case Operate(i, does, wake) => OperateKeeps(s, i, does, wake);
    case Work(i, a) =>
      if a.Register? { RegisterKeeps(s, i); } else if a.Get? { GetKeeps(s, i); }
      else if a.Forget? { ForgetKeeps(s, i); } else if a.Deliver? { DeliverKeeps(s, i); } else { QuietWork(s, i, a); }
  }

  lemma {:induction false} RunKeeps(ss: seq<State>, reentrant: bool, k: nat)
    requires IsRun(ss, reentrant) && k < |ss|
    ensures Inv(ss[k])
  {
    if k > 0 {
      RunKeeps(ss, reentrant, k - 1);
      hide Inv, Enabled, Next;
      assert IsStep(ss[k - 1], ss[k - 1 + 1], reentrant);
      var e :| Enabled(ss[k - 1], e) && ss[k] == Next(ss[k - 1], e);
      StepKeeps(ss[k - 1], e);
    }
  }

  // ---------- Nobody waits out a closed transport ----------

  /** Once a closer has woken the waiters it copied, every request that waits has its message and
      cannot time out, and a request that has not sent yet fails at the running check. */
  lemma {:induction false} NobodyWaitsOut(ss: seq<State>, reentrant: bool, k: nat, i: Tid)
    requires IsRun(ss, reentrant) && k < |ss| && ss[k].hist.drained && i in ss[k].threads
    ensures ss[k].flags.closed
    ensures ss[k].threads[i].job.Waiting? ==> CanWork(ss[k], i, Get) && !CanWork(ss[k], i, TimesOut)
    ensures !CanWork(ss[k], i, Passes)
  {
    RunKeeps(ss, reentrant, k);
    hide OpsOk, CoverOk, BoardOk;
    assert JobOk(ss[k], i, ss[k].threads[i]);
    if ss[k].threads[i].job.Waiting? { assert Live(ss[k], ss[k].threads[i].job.rid); }
  }

  /** For every configuration: once the flag is set by any closer but a plain `close` without activity
      hooks, waiters have been woken or some thread still has that to do. */
  lemma {:induction false} ClosedIsFollowed(ss: seq<State>, reentrant: bool, k: nat)
    requires IsRun(ss, reentrant) && k < |ss| && MustWake(ss[k])
    ensures ss[k].hist.drained || exists i :: i in ss[k].threads && Wakes(ss[k].threads[i].ops)
  {
    RunKeeps(ss, reentrant, k);
  }

  // A closer that has set the flag still has a wake-up to make: none of its settings is yet to come.
  predicate Owes(ops: seq<Op>) {
    exists k :: 0 <= k < |ops| && IsWake(ops[k]) && forall j :: 0 <= j < k ==> !ops[j].SetClosed?
  }

  /** And only then: after a plain `close` without activity hooks nobody has been woken, and no thread
      that has set the flag has a wake-up to make. */
  lemma {:induction false} ElseNotFollowed(ss: seq<State>, reentrant: bool, k: nat)
    requires IsRun(ss, reentrant) && k < |ss| && ss[k].flags.closed && !MustWake(ss[k])
    ensures !ss[k].hist.drained && forall i :: i in ss[k].threads ==> !Owes(ss[k].threads[i].ops)
  {
    RunIsBare(ss, reentrant, k);
    hide BareOps;
    forall i | i in ss[k].threads ensures !Owes(ss[k].threads[i].ops) {
      var ops := ss[k].threads[i].ops;
      if Owes(ops) {
        var j: nat :| j < |ops| && IsWake(ops[j]) && forall m :: 0 <= m < j ==> !ops[m].SetClosed?;
        OwesEnded(ss[k].hist.ended, ops, j);
      }
    }
  }

  lemma {:induction false} FirstGrows(s: State, e: Event, r: Rid)
    requires Enabled(s, e) && r in s.hist.first
    ensures r in Next(s, e).hist.first && Next(s, e).hist.first[r] == s.hist.first[r]
  {
  }

  lemma {:induction false} FirstStays(ss: seq<State>, reentrant: bool, j: nat, k: nat, r: Rid)
    requires IsRun(ss, reentrant) && j <= k < |ss| && r in ss[j].hist.first
    ensures r in ss[k].hist.first && ss[k].hist.first[r] == ss[j].hist.first[r]
  {
    if j < k {
      FirstStays(ss, reentrant, j, k - 1, r);
      hide Enabled, Next;
      assert IsStep(ss[k - 1], ss[k - 1 + 1], reentrant);
      var e :| Enabled(ss[k - 1], e) && ss[k] == Next(ss[k - 1], e);
      FirstGrows(ss[k - 1], e, r);
    }
  }

  predicate HasOutcome(job: Job, r: Rid, o: Outcome) { job == Leaving(r, o) || job == Done(r, o) }

  /** A message that reached a request's queue, an answer or the closing error, is the one the
      request returns: nothing that comes later replaces it. */
  lemma {:induction false} FirstMessageStays(ss: seq<State>, reentrant: bool, j: nat, k: nat, i: Tid, r: Rid, m: Msg,
                                             m': Msg)
    requires IsRun(ss, reentrant) && j <= k < |ss| && i in ss[j].threads && i in ss[k].threads
    requires ss[j].threads[i].job in {Checking(r), Sending(r), Waiting(r)}
    requires r in ss[j].board.queues && ss[j].board.queues[r] == Some(m)
    requires HasOutcome(ss[k].threads[i].job, r, Got(m'))
    ensures m' == m
  {
    RunKeeps(ss, reentrant, j);
    RunKeeps(ss, reentrant, k);
    FirstStays(ss, reentrant, j, k, r) by { assert JobOk(ss[j], i, ss[j].threads[i]); }
    assert JobOk(ss[j], i, ss[j].threads[i]) && JobOk(ss[k], i, ss[k].threads[i]);
  }

  // ---------- Answers go to the requests they answer ----------

  // The reader has read this answer to this request.
  ghost predicate WasRead(ss: seq<State>, k: nat, r: Rid, body: int)
    requires k < |ss|
  {
    exists j, n ::
      0 <= j < k && Enabled(ss[j], Work(n, Reads(r, body))) && ss[j + 1] == Next(ss[j], Work(n, Reads(r, body)))
  }

  /** An answer that a request returns is one the server gave to that request, and the thread that
      returns it is the one that made the request. */
  lemma {:induction false} AnswersAreOwn(ss: seq<State>, reentrant: bool, k: nat, i: Tid, r: Rid, body: int)
    requires IsRun(ss, reentrant) && k < |ss| && i in ss[k].threads
    requires HasOutcome(ss[k].threads[i].job, r, Got(Answer(body)))
    ensures r in ss[k].hist.owner && ss[k].hist.owner[r] == i
    ensures WasRead(ss, k, r, body)
  {
    RunKeeps(ss, reentrant, k);
    assert JobOk(ss[k], i, ss[k].threads[i]);
    RunReads(ss, reentrant, k);
    assert JobRead(ss[k].hist.read, ss[k].threads[i].job);
    hide Inv, IsRun;
    ReadHappened(ss, reentrant, k, r, body);
  }

  predicate MsgRead(read: set<(Rid, int)>, r: Rid, m: Msg) { m.Answer? ==> (r, m.body) in read }

  predicate JobRead(read: set<(Rid, int)>, job: Job) {
    match job
    case Delivering(r, m) => MsgRead(read, r, m)
    case Leaving(r, o) => o.Got? ==> MsgRead(read, r, o.msg)
    case Done(r, o) => o.Got? ==> MsgRead(read, r, o.msg)
    case _ => true
  }

  // Every answer on its way was read with the identifier it is on its way to.
  ghost predicate AllRead(s: State) {
    && (forall r :: r in s.board.queues && s.board.queues[r].Some? ==> MsgRead(s.hist.read, r, s.board.queues[r].value))
    && (forall i :: i in s.threads ==> JobRead(s.hist.read, s.threads[i].job))
  }

  lemma {:induction false} ReadStep(s: State, e: Event)
    requires AllRead(s) && Enabled(s, e)
    ensures AllRead(Next(s, e))
    ensures s.hist.read <= Next(s, e).hist.read
    ensures forall r, b :: (r, b) in Next(s, e).hist.read ==> (r, b) in s.hist.read || (e.Work? && e.act == Reads(r, b))
  {
    hide JobRead, MsgRead;
    match e
    case Spawn(i, p) => assert JobRead(s.hist.read, Begin(p).job) by { BeginReads(s.hist.read, p); }
    case Operate(i, does, wake) => OperateReads(s, i, does, wake);
    case Work(i, a) => WorkReads(s, i, a);
  }

  lemma BeginReads(read: set<(Rid, int)>, p: Program)
    ensures JobRead(read, Begin(p).job)
  {
  }

  lemma {:induction false} OperateReads(s: State, i: Tid, does: ObserverDoes, wake: Rid)
    requires AllRead(s) && CanOperate(s, i, wake)
    ensures AllRead(Operated(s, i, does, wake)) && Operated(s, i, does, wake).hist.read == s.hist.read
  {
    hide JobRead;
    assert JobRead(s.hist.read, s.threads[i].job);
  }

  lemma {:induction false} WorkReads(s: State, i: Tid, a: Act)
    requires AllRead(s) && CanWork(s, i, a)
    ensures AllRead(Worked(s, i, a))
    ensures Worked(s, i, a).hist.read == s.hist.read + if a.Reads? then {(a.rid, a.body)} else {}
  {
    assert JobRead(s.hist.read, s.threads[i].job);
  }

  lemma {:induction false} RunReads(ss: seq<State>, reentrant: bool, k: nat)
    requires IsRun(ss, reentrant) && k < |ss|
    ensures AllRead(ss[k])
  {
    if k > 0 {
      RunReads(ss, reentrant, k - 1);
      hide AllRead, Enabled, Next;
      assert IsStep(ss[k - 1], ss[k - 1 + 1], reentrant);
      var e :| Enabled(ss[k - 1], e) && ss[k] == Next(ss[k - 1], e);
      ReadStep(ss[k - 1], e);
    }
  }

  lemma {:induction false} ReadHappened(ss: seq<State>, reentrant: bool, k: nat, r: Rid, body: int)
    requires IsRun(ss, reentrant) && k < |ss| && (r, body) in ss[k].hist.read
    ensures WasRead(ss, k, r, body)
  {
    if k > 0 {
      RunReads(ss, reentrant, k - 1);
      hide AllRead, Enabled, Next;
      assert IsStep(ss[k - 1], ss[k - 1 + 1], reentrant);
      var e :| Enabled(ss[k - 1], e) && ss[k] == Next(ss[k - 1], e);
      ReadStep(ss[k - 1], e);
      if (r, body) in ss[k - 1].hist.read { ReadHappened(ss, reentrant, k - 1, r, body); }
    }
  }

  /** An answer that is read for a pending request with nothing in its queue is put there and nowhere
      else; one for a request that is not pending is dropped. */
  lemma {:induction false} AnswerIsDelivered(ss: seq<State>, reentrant: bool, k: nat, n: Tid, r: Rid, body: int)
    requires IsRun(ss, reentrant) && k < |ss| && n in ss[k].threads && ss[k].threads[n] == Thread([], Reading)
    ensures CanWork(ss[k], n, Reads(r, body))
    ensures var s' := Worked(ss[k], n, Reads(r, body));
      if r in ss[k].board.pending && !HasMessage(ss[k], r) then
        CanWork(s', n, Deliver) && Worked(s', n, Deliver).threads == ss[k].threads &&
        Worked(s', n, Deliver).board == ss[k].board.(queues := ss[k].board.queues[r := Some(Answer(body))])
      else
        !CanWork(s', n, Deliver) && s'.board == ss[k].board &&
        (r !in ss[k].board.pending ==> s'.threads == ss[k].threads)
  {
    RunKeeps(ss, reentrant, k);
    hide JobOk, OpsOk, CoverOk, WakeOk, IsRun;
    var s := ss[k];
    var s' := Worked(s, n, Reads(r, body));
    if r in s.board.pending {
      assert r in s.board.queues;
      if !HasMessage(s, r) { assert Worked(s', n, Deliver).threads == s.threads; }
    } else {
      assert s'.threads == s.threads;
    }
  }

  // ---------- The reader's blocking put ----------

  // The request is on its way out, or will fail at the running check: it takes no message any more.
  predicate Gone(s: State, r: Rid) {
    r in s.hist.owner && s.hist.owner[r] in s.threads &&
    var job := s.threads[s.hist.owner[r]].job;
    (job.Leaving? && job.rid == r) || (job.Done? && job.rid == r) || (job == Checking(r) && s.flags.closed)
  }

  predicate Blocked(s: State, i: Tid) {
    i in s.threads && s.threads[i].ops == [] && s.threads[i].job.Delivering? && HasMessage(s, s.threads[i].job.rid)
  }

  /** A reader that has a message for a full queue is stuck when the request is gone. */
  predicate Stuck(s: State, i: Tid) { Blocked(s, i) && Gone(s, s.threads[i].job.rid) }

  /** It stays so for good: no step of any thread lets it go on. */
  lemma {:induction false} StuckForGood(ss: seq<State>, reentrant: bool, j: nat, k: nat, i: Tid)
    requires IsRun(ss, reentrant) && j <= k < |ss| && Stuck(ss[j], i)
    ensures Stuck(ss[k], i) && ss[k].threads[i] == ss[j].threads[i] && !CanWork(ss[k], i, Deliver)
  {
    hide Stuck, CanWork, IsStep;
    if j < k {
      StuckForGood(ss, reentrant, j, k - 1, i);
      RunKeeps(ss, reentrant, k - 1);
      hide Inv;
      assert IsStep(ss[k - 1], ss[k - 1 + 1], reentrant);
      StuckSteps(ss[k - 1], ss[k], reentrant, i);
    }
    StuckCannot(ss[k], i);
  }

  /** And only then: while the request is not gone, steps of its own thread let a blocked reader go on. */
  lemma {:induction false} ElseUnblocked(ss: seq<State>, reentrant: bool, k: nat, i: Tid) returns (es: seq<Event>)
    requires IsRun(ss, reentrant) && k < |ss| && Blocked(ss[k], i) && !Stuck(ss[k], i)
    ensures Legal(ss[k], es) && CanWork(After(ss[k], es), i, Deliver)
  {
    RunKeeps(ss, reentrant, k);
    RunHasOwners(ss, reentrant, k);
    es := Unblock(ss[k], i);
  }

  predicate Legal(s: State, es: seq<Event>)
    decreases |es|
  {
    es == [] || (Enabled(s, es[0]) && Legal(Next(s, es[0]), es[1..]))
  }

  function After(s: State, es: seq<Event>): State
    requires Legal(s, es)
    decreases |es|
  {
    if es == [] then s else After(Next(s, es[0]), es[1..])
  }

  // ---------- The observer ----------

  /** The observer is called at most once in the life of a client. */
  lemma {:induction false} ObservedOnce(ss: seq<State>, reentrant: bool, k: nat)
    requires IsRun(ss, reentrant) && k < |ss|
    ensures ss[k].flags.calls <= 1
  {
    RunKeeps(ss, reentrant, k);
  }

  /** An observer that does not call back into the client has returned or raised before any waiter
      is woken with the closing error, whichever thread closes first. */
  lemma {:induction false} ObservedBeforeWaking(ss: seq<State>, k: nat)
    requires IsRun(ss, false) && k < |ss| && ss[k].hist.woke && ss[k].cfg.observer
    ensures ss[k].flags.observed && ss[k].flags.calls == 1
  {
    RunIsCalm(ss, k);
    RunKeeps(ss, false, k);
  }

  /** An observer that calls `close` wakes waiters while it is still running. */
  lemma {:induction false} ReentrantWakesEarly()
    ensures exists s :: Reaches(s, true) && s.cfg.observer && s.hist.woke && !s.flags.observed
  {
    hide Reaches, Operated;
    var s := ObserverEntered();
    s := Reenter(s, Reenters, [CloseTest, Observe]);
    s := Reenter(s, Returns, [SetClosed(true), Notify, Snapshot, Observe]);
    s := Reenter(s, Returns, [Notify, Snapshot, Observe]);
    s := Reenter(s, Returns, [Snapshot, Observe]);
    s := Reenter(s, Returns, [Puts({1}), Observe]);
    var nobody: set<Rid> := {1} - {1};
    assert nobody == {};
    s := Reenter(s, Returns, [Puts(nobody), Observe]);
  }

  // ---------- The shared tables of one client ----------

  // Of the given waiters, those with an empty queue get the closing error.
  function Offering(b: Board, waiters: set<Rid>): Board {
    b.(queues := map r | r in b.queues ::
         if r in waiters && b.queues[r] == None then Some(ClosedError) else b.queues[r])
  }

  function Failed(b: Board): Board { Offering(b, b.pending) }

  class Transport {
    var nextId: Rid
    var pending: set<Rid>
    var queues: map<Rid, Option<Msg>>
    var closed: bool

    function View(): Board
      reads this
    {
      Board(nextId, pending, queues)
    }

    constructor ()
      ensures View() == Board(1, {}, map[]) && !closed
    {
      nextId, pending, queues, closed := 1, {}, map[], false;
    }

    // The first guarded block of `_request`.
    method Register() returns (rid: Rid)
      modifies this`nextId, this`pending, this`queues
      ensures rid == old(nextId) && View() == Registered(old(View()))
    {
      rid := nextId;
      nextId := nextId + 1;
      queues := queues[rid := None];
      pending := pending + {rid};
    }

    // The last one, in `finally`.
    method Forget(rid: Rid)
      modifies this`pending
      ensures View() == Forgotten(old(View()), rid)
    {
      pending := pending - {rid};
    }

    method PutNowait(rid: Rid, msg: Msg)
      modifies this`queues
      ensures View() == Offered(old(View()), rid, msg)
    {
      if rid in queues && queues[rid] == None { queues := queues[rid := Some(msg)]; }
    }

    // `_fail_pending`
    method FailPending()
      modifies this`queues
      ensures View() == Failed(old(View()))
    {
      var waiters := pending;
      ghost var b := View();
      while waiters != {}
        invariant waiters <= pending && queues.Keys == b.queues.Keys
        invariant forall r :: r in queues ==>
          queues[r] == (if r in pending - waiters && b.queues[r] == None then Some(ClosedError) else b.queues[r])
      {
        var r :| r in waiters;
        PutNowait(r, ClosedError);
        waiters := waiters - {r};
      }
      assert queues == Failed(b).queues;
    }
  }

  /** Waking leaves no waiter with an empty queue and no delivered message changed. */
  lemma {:induction false} FailedWakesAll(b: Board, r: Rid)
    requires r in b.queues
    ensures r in b.pending ==> Failed(b).queues[r].Some?
    ensures b.queues[r].Some? || r !in b.pending ==> Failed(b).queues[r] == b.queues[r]
    ensures Failed(Failed(b)) == Failed(b)
  {
  }

  // ---------- A step moves one thread ----------

  ghost predicate Mono(s: State, s': State, i: Tid) {
    && s'.cfg == s.cfg && (s.flags.closed ==> s'.flags.closed)
    && i in s.threads && i in s'.threads && s'.threads == s.threads[i := s'.threads[i]]
    && (forall r :: r in s.board.queues ==> r in s'.board.queues)
    && (forall r :: r in s.hist.owner ==> r in s'.hist.owner && s'.hist.owner[r] == s.hist.owner[r])
    && (forall r :: r in s.hist.first ==> r in s'.hist.first && s'.hist.first[r] == s.hist.first[r])
    && (forall r :: r in s.hist.owner && s.hist.owner[r] != i && QueueOk(s, r) ==> QueueOk(s', r))
    && (forall r :: r in s.hist.owner && s.hist.owner[r] != i && r in s.board.pending ==> r in s'.board.pending)
    && (forall r :: Live(s', r) ==> !s.flags.closed || (Live(s, r) && (HasMessage(s, r) ==> HasMessage(s', r))))
  }

  lemma {:induction false} ClosedFirstMono(closed: bool, ops: seq<Op>)
    requires ClosedFirst(closed, ops)
    ensures ClosedFirst(true, ops)
    decreases |ops|
  {
    if ops != [] && !ops[0].SetClosed? { ClosedFirstMono(closed, ops[1..]); }
  }

  lemma {:induction false} Elsewhere(s: State, s': State, i: Tid, j: Tid)
    requires Mono(s, s', i) && j in s.threads && j != i
    requires JobOk(s, j, s.threads[j]) && OpsOk(s, s.threads[j]) && CoverOk(s, s.threads[j])
    ensures JobOk(s', j, s'.threads[j]) && OpsOk(s', s'.threads[j]) && CoverOk(s', s'.threads[j])
  {
    hide QueueOk, Live, HasMessage, Follows;
    if s'.flags.closed { ClosedFirstMono(s.flags.closed, s.threads[j].ops); }
  }

  lemma {:induction false} WakeKept(s: State, s': State, i: Tid)
    requires WakeOk(s) && Mono(s, s', i) && s.hist.drained == s'.hist.drained
    requires s'.hist.ended ==> s.hist.ended || s'.flags.closed
    requires Wakes(s.threads[i].ops) ==> Wakes(s'.threads[i].ops)
    requires MustWake(s') && !MustWake(s) && (s.hist.ended ==> s.flags.closed) ==> Wakes(s'.threads[i].ops)
    ensures WakeOk(s')
  {
    hide QueueOk, Live, HasMessage, Wakes;
    if MustWake(s') && !s.hist.drained && MustWake(s) {
      var j :| j in s.threads && Wakes(s.threads[j].ops);
      assert j in s'.threads && Wakes(s'.threads[j].ops);
    }
  }

  lemma {:induction false} KeepsInv(s: State, s': State, i: Tid)
    requires Inv(s) && Mono(s, s', i) && BoardOk(s') && WakeOk(s')
    requires CallOnce(s'.flags)
    requires JobOk(s', i, s'.threads[i]) && OpsOk(s', s'.threads[i]) && CoverOk(s', s'.threads[i])
    ensures Inv(s')
  {
    hide BoardOk, WakeOk, JobOk, OpsOk, CoverOk, Mono;
    assert s'.threads == s.threads[i := s'.threads[i]] by { assert Mono(s, s', i); MonoThreads(s, s', i); }
    forall j | j in s'.threads
      ensures JobOk(s', j, s'.threads[j]) && OpsOk(s', s'.threads[j]) && CoverOk(s', s'.threads[j])
    {
      if j != i { Elsewhere(s, s', i, j); }
    }
  }

  lemma MonoThreads(s: State, s': State, i: Tid)
    requires Mono(s, s', i)
    ensures s'.threads == s.threads[i := s'.threads[i]]
  {
  }

  // A step that changes no board, and leaves the thread live only where it was, is monotone.
  lemma {:induction false} QuietMono(s: State, s': State, i: Tid)
    requires i in s.threads && i in s'.threads && s'.threads == s.threads[i := s'.threads[i]]
    requires s'.cfg == s.cfg && (s.flags.closed ==> s'.flags.closed)
    requires s'.board == s.board && s'.hist.owner == s.hist.owner && s'.hist.first == s.hist.first
    requires forall r :: s'.threads[i].job in {Sending(r), Waiting(r)} ==>
      !s.flags.closed || s.threads[i].job in {Sending(r), Waiting(r)}
    ensures Mono(s, s', i)
  {
    forall r | Live(s', r) ensures !s.flags.closed || Live(s, r) { }
  }

  // Dropping the head of the operations.
  lemma {:induction false} PopOps(ops: seq<Op>, activity: bool)
    requires ops != [] && HeadPuts(ops)
    ensures HeadPuts(ops[1..]) && (ops[1..] != [] ==> !ops[1..][0].Puts?)
    ensures Follows(activity, ops) ==> Follows(activity, ops[1..])
    ensures Follows(activity, ops) && Owing(activity, ops[0]) ==> Wakes(ops[1..])
    ensures Wakes(ops) && !ops[0].Snapshot? && !ops[0].Puts? ==> Wakes(ops[1..])
  {
    var rest := ops[1..];
    forall k | 0 <= k < |rest| ensures rest[k] == ops[k + 1] { }
    if Follows(activity, ops) {
      forall k | 0 <= k < |rest| && Owing(activity, rest[k]) ensures exists j :: k < j < |rest| && rest[j].Snapshot? {
        var j :| k + 1 < j < |ops| && ops[j].Snapshot?;
        assert rest[j - 1] == ops[j];
      }
      if Owing(activity, ops[0]) {
        var j :| 0 < j < |ops| && ops[j].Snapshot?;
        assert rest[j - 1].Snapshot?;
      }
    }
    if Wakes(ops) && !ops[0].Snapshot? && !ops[0].Puts? {
      var j :| 0 <= j < |ops| && (ops[j].Snapshot? || ops[j].Puts?);
      assert rest[j - 1] == ops[j];
    }
  }

  // Putting operations in front.
  lemma {:induction false} PushOps(front: seq<Op>, rest: seq<Op>, activity: bool, closed: bool)
    requires forall k :: 0 <= k < |rest| ==> !rest[k].Puts?
    requires forall k :: 0 < k < |front| ==> !front[k].Puts?
    requires Follows(activity, front) && Follows(activity, rest)
    ensures HeadPuts(front + rest)
    ensures Follows(activity, front + rest)
    ensures Wakes(rest) || Wakes(front) ==> Wakes(front + rest)
  {
    var ops := front + rest;
    forall k | 0 <= k < |rest| ensures ops[|front| + k] == rest[k] { }
    forall k | 0 <= k < |ops| && Owing(activity, ops[k]) ensures exists j :: k < j < |ops| && ops[j].Snapshot? {
      if k < |front| {
        var j :| k < j < |front| && front[j].Snapshot?;
        assert ops[j].Snapshot?;
      } else {
        var j :| k - |front| < j < |rest| && rest[j].Snapshot?;
        assert ops[|front| + j].Snapshot?;
      }
    }
    if Wakes(rest) {
      var j :| 0 <= j < |rest| && (rest[j].Snapshot? || rest[j].Puts?);
      assert ops[|front| + j] == rest[j];
    } else if Wakes(front) {
      var j :| 0 <= j < |front| && (front[j].Snapshot? || front[j].Puts?);
      assert ops[j] == front[j];
    }
  }

  // Heads that `ClosedFirst` passes over.
  predicate Plain(op: Op) { !op.SetClosed? && !op.Snapshot? && !op.Puts? }

  lemma {:induction false} ClosedTail(closed: bool, ops: seq<Op>)
    requires ops != [] && ClosedFirst(closed, ops)
    ensures ClosedFirst(true, ops[1..])
    ensures !ops[0].SetClosed? ==> ClosedFirst(closed, ops[1..])
  {
    if !ops[0].SetClosed? { ClosedFirstMono(closed, ops[1..]); }
  }

  lemma {:induction false} PlainPush(closed: bool, op: Op, rest: seq<Op>)
    requires Plain(op) && ClosedFirst(closed, rest)
    ensures ClosedFirst(closed, [op] + rest)
  {
    assert ([op] + rest)[1..] == rest;
  }

  lemma {:induction false} SetPush(closed: bool, op: Op, rest: seq<Op>)
    requires op.SetClosed? && ClosedFirst(true, rest)
    ensures ClosedFirst(closed, [op] + rest)
  {
    assert ([op] + rest)[1..] == rest;
  }

  lemma {:induction false} SnapshotPush(rest: seq<Op>)
    requires ClosedFirst(true, rest)
    ensures ClosedFirst(true, [Snapshot] + rest)
  {
    assert ([Snapshot] + rest)[1..] == rest;
  }

  // The lists that steps put in front.
  ghost predicate Front(front: seq<Op>, activity: bool) {
    front in {[], [Notify], [Observe], [CloseTest, Observe], [SetClosed(false), Notify, Snapshot],
              [SetClosed(false), Snapshot], [SetClosed(false), Snapshot, Unlatch]} ||
      (activity && front == [SetClosed(true), Notify, Snapshot]) ||
      (!activity && front == [SetClosed(true), Notify])
  }

  lemma {:induction false} FrontOk(front: seq<Op>, rest: seq<Op>, activity: bool, closed: bool)
    requires Front(front, activity) && ClosedFirst(closed, rest)
    ensures ClosedFirst(closed, front + rest)
    ensures forall k :: 0 <= k < |front| ==> !front[k].Puts?
    ensures Follows(activity, front)
  {
    ClosedFirstMono(closed, rest);
    if front == [] {
      assert front + rest == rest;
    } else if front == [Notify] || front == [Observe] {
      PlainPush(closed, front[0], rest);
    } else if front == [CloseTest, Observe] {
      PlainPush(closed, Observe, rest);
      PlainPush(closed, CloseTest, [Observe] + rest);
      assert front + rest == [CloseTest] + ([Observe] + rest);
    } else {
      FrontFollows(front, activity);
      FrontSets(front, rest, activity, closed);
    }
  }

  lemma {:induction false} FrontFollows(front: seq<Op>, activity: bool)
    requires Front(front, activity) && front != [] && front[0].SetClosed?
    ensures forall k :: 0 <= k < |front| ==> !front[k].Puts?
    ensures Follows(activity, front)
  {
    if |front| == 3 && front[2] == Snapshot {
    } else if Owing(activity, front[0]) {
      assert front[1] == Snapshot;
    }
  }

  lemma {:induction false} FrontSets(front: seq<Op>, rest: seq<Op>, activity: bool, closed: bool)
    requires Front(front, activity) && front != [] && front[0].SetClosed? && ClosedFirst(true, rest)
    ensures ClosedFirst(closed, front + rest)
  {
    hide ClosedFirst;
    assert |front| == 3 || front == [front[0], front[1]];
    if |front| == 2 {
      SetsTwo(front[0], front[1], rest, closed);
    } else {
      SetsThree(front[0], front[1], front[2], rest, closed);
      assert front == [front[0], front[1], front[2]];
    }
  }

  lemma {:induction false} SetsTwo(sets: Op, op: Op, rest: seq<Op>, closed: bool)
    requires sets.SetClosed? && (op.Snapshot? || op.Notify?) && ClosedFirst(true, rest)
    ensures ClosedFirst(closed, [sets, op] + rest)
  {
    hide ClosedFirst;
    if op.Snapshot? { SnapshotPush(rest); } else { PlainPush(true, op, rest); }
    SetPush(closed, sets, [op] + rest);
    assert [sets, op] + rest == [sets] + ([op] + rest);
  }

  lemma {:induction false} SetsThree(sets: Op, op: Op, last: Op, rest: seq<Op>, closed: bool)
    requires sets.SetClosed? && (op.Snapshot? || op.Notify?) && (last.Snapshot? || last.Unlatch?)
    requires ClosedFirst(true, rest)
    ensures ClosedFirst(closed, [sets, op, last] + rest)
  {
    hide ClosedFirst;
    if last.Snapshot? { SnapshotPush(rest); } else { PlainPush(true, last, rest); }
    SetsTwo(sets, op, [last] + rest, closed);
    assert [sets, op, last] + rest == [sets, op] + ([last] + rest);
  }

  // A step that replaces the head of the operations and touches no queue.
  lemma {:induction false} SpliceKeeps(s: State, s': State, i: Tid, front: seq<Op>)
    requires Inv(s) && i in s.threads && s.threads[i].ops != []
    requires Front(front, s.cfg.activity) && !s.threads[i].ops[0].Snapshot? && !s.threads[i].ops[0].Puts?
    requires s'.threads == s.threads[i := Thread(front + s.threads[i].ops[1..], s.threads[i].job)]
    requires s'.cfg == s.cfg && s'.board == s.board
    requires var op := s.threads[i].ops[0];
      s'.hist == if op.SetClosed? && !op.plain then s.hist.(ended := true) else s.hist
    requires s'.flags.closed == (s.flags.closed || s.threads[i].ops[0].SetClosed?)
    requires CallOnce(s'.flags)
    ensures Inv(s')
  {
    hide QueueOk, Live, HasMessage, ClosedFirst, Follows, Wakes, HeadPuts, CoverOk, WakeOk, BoardOk;
    var ops := s.threads[i].ops;
    assert JobOk(s, i, s.threads[i]) && OpsOk(s, s.threads[i]) && s.threads[i].job == s'.threads[i].job;
    QuietMono(s, s', i);
    ClosedTail(s.flags.closed, ops);
    PopOps(ops, s.cfg.activity);
    NoPuts(ops);
    FrontOk(front, ops[1..], s.cfg.activity, s'.flags.closed);
    PushOps(front, ops[1..], s.cfg.activity, s'.flags.closed);
    WakeKept(s, s', i);
    SameJob(s, s', i);
    SpliceCover(s', i, front, ops[1..]);
    KeepsInv(s, s', i);
  }

  lemma NoPuts(ops: seq<Op>)
    requires ops != [] && HeadPuts(ops)
    ensures forall k :: 0 <= k < |ops[1..]| ==> !ops[1..][k].Puts?
  {
  }

  lemma {:induction false} SpliceCover(s': State, i: Tid, front: seq<Op>, rest: seq<Op>)
    requires i in s'.threads && s'.threads[i].ops == front + rest
    requires forall k :: 0 <= k < |front| ==> !front[k].Puts?
    requires forall k :: 0 <= k < |rest| ==> !rest[k].Puts?
    ensures CoverOk(s', s'.threads[i]) && (s'.threads[i].ops != [] ==> !s'.threads[i].ops[0].Puts?)
  {
  }

  lemma SameJob(s: State, s': State, i: Tid)
    requires i in s.threads && i in s'.threads && s.threads[i].job == s'.threads[i].job
    requires JobOk(s, i, s.threads[i]) && s.threads[i].ops != []
    requires s'.board == s.board && s'.hist.owner == s.hist.owner && s'.hist.first == s.hist.first
    ensures JobOk(s', i, s'.threads[i])
    ensures BoardOk(s) ==> BoardOk(s')
  {
  }

  lemma FlagsAre(s: State, i: Tid, op: Op, does: ObserverDoes)
    ensures Flagged(s, i, op, does).closed == (s.flags.closed || op.SetClosed?)
    ensures CallOnce(s.flags) ==> CallOnce(Flagged(s, i, op, does))
  {
  }

  lemma {:induction false} SplicedKeeps(s: State, i: Tid, does: ObserverDoes, wake: Rid)
    requires Inv(s) && CanOperate(s, i, wake) && !s.threads[i].ops[0].Snapshot? && !s.threads[i].ops[0].Puts?
    ensures Inv(Operated(s, i, does, wake))
  {
    hide Inv, Front, Expands, Flagged;
    CallsOk(s);
    var op := s.threads[i].ops[0];
    FlagsAre(s, i, op, does);
    Fronts(s, op, does, wake);
    SpliceKeeps(s, Operated(s, i, does, wake), i, Expands(s, op, does, wake));
  }

  lemma CallsOk(s: State)
    requires Inv(s)
    ensures CallOnce(s.flags)
  {
  }

  lemma Fronts(s: State, op: Op, does: ObserverDoes, wake: Rid)
    requires !op.Snapshot? && !op.Puts?
    ensures Front(Expands(s, op, does, wake), s.cfg.activity)
  {
  }

  lemma {:induction false} LiveIsPending(s: State, r: Rid)
    requires Inv(s) && Live(s, r)
    ensures r in s.board.pending && r in s.board.queues
  {
    hide OpsOk, CoverOk, QueueOk;
    assert JobOk(s, s.hist.owner[r], s.threads[s.hist.owner[r]]);
  }

  lemma {:induction false} SnapshotKeeps(s: State, i: Tid, does: ObserverDoes, wake: Rid)
    requires Inv(s) && CanOperate(s, i, wake) && s.threads[i].ops[0].Snapshot?
    ensures Inv(Operated(s, i, does, wake))
  {
    hide QueueOk, HasMessage, Follows, HeadPuts, WakeOk;
    var s', ops := Operated(s, i, does, wake), s.threads[i].ops;
    var ops' := s'.threads[i].ops;
    assert JobOk(s, i, s.threads[i]) && OpsOk(s, s.threads[i]);
    PopOps(ops, s.cfg.activity);
    NoPuts(ops);
    assert ops'[1..] == ops[1..] && ops'[0].Puts?;
    PutsOps(s.board.pending, ops[1..], s.cfg.activity);
    QuietMono(s, s', i);
    WakeKept(s, s', i);
    forall r | Live(s', r) ensures r in s.board.pending { assert Live(s, r); LiveIsPending(s, r); }
    KeepsInv(s, s', i);
  }

  lemma {:induction false} PutsOps(todo: set<Rid>, rest: seq<Op>, activity: bool)
    requires forall k :: 0 <= k < |rest| ==> !rest[k].Puts?
    ensures var ops := [Puts(todo)] + rest;
      HeadPuts(ops) && Wakes(ops) && (Follows(activity, rest) ==> Follows(activity, ops))
  {
    var ops := [Puts(todo)] + rest;
    assert ops[0].Puts?;
    if Follows(activity, rest) {
      assert Follows(activity, [Puts(todo)]);
      PushOps([Puts(todo)], rest, activity, true);
    }
  }

  // Putting a message, by a thread that awaits none.
  ghost predicate PutBy(s: State, s': State, i: Tid, r: Rid, m: Msg) {
    && i in s.threads && i in s'.threads && r in s.board.queues
    && s'.threads == s.threads[i := s'.threads[i]]
    && s'.board == Offered(s.board, r, m)
    && s'.hist.first == Delivered(s, r, m).hist.first && s'.hist.owner == s.hist.owner
    && s'.cfg == s.cfg && s'.flags.closed == s.flags.closed
    && !s'.threads[i].job.Sending? && !s'.threads[i].job.Waiting?
  }

  lemma {:induction false} PutQueues(s: State, s': State, i: Tid, r: Rid, m: Msg)
    requires PutBy(s, s', i, r, m)
    ensures forall q :: QueueOk(s, q) ==> QueueOk(s', q)
    ensures forall q :: HasMessage(s, q) ==> HasMessage(s', q)
    ensures HasMessage(s', r)
    ensures forall q :: q in s.board.queues <==> q in s'.board.queues
    ensures s'.board.pending == s.board.pending && s'.board.nextId == s.board.nextId
    ensures forall q :: q in s.hist.first ==> q in s'.hist.first && s'.hist.first[q] == s.hist.first[q]
    ensures forall q :: q in s'.hist.first ==> q in s.hist.first || q == r
  {
  }

  lemma {:induction false} DeliveredMono(s: State, s': State, i: Tid, r: Rid, m: Msg)
    requires BoardOk(s) && PutBy(s, s', i, r, m)
    ensures Mono(s, s', i) && BoardOk(s')
    ensures HasMessage(s', r)
    ensures forall q :: HasMessage(s, q) ==> HasMessage(s', q)
    ensures forall q :: Live(s', q) ==> Live(s, q)
  {
    PutQueues(s, s', i, r, m);
    hide QueueOk, HasMessage;
  }

  lemma {:induction false} PutsKeeps(s: State, i: Tid, does: ObserverDoes, wake: Rid)
    requires Inv(s) && CanOperate(s, i, wake) && s.threads[i].ops[0].Puts? && s.threads[i].ops[0].todo != {}
    ensures Inv(Operated(s, i, does, wake))
  {
    hide Follows, HeadPuts, Wakes;
    var s', ops := Operated(s, i, does, wake), s.threads[i].ops;
    var todo := ops[0].todo;
    assert JobOk(s, i, s.threads[i]) && OpsOk(s, s.threads[i]) && CoverOk(s, s.threads[i]);
    hide QueueOk, Live, HasMessage, WakeOk;
    DeliveredMono(s, s', i, wake, ClosedError);
    PopOps(ops, s.cfg.activity);
    NoPuts(ops);
    PutsOps(todo - {wake}, ops[1..], s.cfg.activity);
    assert s'.threads[i].ops[1..] == ops[1..];
    WakeKept(s, s', i);
    SameJobElse(s, s', i);
    assert CoverOk(s', s'.threads[i]);
    KeepsInv(s, s', i);
  }

  // A thread that is in no request keeps what it knows as queues fill.
  lemma {:induction false} SameJobElse(s: State, s': State, i: Tid)
    requires Mono(s, s', i) && s'.threads[i].job == s.threads[i].job && s.threads[i].ops != []
    requires JobOk(s, i, s.threads[i])
    ensures JobOk(s', i, s'.threads[i])
  {
  }

  lemma {:induction false} DrainedKeeps(s: State, i: Tid, does: ObserverDoes, wake: Rid)
    requires Inv(s) && CanOperate(s, i, wake) && s.threads[i].ops[0] == Puts({})
    ensures Inv(Operated(s, i, does, wake))
  {
    hide QueueOk, HasMessage, Follows, HeadPuts, Wakes, BoardOk;
    var s', ops := Operated(s, i, does, wake), s.threads[i].ops;
    assert JobOk(s, i, s.threads[i]) && OpsOk(s, s.threads[i]) && CoverOk(s, s.threads[i]);
    assert s'.threads[i].ops == ops[1..];
    ClosedTail(s.flags.closed, ops);
    QuietMono(s, s', i);
    PopOps(ops, s.cfg.activity);
    SameJob(s, s', i);
    forall r | Live(s', r) ensures HasMessage(s', r) { assert Live(s, r); }
    KeepsInv(s, s', i);
  }

  lemma {:induction false} OperateKeeps(s: State, i: Tid, does: ObserverDoes, wake: Rid)
    requires Inv(s) && CanOperate(s, i, wake)
    ensures Inv(Operated(s, i, does, wake))
  {
    hide Inv, Operated;
    if s.threads[i].ops[0].Snapshot? {
      SnapshotKeeps(s, i, does, wake);
    } else if s.threads[i].ops[0].Puts? {
      if s.threads[i].ops[0].todo == {} { DrainedKeeps(s, i, does, wake); } else { PutsKeeps(s, i, does, wake); }
    } else {
      SplicedKeeps(s, i, does, wake);
    }
  }

  // ---------- Requests and the reader ----------

  lemma EmptyOps(s: State, th: Thread)
    requires th.ops == []
    ensures OpsOk(s, th) && CoverOk(s, th) && !Wakes(th.ops)
  {
  }

  lemma NotifyOps(s: State, th: Thread)
    requires th.ops in {[Notify], [Notify, HookTest]}
    ensures OpsOk(s, th) && CoverOk(s, th)
  {
  }

  lemma {:induction false} EndOps(s: State, th: Thread)
    requires th.ops == [SetClosed(false), Notify, Snapshot]
    ensures OpsOk(s, th) && CoverOk(s, th) && Wakes(th.ops)
  {
    assert th.ops == [SetClosed(false), Notify, Snapshot] + [];
    FrontOk(th.ops, [], s.cfg.activity, s.flags.closed);
    assert th.ops[2].Snapshot?;
  }

  // Steps of a request or the reader that touch no queue.
  lemma {:induction false} QuietWork(s: State, i: Tid, a: Act)
    requires Inv(s) && CanWork(s, i, a) && !a.Register? && !a.Get? && !a.Forget? && !a.Deliver?
    ensures Inv(Worked(s, i, a))
  {
    hide QueueOk, Live, HasMessage, Follows, HeadPuts, Wakes, WakeOk, OpsOk, CoverOk, ClosedFirst;
    var s' := Worked(s, i, a);
    assert JobOk(s, i, s.threads[i]);
    EmptyOps(s, s.threads[i]);
    var th := s'.threads[i];
    if th.ops == [] { EmptyOps(s', th); } else if th.ops == [SetClosed(false), Notify, Snapshot] { EndOps(s', th); }
    else { NotifyOps(s', th); }
    QuietIs(s, i, a);
    QuietMono(s, s', i);
    WakeKept(s, s', i);
    KeepsInv(s, s', i);
  }

  lemma {:induction false} QuietIs(s: State, i: Tid, a: Act)
    requires BoardOk(s) && CanWork(s, i, a) && !a.Register? && !a.Get? && !a.Forget? && !a.Deliver?
    requires JobOk(s, i, s.threads[i])
    ensures var s' := Worked(s, i, a); JobOk(s', i, s'.threads[i])
  {
    hide QueueOk;
    QueueSame(s, Worked(s, i, a));
  }

  lemma QueueSame(s: State, s': State)
    requires s'.board == s.board && s'.hist.first == s.hist.first
    ensures forall r :: QueueOk(s', r) == QueueOk(s, r)
  {
  }

  lemma {:induction false} RegisterKeeps(s: State, i: Tid)
    requires Inv(s) && CanWork(s, i, Register)
    ensures Inv(Worked(s, i, Register))
  {
    hide Follows, HeadPuts, Wakes, WakeOk, OpsOk, CoverOk, ClosedFirst;
    var s' := Worked(s, i, Register);
    assert JobOk(s, i, s.threads[i]);
    EmptyOps(s, s.threads[i]);
    EmptyOps(s', s'.threads[i]);
    RegisterMono(s, s', i);
    WakeKept(s, s', i);
    KeepsInv(s, s', i);
  }

  lemma {:induction false} RegisterMono(s: State, s': State, i: Tid)
    requires BoardOk(s) && CanWork(s, i, Register) && s' == Worked(s, i, Register)
    ensures Mono(s, s', i) && BoardOk(s') && JobOk(s', i, s'.threads[i])
  {
  }

  lemma {:induction false} GetKeeps(s: State, i: Tid)
    requires Inv(s) && CanWork(s, i, Get)
    ensures Inv(Worked(s, i, Get))
  {
    hide Follows, HeadPuts, Wakes, WakeOk, OpsOk, CoverOk, ClosedFirst;
    var s' := Worked(s, i, Get);
    assert JobOk(s, i, s.threads[i]);
    EmptyOps(s, s.threads[i]);
    EmptyOps(s', s'.threads[i]);
    GetMono(s, s', i);
    WakeKept(s, s', i);
    KeepsInv(s, s', i);
  }

  lemma {:induction false} GetMono(s: State, s': State, i: Tid)
    requires BoardOk(s) && CanWork(s, i, Get) && s' == Worked(s, i, Get) && JobOk(s, i, s.threads[i])
    ensures Mono(s, s', i) && BoardOk(s') && JobOk(s', i, s'.threads[i])
  {
  }

  lemma {:induction false} ForgetKeeps(s: State, i: Tid)
    requires Inv(s) && CanWork(s, i, Forget)
    ensures Inv(Worked(s, i, Forget))
  {
    hide Follows, HeadPuts, Wakes, WakeOk, OpsOk, CoverOk, ClosedFirst;
    var s' := Worked(s, i, Forget);
    assert JobOk(s, i, s.threads[i]);
    EmptyOps(s, s.threads[i]);
    EmptyOps(s', s'.threads[i]);
    ForgetMono(s, s', i);
    WakeKept(s, s', i);
    KeepsInv(s, s', i);
  }

  lemma {:induction false} ForgetMono(s: State, s': State, i: Tid)
    requires BoardOk(s) && CanWork(s, i, Forget) && s' == Worked(s, i, Forget) && JobOk(s, i, s.threads[i])
    ensures Mono(s, s', i) && BoardOk(s') && JobOk(s', i, s'.threads[i])
  {
  }

  lemma {:induction false} DeliverKeeps(s: State, i: Tid)
    requires Inv(s) && CanWork(s, i, Deliver)
    ensures Inv(Worked(s, i, Deliver))
  {
    hide Follows, HeadPuts, Wakes, WakeOk, OpsOk, CoverOk, ClosedFirst, Live, HasMessage, QueueOk;
    var s' := Worked(s, i, Deliver);
    assert JobOk(s, i, s.threads[i]);
    EmptyOps(s, s.threads[i]);
    EmptyOps(s', s'.threads[i]);
    DeliveredMono(s, s', i, s.threads[i].job.rid, s.threads[i].job.msg);
    WakeKept(s, s', i);
    KeepsInv(s, s', i);
  }

  lemma {:induction false} SpawnKeeps(s: State, i: Tid, p: Program)
    requires Inv(s) && i !in s.threads
    ensures Inv(s.(threads := s.threads[i := Begin(p)]))
  {
    hide ClosedFirst, Follows, HeadPuts;
    var s' := s.(threads := s.threads[i := Begin(p)]);
    BeginOk(s', p);
    forall r ensures Live(s', r) ==> Live(s, r) { }
    if MustWake(s) && !s.hist.drained {
      var j :| j in s.threads && Wakes(s.threads[j].ops);
      assert Wakes(s'.threads[j].ops);
    }
  }

  lemma {:induction false} BeginOk(s: State, p: Program)
    ensures OpsOk(s, Begin(p)) && CoverOk(s, Begin(p)) && JobOk(s, 0, Begin(p)) && !Begin(p).job.Delivering?
    ensures Begin(p).job.Free? || Begin(p).job.Reading? || (Begin(p).job.Fresh? && Begin(p).ops == [])
  {
    if p.BoundClose? {
      var ops := Begin(p).ops;
      assert ops[2].Snapshot?;
      SnapshotPush([]);
      SetPush(s.flags.closed, SetClosed(false), [Snapshot] + []);
      PlainPush(s.flags.closed, Notify, [SetClosed(false)] + ([Snapshot] + []));
      assert ops == [Notify] + ([SetClosed(false)] + ([Snapshot] + []));
    }
  }

  // ---------- The observer ends before waiters are woken ----------

  // Waking, and the test that leads to it, come after a notification.
  predicate NotedFirst(observed: bool, ops: seq<Op>) {
    ops == [] ||
    match ops[0]
    case Notify => true
    case Observe => true
    case Snapshot => observed && NotedFirst(observed, ops[1..])
    case Puts(_) => observed && NotedFirst(observed, ops[1..])
    case HookTest => observed && NotedFirst(observed, ops[1..])
    case _ => NotedFirst(observed, ops[1..])
  }

  predicate Unheld(ops: seq<Op>) { forall k :: 0 <= k < |ops| ==> !ops[k].Observe? && !ops[k].Unlatch? }

  // The thread is in the observer, or closes after the observer raised.
  predicate Latched(ops: seq<Op>) {
    ops != [] &&
    if ops[0].Observe? || ops[0].Unlatch? then Unheld(ops[1..])
    else (ops[0].SetClosed? || ops[0].Snapshot? || ops[0].Puts?) && Latched(ops[1..])
  }

  // The latch is given back by itself only after the observer raised.
  predicate NoUnlatch(ops: seq<Op>) { forall k :: 0 <= k < |ops| ==> !ops[k].Unlatch? }

  predicate CalmThread(s: State, i: Tid, ops: seq<Op>) {
    NotedFirst(s.flags.observed, ops) && (s.flags.observed || NoUnlatch(ops)) &&
      if s.flags.latch == Some(i) then Latched(ops) else Unheld(ops)
  }

  predicate CalmFlags(s: State) {
    && (s.flags.latch.Some? ==> s.flags.notified && s.flags.latch.value in s.threads)
    && (s.flags.observed ==> s.flags.notified)
    && (s.flags.notified && s.flags.latch == None ==> s.flags.observed)
    && (s.hist.woke ==> s.flags.observed)
  }

  ghost predicate Calm(s: State) {
    s.cfg.observer ==> CalmFlags(s) && forall i :: i in s.threads ==> CalmThread(s, i, s.threads[i].ops)
  }

  lemma {:induction false} AfterObserved(ops: seq<Op>)
    ensures NotedFirst(true, ops)
  {
    if ops != [] { AfterObserved(ops[1..]); }
  }

  // A step moves the thread `i` and, of the latch, only its own share.
  lemma {:induction false} CalmKept(s: State, s': State, i: Tid)
    requires Calm(s) && s.cfg.observer && s'.cfg.observer && i in s'.threads
    requires s'.threads == s.threads[i := s'.threads[i]]
    requires s.flags.observed ==> s'.flags.observed
    requires forall j :: j != i ==> (s'.flags.latch == Some(j) <==> s.flags.latch == Some(j))
    requires CalmFlags(s') && CalmThread(s', i, s'.threads[i].ops)
    ensures Calm(s')
  {
    hide Latched, Unheld, NotedFirst, CalmFlags, NoUnlatch;
    forall j | j in s'.threads ensures CalmThread(s', j, s'.threads[j].ops) {
      if j != i {
        assert CalmThread(s, j, s.threads[j].ops);
        if s'.flags.observed { AfterObserved(s'.threads[j].ops); }
      }
    }
  }

  lemma {:induction false} UnheldPush(front: seq<Op>, rest: seq<Op>)
    requires Unheld(front) && Unheld(rest)
    ensures Unheld(front + rest)
  {
  }

  lemma {:induction false} UnheldTail(ops: seq<Op>)
    requires ops != []
    ensures Unheld(ops) <==> !ops[0].Observe? && !ops[0].Unlatch? && Unheld(ops[1..])
  {
    assert ops == [ops[0]] + ops[1..];
  }

  lemma {:induction false} CloseTestCalm(s: State, i: Tid, does: ObserverDoes, wake: Rid)
    requires Calm(s) && s.cfg.observer && CanOperate(s, i, wake) &&
      (s.threads[i].ops[0].CloseTest? || s.threads[i].ops[0].HookTest?)
    ensures Calm(Operated(s, i, does, wake))
  {
    var s', ops := Operated(s, i, does, wake), s.threads[i].ops;
    var front, rest := Expands(s, ops[0], does, wake), ops[1..];
    assert CalmThread(s, i, ops);
    UnheldTail(ops);
    UnheldPush(front, rest);
    var ops' := s'.threads[i].ops;
    assert ops' == front + rest;
    if ops[0].HookTest? {
      AfterObserved(ops');
    } else if s.flags.closed {
      assert ops'[0] == Notify;
    } else {
      assert ops'[0] == SetClosed(true) && ops'[1..][0] == Notify;
    }
    assert Unheld(ops') && NotedFirst(s.flags.observed, ops');
    CalmKept(s, s', i);
  }

  lemma {:induction false} NotifyCalm(s: State, i: Tid, does: ObserverDoes, wake: Rid)
    requires Calm(s) && s.cfg.observer && CanOperate(s, i, wake) && s.threads[i].ops[0].Notify?
    ensures Calm(Operated(s, i, does, wake))
  {
    var s', ops := Operated(s, i, does, wake), s.threads[i].ops;
    assert CalmThread(s, i, ops);
    UnheldTail(ops);
    assert [] + ops[1..] == ops[1..];
    if s.flags.notified {
      AfterObserved(ops[1..]);
    } else {
      assert ([Observe] + ops[1..])[1..] == ops[1..];
    }
    CalmKept(s, s', i);
  }

  lemma {:induction false} ObserveCalm(s: State, i: Tid, does: ObserverDoes, wake: Rid)
    requires Calm(s) && s.cfg.observer && CanOperate(s, i, wake) && s.threads[i].ops[0].Observe? && does != Reenters
    ensures Calm(Operated(s, i, does, wake))
  {
    var s', ops := Operated(s, i, does, wake), s.threads[i].ops;
    assert CalmThread(s, i, ops);
    UnheldTail(ops);
    var ops' := s'.threads[i].ops;
    AfterObserved(ops');
    if does.Raises? {
      assert ops'[1..] == [Snapshot, Unlatch] + ops[1..];
      assert ops'[1..][1..] == [Unlatch] + ops[1..];
      assert ops'[1..][1..][1..] == ops[1..];
      assert Latched(ops'[1..][1..]);
      assert Latched(ops'[1..]);
    } else {
      assert ops' == ops[1..];
    }
    CalmKept(s, s', i);
  }

  // The other heads: the thread's latch and what follows stay as they are.
  lemma {:induction false} FlagCalm(s: State, i: Tid, does: ObserverDoes, wake: Rid)
    requires Calm(s) && s.cfg.observer && CanOperate(s, i, wake)
    requires var op := s.threads[i].ops[0]; op.SetClosed? || op.Unlatch?
    ensures Calm(Operated(s, i, does, wake))
  {
    var s', ops := Operated(s, i, does, wake), s.threads[i].ops;
    assert CalmThread(s, i, ops);
    UnheldTail(ops);
    assert s'.threads[i].ops == ops[1..];
    CalmKept(s, s', i);
  }

  lemma {:induction false} WakeCalm(s: State, i: Tid, does: ObserverDoes, wake: Rid)
    requires Calm(s) && s.cfg.observer && CanOperate(s, i, wake)
    requires var op := s.threads[i].ops[0]; op.Snapshot? || op.Puts?
    ensures Calm(Operated(s, i, does, wake))
  {
    var s', ops := Operated(s, i, does, wake), s.threads[i].ops;
    assert CalmThread(s, i, ops);
    UnheldTail(ops);
    var ops' := s'.threads[i].ops;
    if ops[0].Snapshot? || ops[0].todo != {} {
      assert ops'[1..] == ops[1..];
      UnheldTail(ops');
    } else {
      assert ops' == ops[1..];
    }
    CalmKept(s, s', i);
  }

  lemma {:induction false} WorkCalm(s: State, i: Tid, a: Act)
    requires Calm(s) && s.cfg.observer && CanWork(s, i, a)
    ensures Calm(Worked(s, i, a))
  {
    var s' := Worked(s, i, a);
    assert CalmThread(s, i, s.threads[i].ops);
    WorkOps(s, i, a);
    hide Worked;
    FreshOps(s.flags.observed, s'.threads[i].ops);
    CalmKept(s, s', i);
  }

  lemma {:induction false} WorkOps(s: State, i: Tid, a: Act)
    requires CanWork(s, i, a)
    ensures var s' := Worked(s, i, a);
      && i in s'.threads && s'.threads == s.threads[i := s'.threads[i]]
      && s'.threads[i].ops in {[], [Notify], [Notify, HookTest], [SetClosed(false), Notify, Snapshot]}
      && s'.cfg.observer == s.cfg.observer && s'.flags.latch == s.flags.latch
      && s'.flags.notified == s.flags.notified && s'.flags.observed == s.flags.observed
      && s'.hist.woke == s.hist.woke
  {
  }

  lemma {:induction false} FreshOps(observed: bool, ops: seq<Op>)
    requires ops in {[], [CloseTest], [Notify], [Notify, HookTest], [SetClosed(false), Notify, Snapshot],
      [Notify, SetClosed(false), Snapshot]}
    ensures NotedFirst(observed, ops) && Unheld(ops)
  {
    if ops == [SetClosed(false), Notify, Snapshot] { assert ops[1..][0] == Notify; }
    if ops == [CloseTest] { assert ops[1..] == []; }
  }

  lemma {:induction false} CalmStep(s: State, e: Event)
    requires Inv(s) && Calm(s) && Enabled(s, e) && (e.Operate? ==> e.does != Reenters)
    ensures Calm(Next(s, e))
  {
    hide Calm, Inv, Operated, Worked, CanWork;
    CalmTrivial(s, e);
    if s.cfg.observer {
      match e
      case Spawn(i, p) => SpawnCalm(s, i, p);
      case Work(i, a) => WorkCalm(s, i, a);
      case Operate(i, does, wake) =>
        var op := s.threads[i].ops[0];
        if op.CloseTest? || op.HookTest? { CloseTestCalm(s, i, does, wake); }
        else if op.Notify? { NotifyCalm(s, i, does, wake); }
        else if op.Observe? { ObserveCalm(s, i, does, wake); }
        else if op.Snapshot? || op.Puts? { WakeCalm(s, i, does, wake); }
        else { FlagCalm(s, i, does, wake); }
    }
  }

  lemma {:induction false} CalmTrivial(s: State, e: Event)
    requires Enabled(s, e)
    ensures Next(s, e).cfg.observer == s.cfg.observer
    ensures !s.cfg.observer ==> Calm(Next(s, e))
  {
  }

  lemma {:induction false} SpawnCalm(s: State, i: Tid, p: Program)
    requires Calm(s) && s.cfg.observer && i !in s.threads && Inv(s)
    ensures Calm(s.(threads := s.threads[i := Begin(p)]))
  {
    hide Inv;
    FreshOps(s.flags.observed, Begin(p).ops);
    CalmKept(s, s.(threads := s.threads[i := Begin(p)]), i);
  }

  lemma {:induction false} CalmSteps(s: State, s': State)
    requires Inv(s) && Calm(s) && IsStep(s, s', false)
    ensures Calm(s')
  {
    hide Inv, Calm, Enabled, Next;
    var e :| Enabled(s, e) && s' == Next(s, e) && (e.Operate? && e.does == Reenters ==> false);
    CalmStep(s, e);
  }

  lemma {:induction false} RunIsCalm(ss: seq<State>, k: nat)
    requires IsRun(ss, false) && k < |ss|
    ensures Calm(ss[k])
  {
    hide Inv, IsStep;
    if k > 0 {
      hide Calm;
      RunIsCalm(ss, k - 1);
      RunKeeps(ss, false, k - 1);
      assert IsStep(ss[k - 1], ss[k - 1 + 1], false);
      CalmSteps(ss[k - 1], ss[k]);
    }
  }

  ghost predicate Reaches(s: State, reentrant: bool) {
    exists ss :: IsRun(ss, reentrant) && ss[|ss| - 1] == s
  }

  lemma {:induction false} ReachStep(s: State, e: Event, reentrant: bool)
    requires Reaches(s, reentrant) && Enabled(s, e) && (e.Operate? && e.does == Reenters ==> reentrant)
    ensures Reaches(Next(s, e), reentrant)
  {
    hide Enabled, Next, Start;
    var ss :| IsRun(ss, reentrant) && ss[|ss| - 1] == s;
    var ss' := ss + [Next(s, e)];
    forall k | 0 <= k < |ss'| - 1 ensures IsStep(ss'[k], ss'[k + 1], reentrant) {
      if k < |ss| - 1 { assert IsStep(ss[k], ss[k + 1], reentrant); }
    }
    assert ss'[0] == ss[0];
  }

  // One request waiting, and nothing else.
  const SENT: Board := Board(2, {1}, map[1 := None])
  const BEFORE: History := History(false, false, false, map[1 := 0], map[], {})

  function OneWaiting(observer: bool, activity: bool): State {
    State(Settings(observer, activity || observer), Flags(false, false, None, false, 0), SENT,
          map[0 := Thread([], Waiting(1))], BEFORE)
  }

  lemma {:induction false} RequestSent(observer: bool, activity: bool, reentrant: bool)
    ensures Reaches(OneWaiting(observer, activity), reentrant)
  {
    var s0 := Start(observer, activity);
    assert IsRun([s0], reentrant);
    assert [s0][|[s0]| - 1] == s0;
    var s1 := Next(s0, Spawn(0, Request));
    ReachStep(s0, Spawn(0, Request), reentrant);
    var s2 := Next(s1, Work(0, Register));
    ReachStep(s1, Work(0, Register), reentrant);
    assert s2.threads == map[0 := Thread([], Checking(1))];
    assert s2.board == SENT;
    var s3 := Next(s2, Work(0, Passes));
    ReachStep(s2, Work(0, Passes), reentrant);
    ReachStep(s3, Work(0, Sent), reentrant);
    assert Next(s3, Work(0, Sent)).threads == map[0 := Thread([], Waiting(1))];
  }

  lemma {:induction false} ObserverEntered() returns (s: State)
    ensures Reaches(s, true) && s.cfg == Settings(true, true) && s.board.pending == {1}
    ensures 1 in s.threads && s.threads[1].ops == [Observe]
    ensures s.flags == Flags(false, true, Some(1), false, 1)
  {
    RequestSent(true, true, true);
    ReachStep(OneWaiting(true, true), Spawn(1, Loss), true);
    s := Next(OneWaiting(true, true), Spawn(1, Loss));
    s := Reenter(s, Returns, [Observe]);
  }

  // Thread 1, without hooks, takes one step to the given operations.
  lemma {:induction false} PlainStep(s: State, ops: seq<Op>) returns (s': State)
    requires Reaches(s, false) && s.cfg == Settings(false, false) && 1 in s.threads && s.threads[1].ops != []
    requires var op := s.threads[1].ops[0]; op.CloseTest? || (op.SetClosed? && op.plain) || op.Notify?
    requires Expands(s, s.threads[1].ops[0], Returns, 1) + s.threads[1].ops[1..] == ops
    ensures Reaches(s', false) && s'.cfg == s.cfg && s'.board == s.board && s'.hist == s.hist
    ensures s'.threads == s.threads[1 := Thread(ops, s.threads[1].job)]
    ensures s'.flags.closed == (s.flags.closed || s.threads[1].ops[0].SetClosed?)
  {
    s' := Operated(s, 1, Returns, 1);
    ReachStep(s, Operate(1, Returns, 1), false);
  }

  /** The exception does arise: a plain `close` without activity hooks leaves a request to wait out its
      timeout, with nobody to wake it. */
  lemma {:induction false} PlainCloseStrands()
    ensures exists s :: Reaches(s, false) && s.flags.closed && !MustWake(s) && Stranded(s, 0)
  {
    RequestSent(false, false, false);
    ReachStep(OneWaiting(false, false), Spawn(1, Close), false);
    var s := Next(OneWaiting(false, false), Spawn(1, Close));
    hide Reaches, Operated;
    s := PlainStep(s, [SetClosed(true), Notify]);
    s := PlainStep(s, [Notify]);
    s := PlainStep(s, []);
  }

  // The request can only time out, and no thread has a wake-up to make.
  ghost predicate Stranded(s: State, i: Tid) {
    CanWork(s, i, TimesOut) && !s.hist.drained && forall j :: j in s.threads ==> !Wakes(s.threads[j].ops)
  }

  // The loss-reporting thread takes one step, to the given operations.
  lemma {:induction false} Reenter(s: State, does: ObserverDoes, ops: seq<Op>) returns (s': State)
    requires Reaches(s, true) && s.cfg == Settings(true, true) && s.board.pending == {1}
    requires CanOperate(s, 1, 1)
    requires Expands(s, s.threads[1].ops[0], does, 1) + s.threads[1].ops[1..] == ops
    ensures Reaches(s', true) && s' == Operated(s, 1, does, 1)
    ensures s'.cfg == s.cfg && s'.board.pending == {1} && 1 in s'.threads && s'.threads[1].ops == ops
    ensures s'.flags == Flagged(s, 1, s.threads[1].ops[0], does)
    ensures s.threads[1].ops[0].Puts? && s.threads[1].ops[0].todo != {} ==> s'.hist.woke
  {
    s' := Operated(s, 1, does, 1);
    ReachStep(s, Operate(1, does, 1), true);
  }

  // ---------- Without activity hooks ----------

  predicate IsWake(op: Op) { op.Snapshot? || op.Puts? }

  predicate NoWake(ops: seq<Op>) { forall k :: 0 <= k < |ops| ==> !IsWake(ops[k]) }

  // A wake-up follows a setting of the flag that is not a plain `close`, there or before.
  predicate BareOps(ended: bool, ops: seq<Op>)
    decreases |ops|
  {
    ops == [] ||
    match ops[0]
    case SetClosed(plain) => if plain then NoWake(ops[1..]) && BareOps(ended, ops[1..]) else BareOps(true, ops[1..])
    case CloseTest => NoWake(ops[1..]) && BareOps(ended, ops[1..])
    case Snapshot => ended && BareOps(ended, ops[1..])
    case Puts(_) => ended && BareOps(ended, ops[1..])
    case Observe => false
    case Unlatch => false
    case _ => BareOps(ended, ops[1..])
  }

  ghost predicate Bare(s: State) {
    && (s.cfg.observer ==> s.cfg.activity)
    && (!s.cfg.activity ==>
          (s.hist.drained ==> s.hist.ended) && forall i :: i in s.threads ==> BareOps(s.hist.ended, s.threads[i].ops))
  }

  lemma {:induction false} BareMono(ended: bool, ops: seq<Op>)
    requires BareOps(ended, ops)
    ensures BareOps(true, ops)
    decreases |ops|
  {
    if ops != [] && !(ops[0].SetClosed? && !ops[0].plain) { BareMono(ended, ops[1..]); }
  }

  lemma {:induction false} BareFront(ended: bool, front: seq<Op>, rest: seq<Op>)
    requires front in {[], [Notify], [SetClosed(false), Snapshot], [Notify, HookTest], [SetClosed(true), Notify],
                       [SetClosed(false), Notify, Snapshot], [Notify, SetClosed(false), Snapshot], [CloseTest]}
    requires BareOps(ended, rest)
    requires front == [CloseTest] || front == [SetClosed(true), Notify] ==> NoWake(rest)
    ensures BareOps(ended, front + rest)
  {
    BareMono(ended, rest);
    var a := front + rest;
    if front == [] {
      assert a == rest;
    } else if |front| == 1 {
      assert a[1..] == rest;
    } else {
      var b := a[1..];
      assert b == front[1..] + rest && b[1..] == front[2..] + rest;
      if |front| == 2 {
        assert b[1..] == rest && BareOps(true, b) && (front[1].Snapshot? || BareOps(ended, b));
      } else {
        var c := b[1..];
        assert c[1..] == rest && BareOps(true, c);
      }
    }
  }

  lemma {:induction false} BareBegin(p: Program, ended: bool)
    ensures BareOps(ended, Begin(p).ops)
  {
    var ops := Begin(p).ops;
    assert ops + [] == ops && BareOps(ended, []);
    BareFront(ended, ops, []);
  }

  // Of the threads, a step moves one; the others stay bare.
  lemma {:induction false} BareKept(s: State, s': State, i: Tid)
    requires Bare(s) && !s.cfg.activity && s'.cfg == s.cfg && i in s'.threads
    requires s'.threads == s.threads[i := s'.threads[i]] && (s.hist.ended ==> s'.hist.ended)
    requires BareOps(s'.hist.ended, s'.threads[i].ops) && (s'.hist.drained ==> s.hist.drained || s'.hist.ended)
    ensures Bare(s')
  {
    hide BareOps;
    forall j | j in s'.threads ensures BareOps(s'.hist.ended, s'.threads[j].ops) {
      if j != i && s'.hist.ended { BareMono(s.hist.ended, s.threads[j].ops); }
    }
  }

  lemma {:induction false} BareOperate(s: State, i: Tid, does: ObserverDoes, wake: Rid)
    requires Bare(s) && !s.cfg.activity && CanOperate(s, i, wake)
    ensures Bare(Operated(s, i, does, wake))
  {
    var s', op, rest := Operated(s, i, does, wake), s.threads[i].ops[0], s.threads[i].ops[1..];
    var front := Expands(s, op, does, wake);
    assert BareOps(s.hist.ended, s.threads[i].ops);
    if op.Snapshot? || (op.Puts? && op.todo != {}) {
      assert (front + rest)[1..] == rest;
    } else {
      BareFront(s'.hist.ended, front, rest);
    }
    BareKept(s, s', i);
  }

  lemma {:induction false} BareWork(s: State, i: Tid, a: Act)
    requires Bare(s) && !s.cfg.activity && CanWork(s, i, a)
    ensures Bare(Worked(s, i, a))
  {
    var s' := Worked(s, i, a);
    WorkOps(s, i, a);
    WorkHistory(s, i, a);
    hide Worked;
    var ops := s'.threads[i].ops;
    assert ops + [] == ops && BareOps(s'.hist.ended, []);
    BareFront(s'.hist.ended, ops, []);
    BareKept(s, s', i);
  }

  lemma WorkHistory(s: State, i: Tid, a: Act)
    requires CanWork(s, i, a)
    ensures var s' := Worked(s, i, a);
      s'.cfg == s.cfg && s'.hist.ended == s.hist.ended && s'.hist.drained == s.hist.drained
  {
  }

  lemma {:induction false} BareStep(s: State, e: Event)
    requires Bare(s) && Enabled(s, e)
    ensures Bare(Next(s, e))
  {
    hide Operated, Worked, CanOperate, CanWork, BareOps;
    SameConfig(s, e);
    if !s.cfg.activity {
      match e
      case Spawn(i, p) =>
        BareBegin(p, s.hist.ended);
        BareKept(s, Next(s, e), i);
      case Operate(i, does, wake) => BareOperate(s, i, does, wake);
      case Work(i, a) => BareWork(s, i, a);
    }
  }

  lemma SameConfig(s: State, e: Event)
    requires Enabled(s, e)
    ensures Next(s, e).cfg == s.cfg
  {
  }

  lemma {:induction false} RunIsBare(ss: seq<State>, reentrant: bool, k: nat)
    requires IsRun(ss, reentrant) && k < |ss|
    ensures Bare(ss[k])
  {
    hide IsStep;
    if k > 0 {
      RunIsBare(ss, reentrant, k - 1);
      assert IsStep(ss[k - 1], ss[k - 1 + 1], reentrant);
      BareSteps(ss[k - 1], ss[k], reentrant);
    }
  }

  lemma {:induction false} BareSteps(s: State, s': State, reentrant: bool)
    requires Bare(s) && IsStep(s, s', reentrant)
    ensures Bare(s')
  {
    hide Bare, Enabled, Next;
    var e :| Enabled(s, e) && s' == Next(s, e);
    BareStep(s, e);
  }

  lemma {:induction false} OwesEnded(ended: bool, ops: seq<Op>, k: nat)
    requires BareOps(ended, ops) && k < |ops| && IsWake(ops[k]) && forall j :: 0 <= j < k ==> !ops[j].SetClosed?
    ensures ended
  {
    if k > 0 { OwesEnded(ended, ops[1..], k - 1); }
  }

  // ---------- A blocked reader ----------

  lemma {:induction false} StuckStays(s: State, e: Event, i: Tid)
    requires Inv(s) && Stuck(s, i) && Enabled(s, e)
    ensures Stuck(Next(s, e), i) && Next(s, e).threads[i] == s.threads[i]
  {
    hide OpsOk, CoverOk, WakeOk, BoardOk;
    var r := s.threads[i].job.rid;
    OthersMove(s, e);
    assert e.Work? && e.i in s.threads ==> JobOk(s, e.i, s.threads[e.i]);
    match e
    case Spawn(j, p) =>
    case Operate(j, does, wake) => OperateKeepsMessages(s, j, does, wake);
    case Work(j, a) => WorkKeepsGone(s, j, a, i, r);
  }

  lemma {:induction false} StuckSteps(s: State, s': State, reentrant: bool, i: Tid)
    requires Inv(s) && Stuck(s, i) && IsStep(s, s', reentrant)
    ensures Stuck(s', i) && s'.threads[i] == s.threads[i]
  {
    StuckCannot(s, i);
    hide Inv, Enabled, Next, Stuck;
    var e :| Enabled(s, e) && s' == Next(s, e);
    StuckStays(s, e, i);
    StuckCannot(s', i);
  }

  lemma StuckCannot(s: State, i: Tid)
    requires Stuck(s, i)
    ensures i in s.threads && !CanWork(s, i, Deliver)
  {
  }

  // A step moves its own thread and never takes the flag or an owner back.
  lemma {:induction false} OthersMove(s: State, e: Event)
    requires Enabled(s, e)
    ensures forall j :: j in s.threads && j != e.i ==> j in Next(s, e).threads && Next(s, e).threads[j] == s.threads[j]
    ensures e.i in Next(s, e).threads && (s.flags.closed ==> Next(s, e).flags.closed)
  {
  }

  lemma {:induction false} OperateKeepsMessages(s: State, j: Tid, does: ObserverDoes, wake: Rid)
    requires CanOperate(s, j, wake)
    ensures var s' := Operated(s, j, does, wake);
      && s'.threads[j].job == s.threads[j].job && s'.hist.owner == s.hist.owner
      && forall r :: HasMessage(s, r) ==> HasMessage(s', r)
  {
  }

  lemma {:induction false} WorkKeepsGone(s: State, j: Tid, a: Act, i: Tid, r: Rid)
    requires CanWork(s, j, a) && Stuck(s, i) && r == s.threads[i].job.rid && JobOk(s, j, s.threads[j]) && BoardOk(s)
    ensures j != i && HasMessage(Worked(s, j, a), r) && Gone(Worked(s, j, a), r)
  {
    hide QueueOk;
  }

  // Every registered request has a thread that is in it, or was.
  predicate InRequest(job: Job, r: Rid) {
    match job
    case Checking(q) => q == r
    case Sending(q) => q == r
    case Waiting(q) => q == r
    case Leaving(q, _) => q == r
    case Done(q, _) => q == r
    case _ => false
  }

  ghost predicate Owners(s: State) {
    && (forall r :: r in s.hist.owner ==> s.hist.owner[r] in s.threads && InRequest(s.threads[s.hist.owner[r]].job, r))
    && (forall r :: r in s.board.queues ==> r in s.hist.owner)
  }

  lemma {:induction false} OwnersStep(s: State, e: Event)
    requires Inv(s) && Owners(s) && Enabled(s, e)
    ensures Owners(Next(s, e))
  {
    hide OpsOk, CoverOk, WakeOk, QueueOk;
    OthersMove(s, e);
    match e
    case Spawn(j, p) =>
    case Operate(j, does, wake) => OperateKeepsQueues(s, j, does, wake);
    case Work(j, a) => WorkKeepsOwners(s, j, a);
  }

  lemma {:induction false} OperateKeepsQueues(s: State, j: Tid, does: ObserverDoes, wake: Rid)
    requires CanOperate(s, j, wake)
    ensures var s' := Operated(s, j, does, wake);
      && s'.threads[j].job == s.threads[j].job && s'.hist.owner == s.hist.owner
      && s'.board.queues.Keys == s.board.queues.Keys
  {
  }

  lemma {:induction false} WorkKeepsOwners(s: State, j: Tid, a: Act)
    requires CanWork(s, j, a) && Owners(s) && BoardOk(s)
    ensures Owners(Worked(s, j, a))
  {
  }

  lemma {:induction false} RunHasOwners(ss: seq<State>, reentrant: bool, k: nat)
    requires IsRun(ss, reentrant) && k < |ss|
    ensures Owners(ss[k])
  {
    if k > 0 {
      RunHasOwners(ss, reentrant, k - 1);
      RunKeeps(ss, reentrant, k - 1);
      hide Inv, Enabled, Next, Owners;
      assert IsStep(ss[k - 1], ss[k - 1 + 1], reentrant);
      var e :| Enabled(ss[k - 1], e) && ss[k] == Next(ss[k - 1], e);
      OwnersStep(ss[k - 1], e);
    }
  }

  // One step of the request's thread, which leaves the reader blocked.
  lemma {:induction false} Onward(s: State, i: Tid, a: Act) returns (s': State)
    requires Inv(s) && Owners(s) && Blocked(s, i) && (a.Passes? || a.Sent?)
    requires var j := s.hist.owner[s.threads[i].job.rid]; j in s.threads && CanWork(s, j, a)
    ensures s' == Worked(s, s.hist.owner[s.threads[i].job.rid], a) && Inv(s') && Owners(s') && Blocked(s', i)
    ensures s'.threads[i] == s.threads[i] && s'.hist.owner == s.hist.owner && s'.flags == s.flags
    ensures Enabled(s, Work(s.hist.owner[s.threads[i].job.rid], a))
    ensures var j, r := s.hist.owner[s.threads[i].job.rid], s.threads[i].job.rid;
      s'.threads[j] == Thread([], if a.Passes? then Sending(r) else Waiting(r))
  {
    var j, r := s.hist.owner[s.threads[i].job.rid], s.threads[i].job.rid;
    s' := Worked(s, j, a);
    StepKeeps(s, Work(j, a));
    OwnersStep(s, Work(j, a));
    hide Inv;
    assert InRequest(s.threads[j].job, r);
  }

  lemma {:induction false} Unblock(s: State, i: Tid) returns (es: seq<Event>)
    requires Inv(s) && Owners(s) && Blocked(s, i) && !Stuck(s, i)
    ensures Legal(s, es) && CanWork(After(s, es), i, Deliver)
    decreases if s.threads[s.hist.owner[s.threads[i].job.rid]].job.Checking? then 2
              else if s.threads[s.hist.owner[s.threads[i].job.rid]].job.Sending? then 1 else 0
  {
    var r := s.threads[i].job.rid;
    var j := s.hist.owner[r];
    assert InRequest(s.threads[j].job, r) && JobOk(s, j, s.threads[j]);
    if s.threads[j].job.Waiting? {
      es := [Work(j, Get)];
      assert es[1..] == [];
    } else {
      var a := if s.threads[j].job.Checking? then Passes else Sent;
      var s' := Onward(s, i, a);
      var more := Unblock(s', i);
      es := [Work(j, a)] + more;
      assert es[1..] == more;
    }
  }

  /** A server that answers a request twice as it times out stops the reader for good. */
  lemma {:induction false} StuckHappens()
    ensures exists s :: Reaches(s, false) && Stuck(s, 1)
  {
    RequestSent(false, false, false);
    var s := OneWaiting(false, false);
    ReachStep(s, Spawn(1, Reader), false);
    s := Next(s, Spawn(1, Reader));
    ReachStep(s, Work(0, TimesOut), false);
    s := Next(s, Work(0, TimesOut));
    ReachStep(s, Work(1, Reads(1, 5)), false);
    s := Next(s, Work(1, Reads(1, 5)));
    ReachStep(s, Work(1, Deliver), false);
    s := Next(s, Work(1, Deliver));
    ReachStep(s, Work(1, Reads(1, 6)), false);
    s := Next(s, Work(1, Reads(1, 6)));
  }

  // ---------- One closer wakes alone ----------

  function OfferAll(b: Board, rs: seq<Rid>): Board
    decreases |rs|
  {
    if rs == [] then b else OfferAll(Offered(b, rs[0], ClosedError), rs[1..])
  }

  lemma {:induction false} OfferAllIs(b: Board, rs: seq<Rid>)
    ensures OfferAll(b, rs).queues ==
      map r | r in b.queues :: if r in rs && b.queues[r] == None then Some(ClosedError) else b.queues[r]
    ensures OfferAll(b, rs).nextId == b.nextId && OfferAll(b, rs).pending == b.pending
    decreases |rs|
  {
    if rs != [] { OfferAllIs(Offered(b, rs[0], ClosedError), rs[1..]); }
  }

  // Thread `i` makes its puts in the given order, uninterrupted.
  function WakeAll(s: State, i: Tid, rs: seq<Rid>): State
    decreases |rs|
  {
    if rs == [] || !CanOperate(s, i, rs[0]) then s else WakeAll(Operated(s, i, Returns, rs[0]), i, rs[1..])
  }

  lemma {:induction false} WakeAllIs(s: State, i: Tid, rs: seq<Rid>)
    requires i in s.threads && s.threads[i].ops != [] && s.threads[i].ops[0] == Puts(set r | r in rs)
    requires forall j, k :: 0 <= j < k < |rs| ==> rs[j] != rs[k]
    ensures WakeAll(s, i, rs).board == OfferAll(s.board, rs)
    decreases |rs|
  {
    if rs != [] {
      var s' := Operated(s, i, Returns, rs[0]);
      assert rs[0] in s.threads[i].ops[0].todo;
      assert s'.threads[i].ops[0] == Puts((set r | r in rs) - {rs[0]});
      assert (set r | r in rs) - {rs[0]} == set r | r in rs[1..] by {
        assert rs == [rs[0]] + rs[1..];
        forall k | 0 <= k < |rs[1..]| ensures rs[1..][k] != rs[0] { assert rs[1..][k] == rs[k + 1]; }
      }
      WakeAllIs(s', i, rs[1..]);
    }
  }

  /** The steps of one closer, in whatever order it takes the waiters, are what `_fail_pending` does
      when no other thread comes between. */
  lemma {:induction false} WakingIsFailing(s: State, i: Tid, rs: seq<Rid>)
    requires Inv(s) && CanOperate(s, i, 0) && s.threads[i].ops[0].Snapshot?
    requires (forall r :: r in rs <==> r in s.board.pending) && forall j, k :: 0 <= j < k < |rs| ==> rs[j] != rs[k]
    ensures WakeAll(Operated(s, i, Returns, 0), i, rs).board == Failed(s.board)
  {
    var s' := Operated(s, i, Returns, 0);
    assert s'.threads[i].ops[0] == Puts(s.board.pending);
    assert s.board.pending == set r | r in rs;
    WakeAllIs(s', i, rs);
    OfferAllIs(s.board, rs);
  }

  // ---------- One thread at work alone ----------

  lemma {:induction false} Then(s: State, es: seq<Event>, more: seq<Event>)
    requires Legal(s, es) && Legal(After(s, es), more)
    ensures Legal(s, es + more) && After(s, es + more) == After(After(s, es), more)
    decreases |es|
  {
    if es == [] {
      assert es + more == more;
    } else {
      assert (es + more)[1..] == es[1..] + more;
      hide Next, Enabled;
      Then(Next(s, es[0]), es[1..], more);
    }
  }

  lemma {:induction false} Single(s: State, e: Event)
    requires Enabled(s, e)
    ensures Legal(s, [e]) && After(s, [e]) == Next(s, e)
  {
    assert [e][1..] == [];
  }

  // Steps of thread `i` on its operations, with an observer that returns.
  predicate Alone(es: seq<Event>, i: Tid) {
    forall k :: 0 <= k < |es| ==> es[k].Operate? && es[k].i == i && es[k].does.Returns?
  }

  // Thread `i` has done its first operation, and the flags and the board are as given.
  predicate Went(s: State, s': State, i: Tid, f: Flags, b: Board) {
    && i in s.threads && s.threads[i].ops != []
    && s'.cfg == s.cfg && s'.flags == f && s'.board == b
    && s'.threads == s.threads[i := Thread(s.threads[i].ops[1..], s.threads[i].job)]
  }

  predicate AtHead(s: State, i: Tid, op: Op) { i in s.threads && s.threads[i].ops != [] && s.threads[i].ops[0] == op }

  // No thread is in the observer.
  predicate Unlatched(s: State) { s.cfg.observer ==> s.flags.latch == None }

  // The observer has been called if there is one, now or before.
  function Noted(s: State): Flags {
    if !s.cfg.observer || s.flags.notified then s.flags
    else s.flags.(notified := true, observed := true, calls := s.flags.calls + 1)
  }

  lemma {:induction false} NotifyAlone(s: State, i: Tid) returns (es: seq<Event>)
    requires AtHead(s, i, Notify) && Unlatched(s)
    ensures Alone(es, i) && Legal(s, es) && Went(s, After(s, es), i, Noted(s), s.board)
  {
    var e, rest, job := Operate(i, Returns, 0), s.threads[i].ops[1..], s.threads[i].job;
    var s1 := Next(s, e);
    Single(s, e);
    es := [e];
    if !s.cfg.observer || s.flags.notified {
      assert [] + rest == rest;
    } else {
      assert s1.threads[i] == Thread([Observe] + rest, job);
      assert ([Observe] + rest)[1..] == rest && [] + rest == rest;
      Single(s1, e);
      assert Next(s1, e).threads == s.threads[i := Thread(rest, job)];
      Then(s, [e], [e]);
      es := [e] + [e];
    }
  }

  lemma {:induction false} SetAlone(s: State, i: Tid, plain: bool) returns (es: seq<Event>)
    requires AtHead(s, i, SetClosed(plain))
    ensures Alone(es, i) && Legal(s, es) && Went(s, After(s, es), i, s.flags.(closed := true), s.board)
  {
    var e, rest := Operate(i, Returns, 0), s.threads[i].ops[1..];
    Single(s, e);
    assert [] + rest == rest;
    es := [e];
  }

  lemma {:induction false} PutsAlone(s: State, i: Tid, todo: set<Rid>) returns (es: seq<Event>)
    requires AtHead(s, i, Puts(todo))
    ensures Alone(es, i) && Legal(s, es) && Went(s, After(s, es), i, s.flags, Offering(s.board, todo))
    decreases |todo|
  {
    var rest, job := s.threads[i].ops[1..], s.threads[i].job;
    if todo == {} {
      Single(s, Operate(i, Returns, 0));
      assert [] + rest == rest && Offering(s.board, todo) == s.board;
      es := [Operate(i, Returns, 0)];
    } else {
      var r :| r in todo;
      var e := Operate(i, Returns, r);
      Single(s, e);
      var s1 := Next(s, e);
      OfferOne(s, i, r, todo);
      var more := PutsAlone(s1, i, todo - {r});
      hide Next, Enabled, Legal, After;
      Then(s, [e], more);
      assert s1.threads[i := Thread(rest, job)] == s.threads[i := Thread(rest, job)];
      es := [e] + more;
    }
  }

  lemma {:induction false} OfferOne(s: State, i: Tid, r: Rid, todo: set<Rid>)
    requires AtHead(s, i, Puts(todo)) && r in todo
    ensures var s1, rest := Operated(s, i, Returns, r), s.threads[i].ops[1..];
      && AtHead(s1, i, Puts(todo - {r})) && s1.threads[i].ops[1..] == rest && s1.threads[i].job == s.threads[i].job
      && s1.threads == s.threads[i := s1.threads[i]] && s1.cfg == s.cfg && s1.flags == s.flags
      && Offering(s1.board, todo - {r}) == Offering(s.board, todo)
  {
  }

  lemma {:induction false} SnapshotAlone(s: State, i: Tid) returns (es: seq<Event>)
    requires AtHead(s, i, Snapshot)
    ensures Alone(es, i) && Legal(s, es) && Went(s, After(s, es), i, s.flags, Failed(s.board))
  {
    var e, rest, job := Operate(i, Returns, 0), s.threads[i].ops[1..], s.threads[i].job;
    Single(s, e);
    var s1 := Next(s, e);
    assert s1.threads[i].ops == [Puts(s.board.pending)] + rest;
    assert ([Puts(s.board.pending)] + rest)[1..] == rest;
    var more := PutsAlone(s1, i, s.board.pending);
    Then(s, [e], more);
    assert s1.threads[i := Thread(rest, job)] == s.threads[i := Thread(rest, job)];
    es := [e] + more;
  }

  // Operations that a closer is left with once its tests are made.
  predicate Settled(ops: seq<Op>) {
    forall k :: 0 <= k < |ops| ==> ops[k].Notify? || ops[k].SetClosed? || ops[k].Snapshot?
  }

  predicate Sets(ops: seq<Op>) { SetClosed(true) in ops || SetClosed(false) in ops }

  // Thread `i` is done with the operations: it notified, closed and woke what they say.
  predicate Finished(s: State, s': State, i: Tid, ops: seq<Op>, job: Job) {
    && s'.cfg == s.cfg && s'.threads == s.threads[i := Thread([], job)]
    && s'.flags ==
         (if Notify in ops then Noted(s) else s.flags).(closed := s.flags.closed || Sets(ops))
    && s'.board == if Snapshot in ops then Failed(s.board) else s.board
  }

  // What one such operation does to the flags and the board.
  predicate WentAs(s: State, s': State, i: Tid, op: Op) {
    match op
    case Notify => Went(s, s', i, Noted(s), s.board)
    case SetClosed(_) => Went(s, s', i, s.flags.(closed := true), s.board)
    case Snapshot => Went(s, s', i, s.flags, Failed(s.board))
    case _ => false
  }

  lemma {:induction false} FirstAlone(s: State, i: Tid) returns (es: seq<Event>)
    requires i in s.threads && s.threads[i].ops != [] && Settled(s.threads[i].ops) && Unlatched(s)
    ensures Alone(es, i) && Legal(s, es) && WentAs(s, After(s, es), i, s.threads[i].ops[0])
  {
    hide Noted, Failed, Legal, After, Alone;
    match s.threads[i].ops[0]
    case Notify => es := NotifyAlone(s, i);
    case SetClosed(plain) => es := SetAlone(s, i, plain);
    case Snapshot => es := SnapshotAlone(s, i);
  }

  lemma {:induction false} FinishAlone(s: State, i: Tid) returns (es: seq<Event>)
    requires i in s.threads && Settled(s.threads[i].ops) && Unlatched(s)
    ensures Alone(es, i) && Legal(s, es) && Finished(s, After(s, es), i, s.threads[i].ops, s.threads[i].job)
    decreases |s.threads[i].ops|
  {
    var ops := s.threads[i].ops;
    if ops == [] {
      es := [];
    } else {
      var first := FirstAlone(s, i);
      hide Failed;
      var s1 := After(s, first);
      assert Settled(s1.threads[i].ops) && Unlatched(s1);
      var more := FinishAlone(s1, i);
      hide Next, Enabled, Legal, After, Finished;
      Then(s, first, more);
      es := first + more;
      FinishedThen(s, s1, After(s1, more), i);
    }
  }

  lemma {:induction false} FinishedThen(s: State, s1: State, s2: State, i: Tid)
    requires i in s.threads && s.threads[i].ops != [] && Settled(s.threads[i].ops)
    requires WentAs(s, s1, i, s.threads[i].ops[0])
    requires Finished(s1, s2, i, s1.threads[i].ops, s1.threads[i].job)
    ensures Finished(s, s2, i, s.threads[i].ops, s.threads[i].job)
  {
    var op, rest := s.threads[i].ops[0], s.threads[i].ops[1..];
    assert s.threads[i].ops == [op] + rest;
    FailedWakes(s.board);
  }

  lemma FailedWakes(b: Board)
    ensures Failed(Failed(b)) == Failed(b)
  {
  }

  // A test at the head is one step, to the operations it turns into.
  lemma {:induction false} TestAlone(s: State, i: Tid, front: seq<Op>)
    requires i in s.threads && s.threads[i].ops != []
    requires s.threads[i].ops[0].CloseTest? || s.threads[i].ops[0].HookTest?
    requires front == Expands(s, s.threads[i].ops[0], Returns, 0)
    ensures Legal(s, [Operate(i, Returns, 0)])
    ensures After(s, [Operate(i, Returns, 0)]) ==
      s.(threads := s.threads[i := Thread(front + s.threads[i].ops[1..], s.threads[i].job)])
  {
    Single(s, Operate(i, Returns, 0));
  }

  lemma {:induction false} TestThenFinish(s: State, i: Tid, front: seq<Op>) returns (es: seq<Event>)
    requires i in s.threads && |s.threads[i].ops| == 1 && Unlatched(s) && Settled(front)
    requires s.threads[i].ops[0].CloseTest? || s.threads[i].ops[0].HookTest?
    requires front == Expands(s, s.threads[i].ops[0], Returns, 0)
    ensures Alone(es, i) && Legal(s, es) && Finished(s, After(s, es), i, front, s.threads[i].job)
  {
    TestAlone(s, i, front);
    assert front + s.threads[i].ops[1..] == front;
    var s1 := After(s, [Operate(i, Returns, 0)]);
    hide Next, Enabled, Legal, After;
    var more := FinishAlone(s1, i);
    Then(s, [Operate(i, Returns, 0)], more);
    es := [Operate(i, Returns, 0)] + more;
    assert s1.threads[i := Thread([], s.threads[i].job)] == s.threads[i := Thread([], s.threads[i].job)];
  }

  /** A closer of any kind that runs by itself, with no other thread in the observer, comes to its end.
      Then the observer has been called if there is one; the transport is closed by every kind but a
      report of loss and a failed hook with an observer; and the waiters that had no message got the
      closing error exactly when the kind says so. */
  lemma {:induction false} CloserAlone(s: State, i: Tid, p: Program) returns (es: seq<Event>)
    requires i !in s.threads && !p.Request? && !p.Reader? && Unlatched(s)
    ensures Alone(es, i) && Legal(s, [Spawn(i, p)] + es)
    ensures var s' := After(s, [Spawn(i, p)] + es);
      && s'.threads == s.threads[i := Thread([], Free)] && s'.cfg == s.cfg
      && s'.flags.closed == (s.flags.closed || p.Close? || p.BoundClose? || (p.HookFailed? && !s.cfg.observer))
      && s'.flags == Noted(s).(closed := s'.flags.closed)
      && s'.board ==
           if p.BoundClose? || (p.Close? && !s.flags.closed && s.cfg.activity) ||
              (p.HookFailed? && (!s.cfg.observer || s.flags.closed))
           then Failed(s.board) else s.board
  {
    var s1 := Next(s, Spawn(i, p));
    Single(s, Spawn(i, p));
    es := ProgramAlone(s1, i, p);
    hide Next, Enabled, Legal, After, Begin;
    Then(s, [Spawn(i, p)], es);
    assert s1.threads[i := Thread([], Free)] == s.threads[i := Thread([], Free)];
  }

  lemma {:induction false} HookFailedAlone(s: State, i: Tid) returns (es: seq<Event>)
    requires i in s.threads && s.threads[i].ops == [Notify, HookTest] && Unlatched(s)
    ensures Alone(es, i) && Legal(s, es)
    ensures var s' := After(s, es);
      && s'.threads == s.threads[i := Thread([], s.threads[i].job)] && s'.cfg == s.cfg
      && s'.flags == Noted(s).(closed := s.flags.closed || !s.cfg.observer)
      && s'.board == if !s.cfg.observer || s.flags.closed then Failed(s.board) else s.board
  {
    es := NotifyAlone(s, i);
    var s1 := After(s, es);
    hide Failed, Next, Enabled, Legal, After;
    var front := Expands(s1, HookTest, Returns, 0);
    var more := TestThenFinish(s1, i, front);
    Then(s, es, more);
    es := es + more;
    assert s1.threads[i := Thread([], s.threads[i].job)] == s.threads[i := Thread([], s.threads[i].job)];
  }

  lemma {:induction false} ProgramAlone(s: State, i: Tid, p: Program) returns (es: seq<Event>)
    requires i in s.threads && s.threads[i] == Begin(p) && !p.Request? && !p.Reader? && Unlatched(s)
    ensures Alone(es, i) && Legal(s, es)
    ensures var s' := After(s, es);
      && s'.threads == s.threads[i := Thread([], Free)] && s'.cfg == s.cfg
      && s'.flags.closed == (s.flags.closed || p.Close? || p.BoundClose? || (p.HookFailed? && !s.cfg.observer))
      && s'.flags == Noted(s).(closed := s'.flags.closed)
      && s'.board ==
           if p.BoundClose? || (p.Close? && !s.flags.closed && s.cfg.activity) ||
              (p.HookFailed? && (!s.cfg.observer || s.flags.closed))
           then Failed(s.board) else s.board
  {
    match p
    case Close =>
      var front := Expands(s, CloseTest, Returns, 0);
      hide Noted, Failed, Legal, After;
      es := TestThenFinish(s, i, front);
    case HookFailed =>
      hide Noted, Failed, Legal, After;
      es := HookFailedAlone(s, i);
    case _ =>
      hide Noted, Failed, Legal, After;
      es := FinishAlone(s, i);
  }

  /** When the reader's stream ends, the transport is closed, the observer has been called, and every
      waiter with no message got the closing error. */
  lemma {:induction false} ReaderEnds(s: State, n: Tid) returns (es: seq<Event>)
    requires n in s.threads && s.threads[n] == Thread([], Reading) && Unlatched(s)
    ensures Alone(es, n) && Legal(s, [Work(n, Ends)] + es)
    ensures var s' := After(s, [Work(n, Ends)] + es);
      && s'.threads == s.threads[n := Thread([], Free)] && s'.cfg == s.cfg
      && s'.flags == Noted(s).(closed := true) && s'.board == Failed(s.board)
  {
    var s1 := Next(s, Work(n, Ends));
    Single(s, Work(n, Ends));
    hide Failed;
    es := FinishAlone(s1, n);
    Then(s, [Work(n, Ends)], es);
    assert s1.threads[n := Thread([], Free)] == s.threads[n := Thread([], Free)];
  }

  lemma {:induction false} Four(s: State, s1: State, s2: State, s3: State, s4: State,
                                e1: Event, e2: Event, e3: Event, e4: Event)
    requires Enabled(s, e1) && Next(s, e1) == s1
    requires Enabled(s1, e2) && Next(s1, e2) == s2
    requires Enabled(s2, e3) && Next(s2, e3) == s3
    requires Enabled(s3, e4) && Next(s3, e4) == s4
    ensures Legal(s, [e1, e2, e3, e4]) && After(s, [e1, e2, e3, e4]) == s4
  {
    hide Enabled, Next;
    Single(s, e1);
    Single(s1, e2);
    Then(s, [e1], [e2]);
    assert [e1] + [e2] == [e1, e2];
    Single(s2, e3);
    Then(s, [e1, e2], [e3]);
    assert [e1, e2] + [e3] == [e1, e2, e3];
    Single(s3, e4);
    Then(s, [e1, e2, e3], [e4]);
    assert [e1, e2, e3] + [e4] == [e1, e2, e3, e4];
  }

  // Into the observer, which raises, and on to the wake-up.
  lemma {:induction false} RaisesAndCloses(s: State, i: Tid)
    requires i !in s.threads && s.cfg.observer && !s.flags.notified && s.flags.latch == None
    ensures var es := [Spawn(i, Loss), Operate(i, Returns, 0), Operate(i, Raises, 0), Operate(i, Returns, 0)];
      && Legal(s, es) && After(s, es).cfg == s.cfg && After(s, es).board == s.board
      && After(s, es).threads == s.threads[i := Thread([Snapshot, Unlatch], Free)]
      && After(s, es).flags == Flags(true, true, Some(i), true, s.flags.calls + 1)
  {
    var s1 := Next(s, Spawn(i, Loss));
    var s2 := Next(s1, Operate(i, Returns, 0));
    assert s2.threads[i].ops == [Observe];
    var s3 := Next(s2, Operate(i, Raises, 0));
    assert s3.threads[i].ops == [SetClosed(false), Snapshot, Unlatch];
    var s4 := Next(s3, Operate(i, Returns, 0));
    assert s4.threads[i].ops == [Snapshot, Unlatch];
    Four(s, s1, s2, s3, s4, Spawn(i, Loss), Operate(i, Returns, 0), Operate(i, Raises, 0), Operate(i, Returns, 0));
  }

  lemma {:induction false} UnlatchAlone(s: State, i: Tid)
    requires AtHead(s, i, Unlatch)
    ensures Legal(s, [Operate(i, Returns, 0)])
    ensures Went(s, After(s, [Operate(i, Returns, 0)]), i, s.flags.(latch := None), s.board)
  {
    Single(s, Operate(i, Returns, 0));
    assert [] + s.threads[i].ops[1..] == s.threads[i].ops[1..];
  }

  /** An observer that raises closes the transport and wakes the waiters before it gives the latch back. */
  lemma {:induction false} ObserverRaises(s: State, i: Tid) returns (more: seq<Event>)
    requires i !in s.threads && s.cfg.observer && !s.flags.notified && s.flags.latch == None
    ensures Alone(more, i)
    ensures var es := [Spawn(i, Loss), Operate(i, Returns, 0), Operate(i, Raises, 0), Operate(i, Returns, 0)] + more;
      && Legal(s, es)
      && After(s, es).threads == s.threads[i := Thread([], Free)] && After(s, es).board == Failed(s.board)
      && After(s, es).flags == Flags(true, true, None, true, s.flags.calls + 1)
  {
    var es := [Spawn(i, Loss), Operate(i, Returns, 0), Operate(i, Raises, 0), Operate(i, Returns, 0)];
    RaisesAndCloses(s, i);
    hide Next, Enabled, Legal, After, Failed;
    var s4 := After(s, es);
    var wake := SnapshotAlone(s4, i);
    var s5 := After(s4, wake);
    assert s4.threads[i].ops[1..] == [Unlatch] && [Unlatch][1..] == [];
    assert s5.threads == s.threads[i := Thread([Unlatch], Free)];
    UnlatchAlone(s5, i);
    Then(s4, wake, [Operate(i, Returns, 0)]);
    more := wake + [Operate(i, Returns, 0)];
    Then(s, es, more);
    assert After(s, es + more).threads == s.threads[i := Thread([], Free)];
  }

  // The request is registered, written and waiting, and the reader has its answer.
  predicate Answering(s: State, s': State, i: Tid, n: Tid, body: int) {
    var r := s.board.nextId;
    && s'.threads == s.threads[i := Thread([], Waiting(r))][n := Thread([], Delivering(r, Answer(body)))]
    && s'.board == Board(r + 1, s.board.pending + {r}, s.board.queues[r := None])
    && s'.flags == s.flags
  }

  lemma {:induction false} AnswerComes(s: State, i: Tid, n: Tid, body: int)
    requires !s.flags.closed && i != n && i in s.threads && n in s.threads
    requires s.threads[i] == Thread([], Fresh) && s.threads[n] == Thread([], Reading)
    ensures var r := s.board.nextId;
      var es := [Work(i, Register), Work(i, Passes), Work(i, Sent), Work(n, Reads(r, body))];
      Legal(s, es) && Answering(s, After(s, es), i, n, body)
  {
    var r := s.board.nextId;
    var s1 := Next(s, Work(i, Register));
    var s2 := Next(s1, Work(i, Passes));
    var s3 := Next(s2, Work(i, Sent));
    var s4 := Next(s3, Work(n, Reads(r, body)));
    Four(s, s1, s2, s3, s4, Work(i, Register), Work(i, Passes), Work(i, Sent), Work(n, Reads(r, body)));
    assert s4.threads == s.threads[i := Thread([], Waiting(r))][n := Thread([], Delivering(r, Answer(body)))];
  }

  lemma {:induction false} AnswerTaken(s: State, s4: State, i: Tid, n: Tid, body: int)
    requires i != n && i in s.threads && n in s.threads && s.threads[n] == Thread([], Reading)
    requires Answering(s, s4, i, n, body) && s.board.nextId !in s.board.pending
    ensures var es, r := [Work(n, Deliver), Work(i, Get), Work(i, Forget)], s.board.nextId;
      && Legal(s4, es)
      && After(s4, es).threads == s.threads[i := Thread([], Done(r, Got(Answer(body))))]
      && After(s4, es).board == Board(r + 1, s.board.pending, s.board.queues[r := None])
      && After(s4, es).flags == s.flags
  {
    var r := s.board.nextId;
    var s5 := Next(s4, Work(n, Deliver));
    var s6 := Next(s5, Work(i, Get));
    var s7 := Next(s6, Work(i, Forget));
    assert s7.board.pending == s.board.pending;
    assert s7.board.queues == s.board.queues[r := None];
    assert s7.threads == s.threads[i := Thread([], Done(r, Got(Answer(body))))];
    Single(s4, Work(n, Deliver));
    Single(s5, Work(i, Get));
    Single(s6, Work(i, Forget));
    hide Next, Enabled;
    Then(s4, [Work(n, Deliver)], [Work(i, Get)]);
    assert [Work(n, Deliver)] + [Work(i, Get)] == [Work(n, Deliver), Work(i, Get)];
    Then(s4, [Work(n, Deliver), Work(i, Get)], [Work(i, Forget)]);
    assert [Work(n, Deliver), Work(i, Get)] + [Work(i, Forget)] == [Work(n, Deliver), Work(i, Get), Work(i, Forget)];
  }

  /** A request on an open transport that is answered returns that answer, and leaves the tables as
      they were but for its number and its empty queue. */
  lemma {:induction false} RequestIsAnswered(ss: seq<State>, reentrant: bool, k: nat, i: Tid, n: Tid, body: int)
    requires IsRun(ss, reentrant) && k < |ss| && !ss[k].flags.closed
    requires i in ss[k].threads && ss[k].threads[i] == Thread([], Fresh)
    requires n in ss[k].threads && ss[k].threads[n] == Thread([], Reading)
    ensures var s, r := ss[k], ss[k].board.nextId;
      var es := [Work(i, Register), Work(i, Passes), Work(i, Sent), Work(n, Reads(r, body))] +
        [Work(n, Deliver), Work(i, Get), Work(i, Forget)];
      && Legal(s, es)
      && After(s, es).threads == s.threads[i := Thread([], Done(r, Got(Answer(body))))]
      && After(s, es).board == Board(r + 1, s.board.pending, s.board.queues[r := None])
      && After(s, es).flags == s.flags
  {
    RunKeeps(ss, reentrant, k);
    var s, r := ss[k], ss[k].board.nextId;
    assert r !in s.board.pending;
    hide Inv, IsRun, Legal, After, Answering;
    var es := [Work(i, Register), Work(i, Passes), Work(i, Sent), Work(n, Reads(r, body))];
    AnswerComes(s, i, n, body);
    AnswerTaken(s, After(s, es), i, n, body);
    Then(s, es, [Work(n, Deliver), Work(i, Get), Work(i, Forget)]);
  }

  /** A request that cannot be written, or times out, reports the loss, is forgotten, and raises. */
  lemma {:induction false} RequestGivesUp(s: State, i: Tid, a: Act) returns (es: seq<Event>)
    requires (a.Fails? || a.TimesOut?) && CanWork(s, i, a) && Unlatched(s)
    ensures Alone(es, i) && Legal(s, [Work(i, a)] + es + [Work(i, Forget)])
    ensures var r, s' := s.threads[i].job.rid, After(s, [Work(i, a)] + es + [Work(i, Forget)]);
      && s'.threads == s.threads[i := Thread([], Done(r, Raised))] && s'.flags == Noted(s)
      && s'.board == s.board.(pending := s.board.pending - {r})
  {
    var r, s1 := s.threads[i].job.rid, Next(s, Work(i, a));
    Single(s, Work(i, a));
    es := NotifyAlone(s1, i);
    var s2 := After(s1, es);
    assert s2.threads[i] == Thread([], Leaving(r, Raised));
    Single(s2, Work(i, Forget));
    assert Next(s2, Work(i, Forget)).threads == s.threads[i := Thread([], Done(r, Raised))];
    hide Next, Enabled, Legal, After, Noted;
    Then(s, [Work(i, a)], es);
    Then(s, [Work(i, a)] + es, [Work(i, Forget)]);
  }

  /** A request on a closed transport is never written: after registering, it can only give up. */
  lemma {:induction false} RequestFailsClosed(s: State, i: Tid)
    requires s.flags.closed && CanWork(s, i, Register)
    ensures var s' := Worked(s, i, Register);
      !CanWork(s', i, Passes) && CanWork(s', i, Fails) && s'.threads[i].job == Checking(s.board.nextId)
  {
  }

  /** A message the reader cannot understand reports the loss, and it reads on; so does a failed hook,
      which without an observer, or on a closed transport, also closes and wakes the waiters. */
  lemma {:induction false} ReaderTrouble(s: State, n: Tid, a: Act) returns (es: seq<Event>)
    requires (a.ReadsTrouble? || a.HookFails?) && CanWork(s, n, a) && Unlatched(s)
    ensures Alone(es, n) && Legal(s, [Work(n, a)] + es)
    ensures var s' := After(s, [Work(n, a)] + es);
      && s'.threads == s.threads
      && s'.flags == Noted(s).(closed := s.flags.closed || (a.HookFails? && !s.cfg.observer))
      && s'.board == if a.HookFails? && (!s.cfg.observer || s.flags.closed) then Failed(s.board) else s.board
  {
    var s1 := Next(s, Work(n, a));
    Single(s, Work(n, a));
    hide Failed;
    if a.ReadsTrouble? { es := NotifyAlone(s1, n); } else { es := HookFailedAlone(s1, n); }
    assert [Notify][1..] == [] && s1.threads[n := Thread([], Reading)] == s.threads;
    hide Next, Enabled, Legal, After;
    Then(s, [Work(n, a)], es);
  }
}
