/** Applying a migration plan with a journal, when any primitive write may raise or the process may
    stop before it; and finishing forward from what is on the disk. */
module MigrationJournal {
  import opened Wrappers
  import opened HttpsMigration

  /** What becomes of the next primitive write: it is made, it raises and changes nothing, or the
      process stops and changes nothing more. */
  datatype Ran = Goes | Raises | Stops

  datatype FileState = Pending | Writing | Done

  datatype Status = Prepared | Interrupted | Completed

  datatype Manifest = Manifest(status: Status, states: seq<FileState>)

  // One attempt's private directory.
  datatype Journal = Journal(before: map<nat, File>, after: map<nat, File>, manifest: Option<Manifest>)

  datatype Snapshot = Snapshot(disk: Disk, journal: Journal)

  datatype Outcome = Refused | NoOp | Finished | Failed | Crashed

  // ---------- What the journal says ----------

  ghost predicate BackedUp(j: Journal, cs: seq<Change>, n: nat)
    requires n <= |cs|
  {
    forall i: nat :: i < n ==> i in j.before && j.before[i] == cs[i].before && i in j.after && j.after[i] == cs[i].after
  }

  // The manifest fits a disk on which the first `k` changes are made.
  predicate FitsAt(states: seq<FileState>, k: nat, i: nat)
    requires i < |states|
  {
    if i + 1 < k then states[i].Done?
    else if i + 1 == k then !states[i].Pending?
    else if i == k then !states[i].Done?
    else states[i].Pending?
  }

  ghost predicate Fits(states: seq<FileState>, k: nat) {
    && (forall i: nat :: i < |states| ==> FitsAt(states, k, i))
    && (0 < k < |states| ==> !(states[k - 1].Writing? && states[k].Writing?))
  }

  predicate AllDone(states: seq<FileState>) { forall i :: 0 <= i < |states| ==> states[i].Done? }

  ghost predicate ManifestAt(m: Manifest, n: nat, k: nat) {
    |m.states| == n && Fits(m.states, k) && (m.status.Completed? ==> k == n && AllDone(m.states))
  }

  ghost predicate Stage(d: Disk, cs: seq<Change>, s: Snapshot, k: nat) {
    && k <= |cs| && s.disk == Applied(d, cs, k)
    && match s.journal.manifest
       case None => k == 0
       case Some(m) => BackedUp(s.journal, cs, |cs|) && ManifestAt(m, |cs|, k)
  }

  ghost predicate Staged(d: Disk, cs: seq<Change>, s: Snapshot) { exists k: nat :: Stage(d, cs, s, k) }

  /** The journal tells the truth about the disk. */
  ghost predicate Truth(d: Disk, cs: seq<Change>, s: Snapshot) {
    && (s.journal.manifest.None? ==> s.disk == d)
    && (forall p :: p in d && (forall i :: 0 <= i < |cs| ==> cs[i].path != p) ==> p in s.disk && s.disk[p] == d[p])
    && (s.journal.manifest.Some? ==>
          var m := s.journal.manifest.value;
          && |m.states| == |cs| && BackedUp(s.journal, cs, |cs|)
          && (forall i :: 0 <= i < |cs| ==> TruthOf(cs[i], m.states[i], s.disk))
          && (forall i, j :: 0 <= i < j < |cs| ==> !(m.states[i].Writing? && m.states[j].Writing?))
          && (m.status.Completed? ==> forall i :: 0 <= i < |cs| ==> m.states[i].Done?))
  }

  predicate TruthOf(c: Change, state: FileState, d: Disk) {
    c.path in d &&
    match state
    case Pending => d[c.path] == c.before
    case Done => d[c.path] == c.after
    case Writing => d[c.path] == c.before || d[c.path] == c.after
  }

  lemma {:induction false} StageIsTruth(d: Disk, cs: seq<Change>, s: Snapshot)
    requires GoodChanges(d, cs) && Staged(d, cs, s)
    ensures Truth(d, cs, s)
  {
    var k: nat :| Stage(d, cs, s, k);
    forall p | p in d && (forall i :: 0 <= i < |cs| ==> cs[i].path != p) ensures p in s.disk && s.disk[p] == d[p] {
      AppliedElse(d, cs, k, p);
    }
    if s.journal.manifest.Some? {
      var m := s.journal.manifest.value;
      forall i: nat | i < |cs| ensures TruthOf(cs[i], m.states[i], s.disk) {
        assert FitsAt(m.states, k, i);
        if i < k { AppliedAt(d, cs, k, i); } else { AppliedElse(d, cs, k, cs[i].path); }
      }
      forall i: nat, j: nat | i < j < |cs| ensures !(m.states[i].Writing? && m.states[j].Writing?) {
        assert FitsAt(m.states, k, i) && FitsAt(m.states, k, j);
      }
    }
  }

  // ---------- One attempt ----------

  ghost predicate NoTrouble(script: seq<Ran>) { forall i :: 0 <= i < |script| ==> script[i].Goes? }

  ghost predicate AllStaged(d: Disk, cs: seq<Change>, trace: seq<Snapshot>) {
    forall i :: 0 <= i < |trace| ==> Staged(d, cs, trace[i])
  }

  lemma AllStagedMore(d: Disk, cs: seq<Change>, trace: seq<Snapshot>, s: Snapshot, k: nat)
    requires AllStaged(d, cs, trace) && Stage(d, cs, s, k)
    ensures AllStaged(d, cs, trace + [s])
  {
    hide Stage;
  }

  // The states after the first `k` changes, the next one perhaps under way.
  function StatesAt(n: nat, k: nat, writing: bool): (states: seq<FileState>)
    ensures |states| == n
  {
    seq(n, i => if i < k then Done else if i == k && writing then Writing else Pending)
  }

  lemma StatesFit(n: nat, k: nat)
    requires k <= n
    ensures Fits(StatesAt(n, k, false), k) && Fits(StatesAt(n, k, true), k)
    ensures k < n ==> Fits(StatesAt(n, k, true), k + 1)
    ensures AllDone(StatesAt(n, n, false)) && AllDone(StatesAt(n, n, true))
    ensures k < n ==> StatesAt(n, k, false)[k := Writing] == StatesAt(n, k, true)
    ensures k < n ==> StatesAt(n, k, true)[k := Done] == StatesAt(n, k + 1, false)
  {
  }

  lemma StageOf(d: Disk, cs: seq<Change>, s: Snapshot, k: nat, states: seq<FileState>, status: Status)
    requires k <= |cs| && s.disk == Applied(d, cs, k) && BackedUp(s.journal, cs, |cs|)
    requires s.journal.manifest == Some(Manifest(status, states)) && |states| == |cs| && Fits(states, k)
    requires status.Completed? ==> k == |cs| && AllDone(states)
    ensures Stage(d, cs, s, k)
  {
    hide Fits, AllDone, BackedUp;
  }

  // The plan's files and the script that decides each write; a spent script lets all go.
  class Migration {
    const tools: Tools
    const endpoint: Endpoint
    const site: Site
    const outside: int
    var disk: Disk
    var journal: Journal
    var script: seq<Ran>
    ghost var trace: seq<Snapshot>

    constructor (tools: Tools, endpoint: Endpoint, site: Site, outside: int, disk: Disk, script: seq<Ran>)
      ensures this.tools == tools && this.endpoint == endpoint && this.site == site && this.outside == outside
      ensures this.disk == disk && this.script == script && trace == [] && journal == Journal(map[], map[], None)
    {
      this.tools, this.endpoint, this.site, this.outside := tools, endpoint, site, outside;
      this.disk, this.script, trace, journal := disk, script, [], Journal(map[], map[], None);
    }

    method Turn() returns (ran: Ran)
      modifies this`script
      ensures NoTrouble(old(script)) ==> ran.Goes? && NoTrouble(script)
    {
      if script == [] { return Goes; }
      ran, script := script[0], script[1..];
    }

    // An atomic replacement of the manifest.
    method WriteManifest(m: Manifest) returns (ran: Ran)
      modifies this`script, this`journal, this`trace
      ensures NoTrouble(old(script)) ==> ran.Goes? && NoTrouble(script)
      ensures journal == if ran.Goes? then old(journal).(manifest := Some(m)) else old(journal)
      ensures trace == old(trace) + [Snapshot(disk, journal)]
    {
      ran := Turn();
      if ran.Goes? { journal := journal.(manifest := Some(m)); }
      trace := trace + [Snapshot(disk, journal)];
    }

    // An atomic replacement of an endpoint file.
    method WriteFile(path: Path, raw: File) returns (ran: Ran)
      modifies this`script, this`disk, this`trace
      ensures NoTrouble(old(script)) ==> ran.Goes? && NoTrouble(script)
      ensures disk == if ran.Goes? then old(disk)[path := raw] else old(disk)
      ensures trace == old(trace) + [Snapshot(disk, journal)]
    {
      ran := Turn();
      if ran.Goes? { disk := disk[path := raw]; }
      trace := trace + [Snapshot(disk, journal)];
    }

    // The copies of every file before and after; a stop may leave one torn.
    method BackUp(cs: seq<Change>) returns (ran: Ran)
      requires journal.manifest.None?
      modifies this`script, this`journal, this`trace
      ensures NoTrouble(old(script)) ==> ran.Goes? && NoTrouble(script)
      ensures journal.manifest.None? && (ran.Goes? ==> BackedUp(journal, cs, |cs|))
      ensures AllStaged(disk, cs, old(trace)) ==> AllStaged(disk, cs, trace)
    {
      for index := 0 to |cs|
        invariant journal.manifest.None? && BackedUp(journal, cs, index)
        invariant NoTrouble(old(script)) ==> NoTrouble(script)
        invariant AllStaged(disk, cs, old(trace)) ==> AllStaged(disk, cs, trace)
      {
        ran := Turn();
        var copied := if ran.Goes? then cs[index].before else [];
        if !ran.Raises? { journal := journal.(before := journal.before[index := copied]); }
        ghost var torn := Snapshot(disk, journal);
        if AllStaged(disk, cs, trace) { AllStagedMore(disk, cs, trace, torn, 0); }
        trace := trace + [torn];
        if !ran.Goes? { return; }
        ran := Turn();
        copied := if ran.Goes? then cs[index].after else [];
        if !ran.Raises? { journal := journal.(after := journal.after[index := copied]); }
        torn := Snapshot(disk, journal);
        if AllStaged(disk, cs, trace) { AllStagedMore(disk, cs, trace, torn, 0); }
        trace := trace + [torn];
        if !ran.Goes? { return; }
      }
      ran := Goes;
    }

    // One change: noted as under way, made, noted as done. `k` counts the changes made.
    method MakeChange(ghost d: Disk, cs: seq<Change>, index: nat, states: seq<FileState>)
      returns (ran: Ran, states': seq<FileState>, ghost k: nat)
      requires index < |cs| && GoodChanges(d, cs) && disk == Applied(d, cs, index)
      requires states == StatesAt(|cs|, index, false) && journal.manifest == Some(Manifest(Prepared, states))
      requires BackedUp(journal, cs, |cs|) && AllStaged(d, cs, trace)
      modifies this`script, this`disk, this`journal, this`trace
      ensures NoTrouble(old(script)) ==> ran.Goes? && NoTrouble(script)
      ensures BackedUp(journal, cs, |cs|) && AllStaged(d, cs, trace)
      ensures k <= |cs| && disk == Applied(d, cs, k) && |states'| == |cs| && Fits(states', k)
      ensures Stage(d, cs, Snapshot(disk, journal), k)
      ensures ran.Goes? ==> k == index + 1 && states' == StatesAt(|cs|, index + 1, false)
      ensures ran.Goes? ==> journal.manifest == Some(Manifest(Prepared, states'))
    {
      var n, c := |cs|, cs[index];
      states', k := states, index;
      AppliedElse(d, cs, index, c.path);
      StatesFit(n, index);
      StatesFit(n, index + 1);
      hide AllStaged, Stage, Fits, BackedUp, StatesAt, GoodChanges, NoTrouble;
      // Without other writers the file still has the content it was planned from.
      if disk[c.path] != c.before { assert false; }
      states' := states'[index := Writing];
      ran := WriteManifest(Manifest(Prepared, states'));
      SameBackups(old(journal), journal, cs);
      StageOf(d, cs, Snapshot(disk, journal), index, if ran.Goes? then states' else states, Prepared);
      AllStagedMore(d, cs, old(trace), Snapshot(disk, journal), index);
      if !ran.Goes? { return; }
      label wrote:
      ran := WriteFile(c.path, c.after);
      if ran.Goes? { k := index + 1; }
      StageOf(d, cs, Snapshot(disk, journal), k, states', Prepared);
      AllStagedMore(d, cs, old@wrote(trace), Snapshot(disk, journal), k);
      if !ran.Goes? { return; }
      states' := states'[index := Done];
      label made:
      ran := WriteManifest(Manifest(Prepared, states'));
      SameBackups(old@made(journal), journal, cs);
      StageOf(d, cs, Snapshot(disk, journal), k, if ran.Goes? then states' else StatesAt(n, index, true), Prepared);
      AllStagedMore(d, cs, old@made(trace), Snapshot(disk, journal), k);
    }

    // All of them, in order.
    method MakeChanges(ghost d: Disk, cs: seq<Change>) returns (ran: Ran, states: seq<FileState>, ghost k: nat)
      requires GoodChanges(d, cs) && disk == d && BackedUp(journal, cs, |cs|) && AllStaged(d, cs, trace)
      requires journal.manifest == Some(Manifest(Prepared, StatesAt(|cs|, 0, false)))
      requires Stage(d, cs, Snapshot(disk, journal), 0)
      modifies this`script, this`disk, this`journal, this`trace
      ensures NoTrouble(old(script)) ==> ran.Goes? && NoTrouble(script)
      ensures BackedUp(journal, cs, |cs|) && AllStaged(d, cs, trace)
      ensures k <= |cs| && disk == Applied(d, cs, k) && |states| == |cs| && Fits(states, k)
      ensures Stage(d, cs, Snapshot(disk, journal), k)
      ensures ran.Goes? ==> k == |cs| && AllDone(states) && journal.manifest == Some(Manifest(Prepared, states))
    {
      states, k, ran := StatesAt(|cs|, 0, false), 0, Goes;
      StatesFit(|cs|, 0);
      StatesFit(|cs|, |cs|);
      hide AllStaged, Stage, Fits, BackedUp, StatesAt, GoodChanges, NoTrouble, AllDone;
      for index := 0 to |cs|
        invariant ran.Goes? && (NoTrouble(old(script)) ==> NoTrouble(script))
        invariant BackedUp(journal, cs, |cs|) && AllStaged(d, cs, trace)
        invariant Stage(d, cs, Snapshot(disk, journal), k)
        invariant k == index && disk == Applied(d, cs, index) && Fits(states, k) && |states| == |cs|
        invariant states == StatesAt(|cs|, index, false) && journal.manifest == Some(Manifest(Prepared, states))
      {
        ran, states, k := MakeChange(d, cs, index, states);
        if !ran.Goes? { return; }
      }
    }

    // The handler: the manifest is marked, if it still can be.
    method Interrupt(ghost d: Disk, cs: seq<Change>, states: seq<FileState>, ghost k: nat)
      requires BackedUp(journal, cs, |cs|) && AllStaged(d, cs, trace) && |states| == |cs| && Fits(states, k)
      requires k <= |cs| && disk == Applied(d, cs, k) && Stage(d, cs, Snapshot(disk, journal), k)
      modifies this`script, this`journal, this`trace
      ensures AllStaged(d, cs, trace)
    {
      hide AllStaged, Stage, Fits, BackedUp, NoTrouble;
      var ran := WriteManifest(Manifest(Interrupted, states));
      SameBackups(old(journal), journal, cs);
      if ran.Goes? {
        StageOf(d, cs, Snapshot(disk, journal), k, states, Interrupted);
      }
      AllStagedMore(d, cs, old(trace), Snapshot(disk, journal), k);
    }

    /** `apply_plan`: at every moment the journal tells the truth; however it ends, the first few of
        the changes are made; when it finishes all of them are, and a plan built then has no
        changes. When no write goes wrong, it finishes exactly when every change survives planning. */
    method Apply(requested: Plan) returns (r: Outcome)
      requires Ready(tools, endpoint, site, disk) && trace == []
      modifies this
      ensures var current := BuildPlan(tools, endpoint, site, old(disk), outside);
        && (current != Some(requested) ==> r == Refused && disk == old(disk) && trace == [])
        && (current == Some(requested) ==>
             && GoodChanges(old(disk), requested.changes) && AllStaged(old(disk), requested.changes, trace)
             && Partly(old(disk), requested.changes, disk) && r != Refused
             && (r in {NoOp, Finished} ==> disk == Applied(old(disk), requested.changes, |requested.changes|))
             && (r == Finished ==> journal.manifest.Some? && journal.manifest.value.status.Completed?)
             && (r in {NoOp, Finished} ==> NothingPlanned(tools, endpoint, site, disk, outside))
             && (NoTrouble(old(script)) ==>
                   (r in {NoOp, Finished} <==> AllSurvive(site, requested.changes, |requested.changes|))))
    {
      hide *;
      var current := MakePlan(tools, endpoint, site, disk, outside);
      if current.None? || current.value != requested { return Refused; }
      var cs := requested.changes;
      ghost var d := disk;
      PlanIsGood(tools, endpoint, site, d, outside);
      NothingMade(d, cs);
      if cs == [] {
        NothingToDo(tools, endpoint, site, d, outside);
        return NoOp;
      }
      journal := Journal(map[], map[], None);
      var ran := BackUp(cs);
      if !ran.Goes? { return if ran.Raises? then Failed else Crashed; }
      var states := StatesAt(|cs|, 0, false);
      StatesFit(|cs|, 0);
      label copied:
      ran := WriteManifest(Manifest(Prepared, states));
      SameBackups(old@copied(journal), journal, cs);
      FirstStage(d, cs, Snapshot(disk, journal), states, old@copied(journal), ran.Goes?);
      AllStagedMore(d, cs, old@copied(trace), Snapshot(disk, journal), 0);
      if !ran.Goes? { return if ran.Raises? then Failed else Crashed; }
      ghost var k;
      ran, states, k := MakeChanges(d, cs);
      PartlyIs(d, cs, disk, k);
      if ran.Stops? { return Crashed; }
      if ran.Goes? {
        Resume(tools, endpoint, site, d, outside, |cs|);
        var remaining := MakePlan(tools, endpoint, site, disk, outside);
        NoneLeft(cs);
        IsNothingPlanned(tools, endpoint, site, disk, outside);
        if remaining.Some? && remaining.value.changes == [] {
          label changed:
          ran := WriteManifest(Manifest(Completed, states));
          SameBackups(old@changed(journal), journal, cs);
          StageOf(d, cs, Snapshot(disk, journal), k, states, if ran.Goes? then Completed else Prepared);
          AllStagedMore(d, cs, old@changed(trace), Snapshot(disk, journal), k);
          if ran.Goes? { return Finished; }
          if ran.Stops? { return Crashed; }
        }
      }
      Interrupt(d, cs, states, k);
      r := Failed;
    }
  }

  lemma SameBackups(j: Journal, j': Journal, cs: seq<Change>)
    requires BackedUp(j, cs, |cs|) && j'.before == j.before && j'.after == j.after
    ensures BackedUp(j', cs, |cs|)
  {
  }

  ghost predicate NothingPlanned(t: Tools, e: Endpoint, site: Site, d: Disk, outside: int) {
    BuildPlan(t, e, site, d, outside).Some? && BuildPlan(t, e, site, d, outside).value.changes == []
  }

  lemma IsNothingPlanned(t: Tools, e: Endpoint, site: Site, d: Disk, outside: int)
    ensures NothingPlanned(t, e, site, d, outside) <==>
      BuildPlan(t, e, site, d, outside).Some? && BuildPlan(t, e, site, d, outside).value.changes == []
  {
  }

  lemma NothingToDo(t: Tools, e: Endpoint, site: Site, d: Disk, outside: int)
    requires BuildPlan(t, e, site, d, outside).Some? && BuildPlan(t, e, site, d, outside).value.changes == []
    ensures NothingPlanned(t, e, site, d, outside) && AllSurvive(site, [], 0)
  {
  }

  lemma NoneLeft(cs: seq<Change>)
    ensures cs[|cs|..] == []
  {
  }

  // Some first part of the changes is made.
  ghost predicate Partly(d: Disk, cs: seq<Change>, d': Disk) { exists k: nat :: k <= |cs| && d' == Applied(d, cs, k) }

  lemma PartlyIs(d: Disk, cs: seq<Change>, d': Disk, k: nat)
    requires k <= |cs| && d' == Applied(d, cs, k)
    ensures Partly(d, cs, d')
  {
  }

  lemma NothingMade(d: Disk, cs: seq<Change>)
    ensures Applied(d, cs, 0) == d && Partly(d, cs, d) && AllStaged(d, cs, []) &&
      (cs == [] ==> Applied(d, cs, |cs|) == d)
  {
    assert Applied(d, cs, 0) == d;
  }

  lemma FirstStage(d: Disk, cs: seq<Change>, s: Snapshot, states: seq<FileState>, before: Journal, went: bool)
    requires s.disk == d && BackedUp(s.journal, cs, |cs|) && before.manifest.None?
    requires s.journal == if went then before.(manifest := Some(Manifest(Prepared, states))) else before
    requires |states| == |cs| && Fits(states, 0)
    ensures Stage(d, cs, s, 0)
  {
  }

  lemma {:induction false} PlanIsGood(t: Tools, e: Endpoint, site: Site, d: Disk, outside: int)
    requires Ready(t, e, site, d) && BuildPlan(t, e, site, d, outside).Some?
    ensures GoodChanges(d, BuildPlan(t, e, site, d, outside).value.changes)
  {
    hide Laws, ValidEndpoint, EnvFeeds, Review, DistinctPaths, GoodChanges, Collected, RealEdits, Paths;
    EnvOnDisk(site, d);
    ReviewEdits(t, e, site, d);
    CollectedGood(Paths(site), d, Review(t, e, site, d).value, |Paths(site)|);
  }

  // ---------- Finishing forward ----------

  /** One attempt, from preview to however it ends: `Apply` ensures this of the disk. */
  ghost predicate Attempt(t: Tools, e: Endpoint, site: Site, outside: int, d: Disk, d': Disk) {
    BuildPlan(t, e, site, d, outside).Some? && Partly(d, BuildPlan(t, e, site, d, outside).value.changes, d')
  }

  // The disk of an uninterrupted apply.
  function Finish(t: Tools, e: Endpoint, site: Site, outside: int, d: Disk): Disk
    requires BuildPlan(t, e, site, d, outside).Some?
  {
    var cs := BuildPlan(t, e, site, d, outside).value.changes;
    Applied(d, cs, |cs|)
  }

  /** Every change of the plan survives planning. */
  ghost predicate Recoverable(t: Tools, e: Endpoint, site: Site, outside: int, d: Disk) {
    BuildPlan(t, e, site, d, outside).Some? &&
    var cs := BuildPlan(t, e, site, d, outside).value.changes;
    AllSurvive(site, cs, |cs|)
  }

  lemma {:induction false} SurvivePart(site: Site, cs: seq<Change>, k: nat)
    requires k <= |cs|
    ensures AllSurvive(site, cs, |cs|) <==> AllSurvive(site, cs, k) && AllSurvive(site, cs[k..], |cs| - k)
  {
    hide Survives;
    if AllSurvive(site, cs, k) && AllSurvive(site, cs[k..], |cs| - k) {
      forall i | 0 <= i < |cs| ensures Survives(site, cs[i]) {
        if i >= k { assert Survives(site, cs[k..][i - k]); }
      }
    }
  }

  lemma {:induction false} AttemptKeeps(t: Tools, e: Endpoint, site: Site, outside: int, d: Disk, d': Disk)
    requires Ready(t, e, site, d) && Attempt(t, e, site, outside, d, d')
    ensures Ready(t, e, site, d')
    ensures Recoverable(t, e, site, outside, d') <==> Recoverable(t, e, site, outside, d)
    ensures BuildPlan(t, e, site, d', outside).Some? ==>
      Finish(t, e, site, outside, d') == Finish(t, e, site, outside, d)
  {
    hide Ready, BuildPlan, Applied, AllSurvive;
    var cs := BuildPlan(t, e, site, d, outside).value.changes;
    var k: nat :| k <= |cs| && d' == Applied(d, cs, k);
    Resume(t, e, site, d, outside, k);
    AppliedMore(d, cs, k, |cs| - k);
    SurvivePart(site, cs, k);
  }

  // Any number of attempts, one after the other.
  ghost predicate Attempts(t: Tools, e: Endpoint, site: Site, outside: int, ds: seq<Disk>, n: nat)
    requires n < |ds|
  {
    forall i :: 0 <= i < n ==> Attempt(t, e, site, outside, ds[i], ds[i + 1])
  }

  lemma {:induction false} AttemptsKeep(t: Tools, e: Endpoint, site: Site, outside: int, ds: seq<Disk>, n: nat)
    requires n < |ds| && Ready(t, e, site, ds[0]) && BuildPlan(t, e, site, ds[0], outside).Some?
    requires Attempts(t, e, site, outside, ds, n)
    ensures Ready(t, e, site, ds[n])
    ensures Recoverable(t, e, site, outside, ds[n]) <==> Recoverable(t, e, site, outside, ds[0])
    ensures BuildPlan(t, e, site, ds[n], outside).Some? ==>
      Finish(t, e, site, outside, ds[n]) == Finish(t, e, site, outside, ds[0])
  {
    hide Ready, BuildPlan, Applied, Finish, Recoverable;
    if n > 0 {
      AttemptsKeep(t, e, site, outside, ds, n - 1);
      assert Attempt(t, e, site, outside, ds[n - 1], ds[n - 1 + 1]);
      AttemptKeeps(t, e, site, outside, ds[n - 1], ds[n]);
    }
  }

  /** Forward recovery: after any number of attempts that stopped or failed anywhere, finishing one
      leaves the endpoint files as an uninterrupted apply would have, and a further plan has no
      changes, if every planned change survives planning. */
  lemma {:induction false} ForwardRecovery(t: Tools, e: Endpoint, site: Site, outside: int, ds: seq<Disk>, n: nat)
    requires n < |ds| && Ready(t, e, site, ds[0]) && Recoverable(t, e, site, outside, ds[0])
    requires Attempts(t, e, site, outside, ds, n)
    ensures Ready(t, e, site, ds[n]) && BuildPlan(t, e, site, ds[n], outside).Some?
    ensures Finish(t, e, site, outside, ds[n]) == Finish(t, e, site, outside, ds[0])
    ensures NothingPlanned(t, e, site, Finish(t, e, site, outside, ds[n]), outside)
  {
    hide Ready, BuildPlan, Applied, Attempts, Finish, AllSurvive;
    AttemptsKeep(t, e, site, outside, ds, n);
    FinishIs(t, e, site, outside, ds[n]);
    var cs := BuildPlan(t, e, site, ds[n], outside).value.changes;
    Resume(t, e, site, ds[n], outside, |cs|);
    NoneLeft(cs);
  }

  /** Otherwise there is none: no run of attempts ends where a plan has no changes, and where a plan
      can still be built, finishing it leaves a disk on which none can. */
  lemma {:induction false} NoRecovery(t: Tools, e: Endpoint, site: Site, outside: int, ds: seq<Disk>, n: nat)
    requires n < |ds| && Ready(t, e, site, ds[0]) && BuildPlan(t, e, site, ds[0], outside).Some?
    requires Attempts(t, e, site, outside, ds, n) && !Recoverable(t, e, site, outside, ds[0])
    ensures !NothingPlanned(t, e, site, ds[n], outside)
    ensures BuildPlan(t, e, site, ds[n], outside).Some? ==>
      BuildPlan(t, e, site, Finish(t, e, site, outside, ds[n]), outside) == None
  {
    hide Ready, BuildPlan, Applied, Attempts, Finish, Survives;
    AttemptsKeep(t, e, site, outside, ds, n);
    if BuildPlan(t, e, site, ds[n], outside).Some? {
      FinishIs(t, e, site, outside, ds[n]);
      var cs := BuildPlan(t, e, site, ds[n], outside).value.changes;
      Resume(t, e, site, ds[n], outside, |cs|);
    }
  }

  /** Recovery holds if and only if every planned change survives planning: it leaves a file that can be
      read, and of the configuration file one line was rewritten. */
  lemma {:induction false} RecoversExactlyWhen(t: Tools, e: Endpoint, site: Site, outside: int, ds: seq<Disk>, n: nat)
    requires n < |ds| && Ready(t, e, site, ds[0]) && Attempts(t, e, site, outside, ds, n)
    requires BuildPlan(t, e, site, ds[0], outside).Some? && BuildPlan(t, e, site, ds[n], outside).Some?
    ensures NothingPlanned(t, e, site, Finish(t, e, site, outside, ds[n]), outside) <==>
      var cs := BuildPlan(t, e, site, ds[0], outside).value.changes; AllSurvive(site, cs, |cs|)
  {
    hide Ready, BuildPlan, Attempts, Finish, AllSurvive;
    if Recoverable(t, e, site, outside, ds[0]) {
      ForwardRecovery(t, e, site, outside, ds, n);
    } else {
      NoRecovery(t, e, site, outside, ds, n);
    }
  }

  lemma FinishIs(t: Tools, e: Endpoint, site: Site, outside: int, d: Disk)
    requires BuildPlan(t, e, site, d, outside).Some?
    ensures var cs := BuildPlan(t, e, site, d, outside).value.changes;
      Finish(t, e, site, outside, d) == Applied(d, cs, |cs|)
  {
  }

  /** And every endpoint on that disk is the HTTPS one. */
  lemma {:induction false} RecoveredIsUpgraded(t: Tools, e: Endpoint, site: Site, outside: int, ds: seq<Disk>, n: nat)
    requires n < |ds| && Ready(t, e, site, ds[0]) && Recoverable(t, e, site, outside, ds[0])
    requires Attempts(t, e, site, outside, ds, n)
    ensures BuildPlan(t, e, site, ds[n], outside).Some?
    ensures var final := Finish(t, e, site, outside, ds[n]);
      && site.env in final && EnvUpgraded(e, final[site.env])
      && (forall i :: 0 <= i < |site.repos| ==> site.repos[i].0 in final && RepoUpgraded(t, e, final[site.repos[i].0]))
      && (forall i :: 0 <= i < |site.states| ==> site.states[i] in final && StateUpgraded(t, e, final[site.states[i]]))
  {
    ForwardRecovery(t, e, site, outside, ds, n);
    ReadyHas(t, e, site, ds[n]);
    IsNothingPlanned(t, e, site, Finish(t, e, site, outside, ds[n]), outside);
    hide *;
    NoChangesMeansUpgraded(t, e, site, Finish(t, e, site, outside, ds[n]), outside);
  }

  lemma ReadyHas(t: Tools, e: Endpoint, site: Site, d: Disk)
    requires Ready(t, e, site, d)
    ensures Laws(t) && ValidEndpoint(e)
  {
  }
}
