/** The startup scan over all sessions and tasks, and the status it reports. */
module RecoveryScan {
  import opened Compaction
  import CompactionRuns
  import Coordinator
  import opened LogOrder
  import opened Options
  import opened Recovery
  import opened RecoveryLaws
  import opened Sequences
  import opened SessionLog
  import opened Strings

  datatype Status = Healthy | Recovered | Degraded

  /** The file of a session after a scan; an empty one is skipped. */
  function Repaired(file: seq<Record>): seq<Record> {
    if file == [] then [] else file + Repairs(SortBySequence(file))
  }

  function Issues(file: seq<Record>): nat {
    if file == [] then 0 else |Repairs(SortBySequence(file))|
  }

  /** The scan as a fold over the listed sessions. */
  function RepairedFiles(files: map<string, seq<Record>>, ids: seq<string>): map<string, seq<Record>>
    requires forall id :: id in ids ==> id in files
    ensures RepairedFiles(files, ids).Keys == files.Keys
    decreases |ids|
  {
    if ids == [] then files
    else
      var front := ids[..|ids| - 1];
      assert ids == front + [ids[|ids| - 1]];
      RepairedFiles(files, front)[ids[|ids| - 1] := Repaired(RepairedFiles(files, front)[ids[|ids| - 1]])]
  }

  /** A file needs no repair. */
  ghost predicate Sound(file: seq<Record>) {
    Complete(SortBySequence(file))
  }

  lemma RepairedIsSound(file: seq<Record>)
    ensures Sound(Repaired(file))
    ensures Issues(file) == 0 <==> Sound(file)
    ensures Sound(file) ==> Repaired(file) == file
    ensures Repaired(Repaired(file)) == Repaired(file)
  {
    if file == [] {
      assert Turns([]) == {} && CallsById([]) == map[];
    } else {
      RepairedOnce(file);
    }
  }

  lemma {:induction false} RepairedOnce(file: seq<Record>)
    requires file != []
    ensures Sound(Repaired(file))
    ensures Repairs(SortBySequence(file)) == [] <==> Sound(file)
    ensures Repaired(Repaired(file)) == Repaired(file)
    ensures Sound(file) ==> Repaired(file) == file
  {
    RepairedFileReads(file);
    ScanCompletes(SortBySequence(file));
    ScanIsFixpoint(SortBySequence(file));
    AddNothing(file, Repairs(SortBySequence(file)));
    RepairedTwice(file);
  }

  lemma RepairedTwice(file: seq<Record>)
    requires file != []
    ensures Repaired(Repaired(file)) == Repaired(file)
  {
    var again := Repaired(file);
    RepairedFileReads(file);
    ScanIsFixpoint(SortBySequence(file));
    assert again != [] && Repairs(SortBySequence(again)) == [];
    AddNothing(again, []);
  }

  lemma AddNothing(file: seq<Record>, added: seq<Record>)
    ensures added == [] ==> file + added == file
  {}

  /** After the scan every listed file is the repaired one, however often it is listed. */
  lemma {:induction false} EveryFileRepaired(files: map<string, seq<Record>>, ids: seq<string>)
    requires forall id :: id in ids ==> id in files
    ensures forall id :: id in files ==>
              RepairedFiles(files, ids)[id] == if id in ids then Repaired(files[id]) else files[id]
    decreases |ids|
  {
    if ids != [] {
      var (front, last) := (ids[..|ids| - 1], ids[|ids| - 1]);
      assert ids == front + [last];
      EveryFileRepaired(files, front);
      RepairedIsSound(files[last]);
    }
  }

  /** What a scan of the listed sessions finds, each file as the scan reaches it. */
  function TotalIssues(files: map<string, seq<Record>>, ids: seq<string>): nat
    requires forall id :: id in ids ==> id in files
    decreases |ids|
  {
    if ids == [] then 0
    else
      var front := ids[..|ids| - 1];
      assert ids == front + [ids[|ids| - 1]];
      TotalIssues(files, front) + Issues(RepairedFiles(files, front)[ids[|ids| - 1]])
  }

  /** A scan finds nothing exactly when every listed file is sound. */
  lemma {:induction false} NoIssuesIffSound(files: map<string, seq<Record>>, ids: seq<string>)
    requires forall id :: id in ids ==> id in files
    ensures TotalIssues(files, ids) == 0 <==> forall id :: id in ids ==> Sound(files[id])
    decreases |ids|
  {
    if ids != [] {
      var (front, last) := (ids[..|ids| - 1], ids[|ids| - 1]);
      assert ids == front + [last];
      NoIssuesIffSound(files, front);
      EveryFileRepaired(files, front);
      IssuesAtLast(files[last], last in front);
      assert forall id :: id in ids <==> id in front || id == last;
    }
  }

  /** A file the scan has been through already adds no issue. */
  lemma IssuesAtLast(file: seq<Record>, done: bool)
    ensures Issues(if done then Repaired(file) else file) == 0 <==> done || Sound(file)
  {
    RepairedIsSound(file);
    RepairedIsSound(Repaired(file));
  }

  lemma {:induction false} AllSound(files: map<string, seq<Record>>, ids: seq<string>)
    requires forall id :: id in ids ==> id in files
    ensures forall id :: id in ids ==> Sound(RepairedFiles(files, ids)[id])
  {
    EveryFileRepaired(files, ids);
    forall id | id in ids ensures Sound(RepairedFiles(files, ids)[id]) {
      RepairedIsSound(files[id]);
    }
  }

  lemma {:induction false} AllStay(files: map<string, seq<Record>>, ids: seq<string>)
    requires forall id :: id in ids ==> id in files
    ensures forall id :: id in ids ==> Repaired(RepairedFiles(files, ids)[id]) == RepairedFiles(files, ids)[id]
  {
    EveryFileRepaired(files, ids);
    forall id | id in ids ensures Repaired(RepairedFiles(files, ids)[id]) == RepairedFiles(files, ids)[id] {
      RepairedIsSound(files[id]);
    }
  }

  /** The scan of all sessions can be repeated without effect. */
  lemma {:induction false} ScanTwice(files: map<string, seq<Record>>, ids: seq<string>)
    requires forall id :: id in ids ==> id in files
    ensures RepairedFiles(RepairedFiles(files, ids), ids) == RepairedFiles(files, ids)
    ensures TotalIssues(RepairedFiles(files, ids), ids) == 0
  {
    AllSound(files, ids);
    NoIssuesIffSound(RepairedFiles(files, ids), ids);
    AllStay(files, ids);
    SameFiles(RepairedFiles(files, ids), ids);
  }

  lemma {:induction false} SameFiles(files: map<string, seq<Record>>, ids: seq<string>)
    requires forall id :: id in ids ==> id in files && Repaired(files[id]) == files[id]
    ensures RepairedFiles(files, ids) == files
  {
    EveryFileRepaired(files, ids);
    var again := RepairedFiles(files, ids);
    forall id | id in files ensures again[id] == files[id] {}
  }

  // ---------------------------------------------------------------- one session

  method AppendTerminals(file: seq<Record>)
    returns (after: seq<Record>, records: seq<Record>, issues: nat, repaired: nat)
    requires file != []
    ensures after == file + MissingTerminals(SortBySequence(file))
    ensures records == SortBySequence(file) + MissingTerminals(SortBySequence(file))
    ensures issues == repaired == |Incomplete(SortBySequence(file))|
  {
    after, records, issues, repaired := file, SortBySequence(file), 0, 0;
    ghost var log := records;
    NothingMissing(log);
    var turnIds, terminalTurns := CollectTurns(records);
    var incomplete := turnIds - terminalTurns;
    if incomplete != {} {
      issues := |incomplete|;
      var terminals := CreateSyntheticTerminals(records, incomplete);
      TerminalsFollow(file);
      after := file + terminals;
      repaired := |terminals|;
      records := SortBySequence(after);
    }
  }

  lemma {:induction false} TerminalsFollow(file: seq<Record>)
    requires file != []
    ensures var terminals := MissingTerminals(SortBySequence(file));
            && SortBySequence(file + terminals) == SortBySequence(file) + terminals
            && |terminals| == |Incomplete(SortBySequence(file))|
  {
    var log := SortBySequence(file);
    SortedBelowNext(file);
    TerminalsAre(Sorted(Incomplete(log)), NextSequence(log));
    TerminalsNumbered(Sorted(Incomplete(log)), NextSequence(log));
    AppendedComesLast(file, MissingTerminals(log));
  }

  method AppendResults(file: seq<Record>, records: seq<Record>)
    returns (after: seq<Record>, issues: nat, repaired: nat)
    ensures after == file + MissingResults(records)
    ensures issues == repaired == |MissingResults(records)|
  {
    after, issues, repaired := file, 0, 0;
    var orphanRepairs := CreateOrphanToolResults(records);
    if orphanRepairs != [] {
      issues := |orphanRepairs|;
      after := file + orphanRepairs;
      repaired := |orphanRepairs|;
    } else {
      assert file + orphanRepairs == file;
    }
  }

  method RepairFile(file: seq<Record>) returns (after: seq<Record>, issues: nat, repaired: nat)
    ensures after == Repaired(file)
    ensures issues == repaired == Issues(file)
  {
    if file == [] {
      return [], 0, 0;
    }
    ghost var log := SortBySequence(file);
    var records;
    after, records, issues, repaired := AppendTerminals(file);
    TerminalsFollow(file);
    FileTogether(file, log);
    var found, mended;
    after, found, mended := AppendResults(after, records);
    issues, repaired := issues + found, repaired + mended;
  }

  // ---------------------------------------------------------------- tasks

  /** The file of a task; `expiresAt` is missing for a task without a time to live. */
  datatype TaskFile = Unreadable | StoredTask(status: Coordinator.Status, expiresAt: Option<int>)

  type Tasks = map<string, TaskFile>

  predicate Expires(t: TaskFile, now: int) {
    t.StoredTask? && !Coordinator.Terminal(t.status) && t.expiresAt.Some? && now >= t.expiresAt.value
  }

  function AfterScan(t: TaskFile, now: int): TaskFile {
    if Expires(t, now) then t.(status := Coordinator.EXPIRED) else t
  }

  function Expired(tasks: Tasks, now: int): Tasks {
    map id | id in tasks :: AfterScan(tasks[id], now)
  }

  function Expiring(tasks: Tasks, now: int): set<string> {
    set id | id in tasks && Expires(tasks[id], now)
  }

  /** Not settled, and its time is up. */
  predicate IsOverdue(t: TaskFile, now: int) {
    && t.StoredTask? && (t.status == Coordinator.PENDING || t.status == Coordinator.RUNNING)
    && t.expiresAt.Some? && t.expiresAt.value <= now
  }

  /** What a scan counts: the tasks that are overdue. */
  lemma ExpiringIs(tasks: Tasks, now: int)
    ensures forall id :: id in Expiring(tasks, now) <==> id in tasks && IsOverdue(tasks[id], now)
  {
    forall id | id in tasks ensures Expires(tasks[id], now) <==> IsOverdue(tasks[id], now) {}
  }

  /** A second scan of the tasks at the same time or earlier expires none and changes nothing. */
  lemma TasksExpireOnce(tasks: Tasks, now: int, again: int)
    requires again <= now
    ensures Expiring(Expired(tasks, now), again) == {} && Expired(Expired(tasks, now), again) == Expired(tasks, now)
  {
    assert forall id :: id in tasks ==> !Expires(Expired(tasks, now)[id], again);
  }

  class StoreFacade {
    var sessions: map<string, seq<Record>>
    var tasks: Tasks

    constructor (sessions: map<string, seq<Record>>, tasks: Tasks)
      ensures this.sessions == sessions && this.tasks == tasks
    {
      this.sessions, this.tasks := sessions, tasks;
    }

    /** All listed sessions, one after the other. */
    method ScanSessions(ids: seq<string>) returns (issues: nat, repaired: nat)
      requires forall id :: id in ids ==> id in sessions
      modifies this`sessions
      ensures sessions == RepairedFiles(old(sessions), ids)
      ensures issues == repaired == TotalIssues(old(sessions), ids)
    {
      issues, repaired := 0, 0;
      ghost var files := sessions;
      var i := 0;
      while i < |ids|
        invariant 0 <= i <= |ids|
        invariant sessions == RepairedFiles(files, ids[..i])
        invariant issues == repaired == TotalIssues(files, ids[..i])
      {
        assert ids[..i + 1][..i] == ids[..i];
        var after, found, mended := RepairFile(sessions[ids[i]]);
        sessions := sessions[ids[i] := after];
        issues, repaired := issues + found, repaired + mended;
        i := i + 1;
      }
      assert ids[..i] == ids;
    }

    /** `_scan_tasks`: the task files in any order; what is counted is repaired. */
    method ScanTasks(now: int) returns (issues: nat, repaired: nat)
      modifies this`tasks
      ensures tasks == Expired(old(tasks), now)
      ensures tasks.Keys == old(tasks.Keys)
      ensures forall id :: id in tasks ==>
                tasks[id] == if IsOverdue(old(tasks)[id], now) then old(tasks)[id].(status := Coordinator.EXPIRED)
                             else old(tasks)[id]
      ensures issues == repaired == |Expiring(old(tasks), now)|
    {
      ghost var before := tasks;
      var todo := tasks.Keys;
      var expired: set<string> := {};
      while todo != {}
        invariant todo <= tasks.Keys == before.Keys
        invariant forall id :: id in before ==>
          tasks[id] == if id in todo then before[id] else AfterScan(before[id], now)
        invariant expired == set id | id in before && id !in todo && Expires(before[id], now)
        decreases |todo|
      {
        var id :| id in todo;
        todo := todo - {id};
        if Expires(tasks[id], now) {
          tasks := tasks[id := tasks[id].(status := Coordinator.EXPIRED)];
          expired := expired + {id};
        }
      }
      assert tasks == Expired(before, now);
      assert expired == Expiring(before, now);
      issues, repaired := |expired|, |expired|;
    }

    method RunRecoveryScan(ids: seq<string>, now: int) returns (status: Status)
      requires forall id :: id in ids ==> id in sessions
      modifies this
      ensures sessions == RepairedFiles(old(sessions), ids) && tasks == Expired(old(tasks), now)
      ensures status == Healthy <==>
                Expiring(old(tasks), now) == {} && forall id :: id in ids ==> Sound(old(sessions)[id])
      ensures status != Degraded
    {
      NoIssuesIffSound(sessions, ids);
      var issuesFound, issuesRepaired := ScanSessions(ids);
      var taskIssues, taskRepairs := ScanTasks(now);
      issuesFound, issuesRepaired := issuesFound + taskIssues, issuesRepaired + taskRepairs;
      if issuesFound == 0 {
        status := Healthy;
      } else if issuesFound == issuesRepaired {
        status := Recovered;
      } else {
        status := Degraded;
      }
    }
  }

  lemma NothingMissing(log: seq<Record>)
    ensures Incomplete(log) == {} ==> MissingTerminals(log) == []
    ensures log + [] == log
  {
    if Incomplete(log) == {} {
      assert Sorted({}) == [];
    }
  }

  lemma FileTogether(file: seq<Record>, log: seq<Record>)
    ensures file + MissingTerminals(log) + MissingResults(log + MissingTerminals(log)) == file + Repairs(log)
    ensures |Repairs(log)| == |MissingTerminals(log)| + |MissingResults(log + MissingTerminals(log))|
  {
    Assoc(file, MissingTerminals(log), MissingResults(log + MissingTerminals(log)));
  }

  /** A compacted log is never complete: the turn of the new summary has no end, so recovery adds one. */
  lemma CompactionNeedsRecovery(cfg: Config, records: seq<Record>, s: Summary, enforceLimit: bool)
    requires Compacted(cfg, records, s, enforceLimit).Some?
    requires s.turn !in Turns(records)
    ensures s.turn in Incomplete(Compacted(cfg, records, s, enforceLimit).value)
  {
    CompactionRuns.CompactedMembers(cfg, records, s, enforceLimit);
    CompactionRuns.KeptMembers(cfg, records);
    var after := Compacted(cfg, records, s, enforceLimit).value;
    assert NewSummary(records, s) in after;
    forall r | r in after && r.body.TurnTerminal? ensures r in records {}
  }
}
