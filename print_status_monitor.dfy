/** The print status monitor (`components/print-status-monitor.tsx`): one tick of the interval that
    advances the printing jobs, moves finished jobs to the completed list and writes log lines, and
    the remaining-time text of a job. The timer itself is not modelled; `Tick` is one callback. */
module PrintStatusMonitor {
  import opened Util
  import opened Text

  /** `status`: 준비중 | 인쇄중 | 일시정지 | 완료 | 오류. */
  datatype JobStatus = Preparing | Printing | Paused | Done | Failed

  /** A print job; times are milliseconds since the epoch. */
  datatype PrintJob = PrintJob(
    id: int,
    itemName: string,
    printer: string,
    material: string,
    startTime: int,
    estimatedEndTime: int,
    progress: int,
    status: JobStatus)

  /** `Math.min(job.progress + 1, 100)`. */
  function NewProgress(job: PrintJob): int
  {
    if job.progress + 1 < 100 then job.progress + 1 else 100
  }

  /** The job as the tick's `map` returns it: a printing job gains one percent, capped at 100, and is
      marked 완료 when it reaches 100; any other job is returned as it is. */
  function Advance(job: PrintJob): PrintJob
  {
    if job.status != Printing then job
    else if NewProgress(job) == 100 then job.(progress := 100, status := Done)
    else job.(progress := NewProgress(job))
  }

  /** The job reaches 100 in this tick (it is printing and `newProgress === 100`). */
  predicate Finishes(job: PrintJob)
  {
    job.status == Printing && NewProgress(job) == 100
  }

  /** `{ ...job, progress: 100, status: "완료" }`, the record prepended to the completed jobs. */
  function Finished(job: PrintJob): PrintJob
  {
    job.(progress := 100, status := Done)
  }

  /** A progress log line is written when the new progress is a multiple of ten and differs from the
      old one. */
  predicate LogsProgress(job: PrintJob)
  {
    job.status == Printing && NewProgress(job) % 10 == 0 && NewProgress(job) != job.progress
  }

  function ProgressLine(job: PrintJob, now: string): string
  {
    "[" + now + "] " + job.printer + " 프린터 진행률: " + IntToString(NewProgress(job)) + "% - " + job.itemName
  }

  function CompletionLine(job: PrintJob, now: string): string
  {
    "[" + now + "] " + job.printer + " 프린터 작업 완료: " + job.itemName
  }

  /** The log after one job was processed: the progress line, then the completion line, each
      prepended. */
  function PrependJobLogs(job: PrintJob, now: string, logs: seq<string>): seq<string>
  {
    var withProgress := if LogsProgress(job) then [ProgressLine(job, now)] + logs else logs;
    if Finishes(job) then [CompletionLine(job, now)] + withProgress else withProgress
  }

  /** The log after the jobs were processed in order; the last job's lines end up on top. */
  function TickLogs(jobs: seq<PrintJob>, now: string, logs: seq<string>): seq<string>
  {
    if jobs == [] then logs
    else PrependJobLogs(jobs[|jobs| - 1], now, TickLogs(jobs[..|jobs| - 1], now, logs))
  }

  /** The completed list after the jobs were processed in order; each finishing job is prepended. */
  function TickCompleted(jobs: seq<PrintJob>, completed: seq<PrintJob>): seq<PrintJob>
  {
    if jobs == [] then completed
    else
      var rest := TickCompleted(jobs[..|jobs| - 1], completed);
      if Finishes(jobs[|jobs| - 1]) then [Finished(jobs[|jobs| - 1])] + rest else rest
  }

  predicate NotDone(job: PrintJob) { job.status != Done }

  /** The active list after the tick: `jobs.map(...).filter((job) => job.status !== "완료")`. */
  function TickActive(jobs: seq<PrintJob>): seq<PrintJob>
  {
    Filter(Map(jobs, Advance), NotDone)
  }

  /** A printing job gains one percent up to 100, any other job is unchanged; with progress at most 100
      the progress never decreases and never exceeds 100. */
  lemma AdvanceProgress(job: PrintJob)
    ensures job.status != Printing ==> Advance(job) == job
    ensures job.status == Printing ==>
      Advance(job).progress == (if job.progress + 1 < 100 then job.progress + 1 else 100)
    ensures job.progress <= 100 ==> job.progress <= Advance(job).progress <= 100
    ensures Advance(job).status == Done <==> job.status == Done || Finishes(job)
    ensures Advance(job).id == job.id && Advance(job).itemName == job.itemName && Advance(job).printer == job.printer
  {
  }

  /** After a tick no active job is finished, and every active job is the advanced form of a job that
      was active before. */
  lemma TickActiveNotDone(jobs: seq<PrintJob>, j: PrintJob)
    ensures forall i :: 0 <= i < |TickActive(jobs)| ==> TickActive(jobs)[i].status != Done
    ensures j in TickActive(jobs) <==> j in Map(jobs, Advance) && j.status != Done
  {
    FilterMembers(Map(jobs, Advance), NotDone, j);
  }

  /** A job that reaches 100 leaves the active list and its finished record heads the completed list
      unless a later job also finished in the same tick. */
  lemma FinishingJobMoves(jobs: seq<PrintJob>, completed: seq<PrintJob>, k: nat)
    requires k < |jobs| && Finishes(jobs[k])
    ensures Finished(jobs[k]) in TickCompleted(jobs, completed)
    ensures Finished(jobs[k]).progress == 100 && Finished(jobs[k]).status == Done
    ensures Advance(jobs[k]) !in TickActive(jobs)
    ensures k == |jobs| - 1 ==> TickCompleted(jobs, completed)[0] == Finished(jobs[k])
  {
    FinishedInCompleted(jobs, completed, k);
    TickActiveNotDone(jobs, Advance(jobs[k]));
  }

  lemma {:induction false} FinishedInCompleted(jobs: seq<PrintJob>, completed: seq<PrintJob>, k: nat)
    requires k < |jobs| && Finishes(jobs[k])
    ensures Finished(jobs[k]) in TickCompleted(jobs, completed)
  {
    if k < |jobs| - 1 {
      var init := jobs[..|jobs| - 1];
      assert init[k] == jobs[k];
      FinishedInCompleted(init, completed, k);
    }
  }

  /** The number of jobs the tick moves to the completed list. */
  lemma {:induction false} CompletedGrowth(jobs: seq<PrintJob>, completed: seq<PrintJob>)
    ensures |TickCompleted(jobs, completed)| == |completed| + Count(jobs, Finishes)
  {
    if jobs != [] {
      var init := jobs[..|jobs| - 1];
      CompletedGrowth(init, completed);
      assert jobs == init + [jobs[|jobs| - 1]];
      CountConcat(init, [jobs[|jobs| - 1]], Finishes);
    }
  }

  predicate StaysActive(job: PrintJob) { Advance(job).status != Done }

  lemma {:induction false} ActiveSize(jobs: seq<PrintJob>)
    ensures |TickActive(jobs)| == Count(jobs, StaysActive)
  {
    if jobs != [] {
      var init, last := jobs[..|jobs| - 1], jobs[|jobs| - 1];
      assert jobs == init + [last];
      calc {
        |TickActive(jobs)|;
        { MapSnoc(init, last, Advance);
          FilterConcat(Map(init, Advance), [Advance(last)], NotDone); }
        |TickActive(init)| + |Filter([Advance(last)], NotDone)|;
        { ActiveSize(init); FilterSingleton(Advance(last), NotDone); }
        Count(init, StaysActive) + (if StaysActive(last) then 1 else 0);
        { CountConcat(init, [last], StaysActive); }
        Count(jobs, StaysActive);
      }
    }
  }

  lemma {:induction false} CountSplitsFinishing(jobs: seq<PrintJob>)
    requires forall i :: 0 <= i < |jobs| ==> jobs[i].status != Done
    ensures Count(jobs, StaysActive) + Count(jobs, Finishes) == |jobs|
  {
    if jobs != [] {
      CountSplitsFinishing(jobs[1..]);
    }
  }

  /** When no active job was already marked 완료, a tick neither loses nor duplicates a job: the two
      lists together are as long as before. (A job marked 완료 by other means would be dropped from
      the active list without being added to the completed one.) */
  lemma TickPreservesJobs(jobs: seq<PrintJob>, completed: seq<PrintJob>)
    requires forall i :: 0 <= i < |jobs| ==> jobs[i].status != Done
    ensures |TickActive(jobs)| + |TickCompleted(jobs, completed)| == |jobs| + |completed|
  {
    ActiveSize(jobs);
    CompletedGrowth(jobs, completed);
    CountSplitsFinishing(jobs);
  }

  /** One job's lines: a progress line exactly when the new progress is a new multiple of ten, a
      completion line exactly when the job reaches 100, the completion line on top. */
  lemma JobLogLines(job: PrintJob, now: string, logs: seq<string>)
    ensures var r := PrependJobLogs(job, now, logs);
      |r| == |logs| + (if LogsProgress(job) then 1 else 0) + (if Finishes(job) then 1 else 0) &&
      r[|r| - |logs|..] == logs &&
      (Finishes(job) ==> r[0] == CompletionLine(job, now)) &&
      (LogsProgress(job) ==> r[if Finishes(job) then 1 else 0] == ProgressLine(job, now))
  {
  }

  /** A job that was at 99 writes both lines, "100%" and the completion. */
  lemma NinetyNineWritesBoth(job: PrintJob)
    requires job.status == Printing && job.progress == 99
    ensures LogsProgress(job) && Finishes(job)
  {
  }

  /** The spec functions over one more job. */
  lemma TickStep(jobs: seq<PrintJob>, i: nat, now: string, logs: seq<string>, completed: seq<PrintJob>)
    requires i < |jobs|
    ensures Map(jobs[..i + 1], Advance) == Map(jobs[..i], Advance) + [Advance(jobs[i])]
    ensures TickLogs(jobs[..i + 1], now, logs) == PrependJobLogs(jobs[i], now, TickLogs(jobs[..i], now, logs))
    ensures TickCompleted(jobs[..i + 1], completed) ==
      (if Finishes(jobs[i]) then [Finished(jobs[i])] else []) + TickCompleted(jobs[..i], completed)
  {
    assert jobs[..i + 1][..i] == jobs[..i];
    assert jobs[..i + 1] == jobs[..i] + [jobs[i]];
  }

  class Monitor {
    var activeJobs: seq<PrintJob>
    var completedJobs: seq<PrintJob>
    var systemLogs: seq<string>
    var notes: string

    constructor (active: seq<PrintJob>, completed: seq<PrintJob>, logs: seq<string>)
      ensures activeJobs == active && completedJobs == completed && systemLogs == logs && notes == ""
    {
      activeJobs, completedJobs, systemLogs := active, completed, logs;
      notes := "";
    }

    /** The notes textarea; the jobs and the log are untouched. */
    method SetNotes(text: string)
      modifies this`notes
      ensures notes == text
    {
      notes := text;
    }

    /** The `map` callback for one job: a printing job gains one percent, writes its progress line
        and, on reaching 100, its completion line and its completed record. */
    method MapJob(job: PrintJob, now: string) returns (next: PrintJob)
      modifies this`systemLogs, this`completedJobs
      ensures next == Advance(job)
      ensures systemLogs == PrependJobLogs(job, now, old(systemLogs))
      ensures completedJobs == (if Finishes(job) then [Finished(job)] else []) + old(completedJobs)
    {
      if job.status == Printing {
        var newProgress := if job.progress + 1 < 100 then job.progress + 1 else 100;
        if newProgress % 10 == 0 && newProgress != job.progress {
          systemLogs := [ProgressLine(job, now)] + systemLogs;
        }
        if newProgress == 100 {
          systemLogs := [CompletionLine(job, now)] + systemLogs;
          completedJobs := [job.(progress := 100, status := Done)] + completedJobs;
          return job.(progress := newProgress, status := Done);
        }
        return job.(progress := newProgress);
      }
      return job;
    }

    /** One interval callback: the jobs are mapped one after the other, each printing job writing its
        log lines and, when it finishes, its completed record; then the finished jobs are filtered
        out. `now` is the `toLocaleTimeString()` text of the moment. */
    method Tick(now: string)
      modifies this`activeJobs, this`completedJobs, this`systemLogs
      ensures activeJobs == TickActive(old(activeJobs))
      ensures completedJobs == TickCompleted(old(activeJobs), old(completedJobs))
      ensures systemLogs == TickLogs(old(activeJobs), now, old(systemLogs))
    {
      var jobs := activeJobs;
      var mapped: seq<PrintJob> := [];
      var i := 0;
      while i < |jobs|
        invariant 0 <= i <= |jobs|
        invariant mapped == Map(jobs[..i], Advance)
        invariant completedJobs == TickCompleted(jobs[..i], old(completedJobs))
        invariant systemLogs == TickLogs(jobs[..i], now, old(systemLogs))
      {
        var next := MapJob(jobs[i], now);
        mapped := mapped + [next];
        TickStep(jobs, i, now, old(systemLogs), old(completedJobs));
        i := i + 1;
      }
      assert jobs[..i] == jobs;
      activeJobs := Filter(mapped, NotDone);
    }
  }

  /** What `getRemainingTime` shows. */
  datatype Remaining = AlreadyDone | AlmostDone | Left(hours: int, mins: int)

  /** `getRemainingTime(job)` at the time `now` (milliseconds). */
  function RemainingTime(job: PrintJob, now: int): Remaining
  {
    if job.status == Done then AlreadyDone
    else
      var remainingMs := job.estimatedEndTime - now;
      if remainingMs <= 0 then AlmostDone
      else
        var remainingMins := remainingMs / (1000 * 60);
        Left(remainingMins / 60, remainingMins % 60)
  }

  /** The text of each case: "완료됨", "곧 완료", or the hours (left out when zero) and minutes. */
  function RemainingText(r: Remaining): string
  {
    match r
    case AlreadyDone => "완료됨"
    case AlmostDone => "곧 완료"
    case Left(hours, mins) => (if hours > 0 then IntToString(hours) + "시간 " else "") + IntToString(mins) + "분 남음"
  }

  /** A finished job shows "완료됨", an overdue one "곧 완료", and otherwise the hours and minutes add
      up to the whole minutes left, with fewer than 60 minutes and the hours shown only when there are
      some. */
  lemma RemainingTimeParts(job: PrintJob, now: int)
    ensures job.status == Done <==> RemainingTime(job, now) == AlreadyDone
    ensures job.status != Done ==> (RemainingTime(job, now) == AlmostDone <==> job.estimatedEndTime <= now)
    ensures RemainingTime(job, now).Left? ==>
      var r := RemainingTime(job, now);
      var ms := job.estimatedEndTime - now;
      ms > 0 && r.hours * 60 + r.mins == ms / 60000 && 0 <= r.mins < 60 && r.hours >= 0 &&
      (r.hours == 0 ==> RemainingText(r) == IntToString(r.mins) + "분 남음")
  {
  }

  /** 45 minutes left read "45분 남음". */
  lemma RemainingTextShort(job: PrintJob, now: int)
    requires job.status == Printing && job.estimatedEndTime == now + 45 * 60000
    ensures RemainingText(RemainingTime(job, now)) == "45분 남음"
  {
    assert RemainingTime(job, now) == Left(0, 45);
    assert NatToString(45) == "45" by {
      assert NatToString(45) == NatToString(4) + [DigitChar(5)];
    }
    calc {
      RemainingText(Left(0, 45));
      NatToString(45) + "분 남음";
      "45" + "분 남음";
    }
  }

  /** 90 minutes left read "1시간 30분 남음". */
  lemma RemainingTextLong(job: PrintJob, now: int)
    requires job.status == Printing && job.estimatedEndTime == now + 90 * 60000
    ensures RemainingText(RemainingTime(job, now)) == "1시간 30분 남음"
  {
    assert RemainingTime(job, now) == Left(1, 30);
    assert NatToString(30) == "30" by {
      assert NatToString(30) == NatToString(3) + [DigitChar(0)];
    }
    assert NatToString(1) == "1";
    calc {
      RemainingText(Left(1, 30));
      NatToString(1) + "시간 " + NatToString(30) + "분 남음";
      "1" + "시간 " + "30" + "분 남음";
    }
  }
}
