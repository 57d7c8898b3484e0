/**
 * The simulated security scan of the scan dialog: a walk over named phases
 * that reports progress in 11 samples per phase, followed by the one-by-one
 * reveal of a fixed list of findings, followed by completion.
 *
 * Every `await` of the source, with the state update that follows it, is one
 * Snapshot appended to the dialog's trace; the wait before it is its `wait`.
 */
module Scan {
  import opened Wrappers

  datatype FindingKind = Vulnerability | Dependency | CodeQuality
  datatype Severity = Critical | High | Medium | Low
  datatype FindingStatus = Found | Scanning | Completed

  datatype ScanResult = ScanResult(
    id: string,
    kind: FindingKind,
    severity: Severity,
    title: string,
    description: string,
    file: string,
    line: Option<nat>,
    status: FindingStatus)

  /** A phase of the walk; `duration` is in milliseconds. */
  datatype Phase = Phase(name: string, duration: nat)

  /** One observable update of the dialog's state, after waiting `wait` milliseconds. */
  datatype Snapshot = Snapshot(
    wait: real,
    phase: string,
    progress: real,
    results: seq<ScanResult>,
    scanning: bool,
    complete: bool)

  /** The toast raised on completion: how many issues were found, and where. */
  datatype Notice = ScanComplete(count: nat, repository: string)

  const CompletedLabel := "Scan completed!"
  const DefaultRepository := "defensis-web-core"
  const RevealWait := 500.0

  /** The five phases the dialog walks. */
  function ScanPhases(): seq<Phase> {
    [ Phase("Initializing scan...", 1000),
      Phase("Analyzing dependencies...", 2000),
      Phase("Scanning source code...", 3000),
      Phase("Checking security patterns...", 2000),
      Phase("Generating report...", 1000) ]
  }

  /** The four findings the dialog reveals. */
  function MockResults(): seq<ScanResult> {
    [ ScanResult("1", Vulnerability, Critical, "SQL Injection in user authentication",
        "Direct SQL query construction without parameterization", "src/auth.py", Some(45), Found),
      ScanResult("2", Dependency, High, "Vulnerable dependency: lodash@4.17.20",
        "Known vulnerability in lodash library", "package.json", None, Found),
      ScanResult("3", CodeQuality, Medium, "Missing CSRF protection",
        "Forms lack CSRF token validation", "src/forms.py", Some(12), Found),
      ScanResult("4", Vulnerability, Low, "Weak password policy",
        "Password requirements are too lenient", "src/config.py", Some(28), Found) ]
  }

  // ---------------------------------------------------------------------
  // Specification of one run
  // ---------------------------------------------------------------------

  /** Overall progress at phase-local progress `p` of phase `i` out of `n`. */
  function Sample(i: nat, p: nat, n: nat): real
    requires n > 0
  {
    (i * 100 + p) as real / n as real
  }

  /** The 11 updates of phase `i`: phase-local progress 0, 10, ..., 100. */
  function PhaseSteps(phases: seq<Phase>, i: nat): seq<Snapshot>
    requires i < |phases|
  {
    seq(11, k requires 0 <= k < 11 =>
      Snapshot(phases[i].duration as real / 10.0, phases[i].name,
               Sample(i, 10 * k, |phases|), [], true, false))
  }

  /** Sample `k` of phase `i` extends the samples before it. */
  lemma PhaseStepsSnoc(phases: seq<Phase>, i: nat, k: nat)
    requires i < |phases| && k < 11
    ensures PhaseSteps(phases, i)[..k + 1]
         == PhaseSteps(phases, i)[..k] + [Snapshot(phases[i].duration as real / 10.0, phases[i].name,
                                                   Sample(i, 10 * k, |phases|), [], true, false)]
  {
  }

  /** The updates of the first `n` phases, in order. */
  function PhaseWalk(phases: seq<Phase>, n: nat): (w: seq<Snapshot>)
    requires n <= |phases|
    ensures |w| == 11 * n
  {
    if n == 0 then [] else PhaseWalk(phases, n - 1) + PhaseSteps(phases, n - 1)
  }

  /** The phase label once `i` phases have started (`label0` before any). */
  function WalkLabel(phases: seq<Phase>, i: nat, label0: string): string
    requires i <= |phases|
  {
    if i == 0 then label0 else phases[i - 1].name
  }

  /** The progress once `i` phases are walked. */
  function WalkProgress(phases: seq<Phase>, i: nat): real
    requires i <= |phases|
  {
    if i == 0 then 0.0 else Sample(i - 1, 100, |phases|)
  }

  /** A finding as the dialog shows it once revealed. */
  function Reveal(f: ScanResult): ScanResult {
    f.(status := Found)
  }

  /** The whole finding list as revealed. */
  function Revealed(rs: seq<ScanResult>): seq<ScanResult> {
    seq(|rs|, k requires 0 <= k < |rs| => Reveal(rs[k]))
  }

  /** The updates of the first `m` reveals, made under a fixed label and progress. */
  function RevealSteps(phaseLabel: string, progress: real, rs: seq<ScanResult>, m: nat): (r: seq<Snapshot>)
    requires m <= |rs|
    ensures |r| == m
  {
    if m == 0 then []
    else RevealSteps(phaseLabel, progress, rs, m - 1)
         + [Snapshot(RevealWait, phaseLabel, progress, Revealed(rs)[..m], true, false)]
  }

  function ResetSnapshot(label0: string): Snapshot {
    Snapshot(0.0, label0, 0.0, [], true, false)
  }

  function CompletionSnapshot(rs: seq<ScanResult>): Snapshot {
    Snapshot(0.0, CompletedLabel, 100.0, Revealed(rs), false, true)
  }

  /** Every update of one run, from the reset to completion. */
  function ScanRun(phases: seq<Phase>, rs: seq<ScanResult>, label0: string): (run: seq<Snapshot>)
    ensures |run| == 11 * |phases| + |rs| + 2
    ensures run[0] == ResetSnapshot(label0)
    ensures run[|run| - 1] == CompletionSnapshot(rs)
  {
    [ResetSnapshot(label0)]
    + PhaseWalk(phases, |phases|)
    + RevealSteps(WalkLabel(phases, |phases|, label0), WalkProgress(phases, |phases|), rs, |rs|)
    + [CompletionSnapshot(rs)]
  }

  /** Total time waited over a trace. */
  function TotalWait(t: seq<Snapshot>): real {
    if t == [] then 0.0 else TotalWait(t[..|t| - 1]) + t[|t| - 1].wait
  }

  /** Sum of the durations of the first `n` phases. */
  function SumDurations(phases: seq<Phase>, n: nat): nat
    requires n <= |phases|
  {
    if n == 0 then 0 else SumDurations(phases, n - 1) + phases[n - 1].duration
  }

  // ---------------------------------------------------------------------
  // Properties of one run
  // ---------------------------------------------------------------------

  /** The progress numerator of update `j` of a walk: 100 per finished phase, 10 per sample. */
  function WalkNumerator(j: nat): nat {
    100 * (j / 11) + 10 * (j % 11)
  }

  /** Update `j` of a walk is sample `j % 11` of phase `j / 11`, labelled with that phase. */
  lemma {:induction false} PhaseWalkAt(phases: seq<Phase>, n: nat, j: nat)
    requires n <= |phases| && j < 11 * n
    ensures PhaseWalk(phases, n)[j]
         == Snapshot(phases[j / 11].duration as real / 10.0, phases[j / 11].name,
                     Sample(j / 11, 10 * (j % 11), |phases|), [], true, false)
  {
    var w := PhaseWalk(phases, n);
    assert w == PhaseWalk(phases, n - 1) + PhaseSteps(phases, n - 1);
    if j < 11 * (n - 1) {
      PhaseWalkAt(phases, n - 1, j);
    } else {
      assert j / 11 == n - 1 && j % 11 == j - 11 * (n - 1);
    }
  }

  /** Progress never decreases from one walk update to a later one. */
  lemma WalkNumeratorMonotone(a: nat, b: nat)
    requires a <= b
    ensures WalkNumerator(a) <= WalkNumerator(b)
  {
    if a / 11 < b / 11 {
      assert WalkNumerator(a) <= 100 * (a / 11) + 100 <= 100 * (b / 11);
    }
  }

  lemma WalkNumeratorBound(j: nat, n: nat)
    requires j < 11 * n
    ensures WalkNumerator(j) <= 100 * n
  {
    assert j / 11 < n;
  }

  /** Equal or larger numerators give equal or larger progress, always within [0, 100]. */
  lemma SampleOrder(x: nat, y: nat, n: nat)
    requires 0 < n && x <= y <= 100 * n
    ensures 0.0 <= x as real / n as real <= y as real / n as real <= 100.0
  {
    var un := n as real;
    assert (y as real / un) * un == y as real;
    assert (x as real / un) * un == x as real;
    assert (100.0 * un) / un == 100.0;
  }

  /** A phase ends where the next one starts: both at (i + 1) * 100 / N. */
  lemma PhaseBoundary(phases: seq<Phase>, i: nat)
    requires i + 1 < |phases|
    ensures PhaseWalk(phases, |phases|)[11 * i + 10].progress
         == PhaseWalk(phases, |phases|)[11 * (i + 1)].progress
         == ((i + 1) * 100) as real / |phases| as real
  {
    PhaseWalkAt(phases, |phases|, 11 * i + 10);
    PhaseWalkAt(phases, |phases|, 11 * (i + 1));
    assert (11 * i + 10) / 11 == i && (11 * i + 10) % 11 == 10;
    assert (11 * (i + 1)) / 11 == i + 1 && (11 * (i + 1)) % 11 == 0;
  }

  /** n hundredths of n is a whole hundred percent. */
  lemma FullShare(n: nat)
    requires n > 0
    ensures (100 * n) as real / n as real == 100.0
  {
    var r := n as real;
    assert (100 * n) as real == 100.0 * r;
  }

  /** The last sample of the last phase is exactly 100. */
  lemma WalkEndsAtHundred(phases: seq<Phase>)
    requires |phases| > 0
    ensures PhaseWalk(phases, |phases|)[11 * |phases| - 1].progress == 100.0
    ensures WalkProgress(phases, |phases|) == 100.0
  {
    var n := |phases|;
    PhaseWalkAt(phases, n, 11 * n - 1);
    assert (11 * n - 1) / 11 == n - 1 && (11 * n - 1) % 11 == 10;
    assert (n - 1) * 100 + 100 == 100 * n;
    FullShare(n);
  }

  /** Every update of a walk is labelled with its phase and reports progress within [0, 100]. */
  lemma WalkUpdate(phases: seq<Phase>, j: nat)
    requires j < 11 * |phases|
    ensures PhaseWalk(phases, |phases|)[j].phase == phases[j / 11].name
    ensures PhaseWalk(phases, |phases|)[j].progress == WalkNumerator(j) as real / |phases| as real
    ensures 0.0 <= PhaseWalk(phases, |phases|)[j].progress <= 100.0
  {
    PhaseWalkAt(phases, |phases|, j);
    WalkNumeratorBound(j, |phases|);
    SampleOrder(WalkNumerator(j), WalkNumerator(j), |phases|);
  }

  /** Reveal `k` shows exactly the first k + 1 findings, in list order. */
  lemma {:induction false} RevealStepsAt(phaseLabel: string, progress: real, rs: seq<ScanResult>, m: nat, k: nat)
    requires k < m <= |rs|
    ensures RevealSteps(phaseLabel, progress, rs, m)[k]
         == Snapshot(RevealWait, phaseLabel, progress, Revealed(rs)[..k + 1], true, false)
  {
    if k < m - 1 {
      RevealStepsAt(phaseLabel, progress, rs, m - 1, k);
    }
  }

  /** Each reveal adds exactly the next finding to what the previous one showed. */
  lemma RevealOneAtATime(phaseLabel: string, progress: real, rs: seq<ScanResult>, k: nat)
    requires k + 1 < |rs|
    ensures RevealSteps(phaseLabel, progress, rs, |rs|)[k + 1].results
         == RevealSteps(phaseLabel, progress, rs, |rs|)[k].results + [Reveal(rs[k + 1])]
  {
    RevealStepsAt(phaseLabel, progress, rs, |rs|, k);
    RevealStepsAt(phaseLabel, progress, rs, |rs|, k + 1);
    assert Revealed(rs)[..k + 2] == Revealed(rs)[..k + 1] + [Revealed(rs)[k + 1]];
  }

  /** Where each part of a run sits, and the progress it reports. */
  lemma RunProgressAt(phases: seq<Phase>, rs: seq<ScanResult>, label0: string, j: nat)
    requires j < |ScanRun(phases, rs, label0)|
    ensures |ScanRun(phases, rs, label0)| == 11 * |phases| + |rs| + 2
    ensures j == 0 ==> ScanRun(phases, rs, label0)[j].progress == 0.0
    ensures 1 <= j <= 11 * |phases| ==>
              ScanRun(phases, rs, label0)[j].progress == WalkNumerator(j - 1) as real / |phases| as real
    ensures 11 * |phases| < j <= 11 * |phases| + |rs| ==>
              ScanRun(phases, rs, label0)[j].progress == WalkProgress(phases, |phases|)
    ensures j == 11 * |phases| + |rs| + 1 ==> ScanRun(phases, rs, label0)[j].progress == 100.0
  {
    var n := |phases|;
    var w := PhaseWalk(phases, n);
    var v := RevealSteps(WalkLabel(phases, n, label0), WalkProgress(phases, n), rs, |rs|);
    var run := ScanRun(phases, rs, label0);
    assert run == [ResetSnapshot(label0)] + w + v + [CompletionSnapshot(rs)];
    if 1 <= j <= 11 * n {
      assert run[j] == w[j - 1];
      PhaseWalkAt(phases, n, j - 1);
    } else if 11 * n < j <= 11 * n + |rs| {
      assert run[j] == v[j - 1 - 11 * n];
      RevealStepsAt(WalkLabel(phases, n, label0), WalkProgress(phases, n), rs, |rs|, j - 1 - 11 * n);
    }
  }

  /** Over a whole run, progress stays within [0, 100] and never goes back. */
  lemma RunProgressMonotone(phases: seq<Phase>, rs: seq<ScanResult>, label0: string, a: nat, b: nat)
    requires a <= b < |ScanRun(phases, rs, label0)|
    ensures 0.0 <= ScanRun(phases, rs, label0)[a].progress
                <= ScanRun(phases, rs, label0)[b].progress <= 100.0
  {
    var n := |phases|;
    RunProgressAt(phases, rs, label0, a);
    RunProgressAt(phases, rs, label0, b);
    if n > 0 {
      WalkEndsAtHundred(phases);
      if 1 <= a <= 11 * n {
        WalkNumeratorBound(a - 1, n);
        if b <= 11 * n {
          WalkNumeratorMonotone(a - 1, b - 1);
          WalkNumeratorBound(b - 1, n);
          SampleOrder(WalkNumerator(a - 1), WalkNumerator(b - 1), n);
        } else {
          SampleOrder(WalkNumerator(a - 1), 100 * n, n);
        }
      } else if a == 0 && 1 <= b <= 11 * n {
        WalkNumeratorBound(b - 1, n);
        SampleOrder(0, WalkNumerator(b - 1), n);
      }
    }
  }

  /** Only the last update of a run is complete; every earlier one is still scanning. */
  lemma CompleteOnlyAtEnd(phases: seq<Phase>, rs: seq<ScanResult>, label0: string, j: nat)
    requires j < |ScanRun(phases, rs, label0)|
    ensures ScanRun(phases, rs, label0)[j].complete <==> j == |ScanRun(phases, rs, label0)| - 1
    ensures ScanRun(phases, rs, label0)[j].scanning <==> !ScanRun(phases, rs, label0)[j].complete
  {
    var n := |phases|;
    var w := PhaseWalk(phases, n);
    var v := RevealSteps(WalkLabel(phases, n, label0), WalkProgress(phases, n), rs, |rs|);
    var run := ScanRun(phases, rs, label0);
    assert run == [ResetSnapshot(label0)] + w + v + [CompletionSnapshot(rs)];
    if 1 <= j <= 11 * n {
      assert run[j] == w[j - 1];
      PhaseWalkAt(phases, n, j - 1);
    } else if 11 * n < j <= 11 * n + |rs| {
      assert run[j] == v[j - 1 - 11 * n];
      RevealStepsAt(WalkLabel(phases, n, label0), WalkProgress(phases, n), rs, |rs|, j - 1 - 11 * n);
    }
  }

  /** The last update shows every finding, revealed, in list order. */
  lemma RunEndsWithAllFindings(phases: seq<Phase>, rs: seq<ScanResult>, label0: string)
    ensures var run := ScanRun(phases, rs, label0);
      && run[|run| - 1].results == Revealed(rs)
      && |Revealed(rs)| == |rs|
      && forall k :: 0 <= k < |rs| ==>
           Revealed(rs)[k].status == Found && Revealed(rs)[k].(status := rs[k].status) == rs[k]
  {
  }

  lemma {:induction false} TotalWaitAppend(s: seq<Snapshot>, t: seq<Snapshot>)
    ensures TotalWait(s + t) == TotalWait(s) + TotalWait(t)
  {
    if t == [] {
      assert s + t == s;
    } else {
      assert (s + t)[..|s + t| - 1] == s + t[..|t| - 1];
      TotalWaitAppend(s, t[..|t| - 1]);
    }
  }

  lemma {:induction false} UniformWait(t: seq<Snapshot>, w: real)
    requires forall k :: 0 <= k < |t| ==> t[k].wait == w
    ensures TotalWait(t) == |t| as real * w
  {
    if t != [] {
      UniformWait(t[..|t| - 1], w);
    }
  }

  /** Each phase waits 11 times a tenth of its duration. */
  lemma {:induction false} PhaseWalkWait(phases: seq<Phase>, n: nat)
    requires n <= |phases|
    ensures TotalWait(PhaseWalk(phases, n)) == 11.0 * SumDurations(phases, n) as real / 10.0
  {
    if n > 0 {
      PhaseWalkWait(phases, n - 1);
      TotalWaitAppend(PhaseWalk(phases, n - 1), PhaseSteps(phases, n - 1));
      UniformWait(PhaseSteps(phases, n - 1), phases[n - 1].duration as real / 10.0);
    }
  }

  /** The reveal stage waits 500 ms per finding. */
  lemma RevealWaitTotal(phaseLabel: string, progress: real, rs: seq<ScanResult>)
    ensures TotalWait(RevealSteps(phaseLabel, progress, rs, |rs|)) == RevealWait * |rs| as real
  {
    var v := RevealSteps(phaseLabel, progress, rs, |rs|);
    forall k | 0 <= k < |v| ensures v[k].wait == RevealWait {
      RevealStepsAt(phaseLabel, progress, rs, |rs|, k);
    }
    UniformWait(v, RevealWait);
  }

  /** A whole run waits 11/10 of the phase durations plus 500 ms per finding. */
  lemma RunWait(phases: seq<Phase>, rs: seq<ScanResult>, label0: string)
    ensures TotalWait(ScanRun(phases, rs, label0))
         == 11.0 * SumDurations(phases, |phases|) as real / 10.0 + RevealWait * |rs| as real
  {
    var n := |phases|;
    var w := PhaseWalk(phases, n);
    var v := RevealSteps(WalkLabel(phases, n, label0), WalkProgress(phases, n), rs, |rs|);
    PhaseWalkWait(phases, n);
    RevealWaitTotal(WalkLabel(phases, n, label0), WalkProgress(phases, n), rs);
    TotalWaitAppend([ResetSnapshot(label0)], w);
    TotalWaitAppend([ResetSnapshot(label0)] + w, v);
    TotalWaitAppend([ResetSnapshot(label0)] + w + v, [CompletionSnapshot(rs)]);
    assert TotalWait([ResetSnapshot(label0)]) == 0.0;
    assert TotalWait([CompletionSnapshot(rs)]) == 0.0;
  }

  /** The dialog's own run: 9900 ms of phases, 2000 ms of reveals, third phase starting at 40%. */
  lemma DialogRun(label0: string)
    ensures TotalWait(PhaseWalk(ScanPhases(), 5)) == 9900.0
    ensures TotalWait(ScanRun(ScanPhases(), MockResults(), label0)) == 11900.0
    ensures PhaseWalk(ScanPhases(), 5)[22].progress == 40.0
    ensures |ScanRun(ScanPhases(), MockResults(), label0)| == 61
  {
    PhaseWalkWait(ScanPhases(), 5);
    RunWait(ScanPhases(), MockResults(), label0);
    assert SumDurations(ScanPhases(), 5) == 9000;
    PhaseWalkAt(ScanPhases(), 5, 22);
    assert 22 / 11 == 2 && 22 % 11 == 0;
    RunProgressAt(ScanPhases(), MockResults(), label0, 0);
  }

  // ---------------------------------------------------------------------
  // The dialog
  // ---------------------------------------------------------------------

  class ScanModal {
    const repositoryName: string
    const phases: seq<Phase>
    const findings: seq<ScanResult>

    var scanProgress: real
    var currentPhase: string
    var isScanning: bool
    var scanResults: seq<ScanResult>
    var isComplete: bool
    /** Every update emitted so far. */
    var trace: seq<Snapshot>
    /** Every completion toast raised so far. */
    var notices: seq<Notice>

    /** Between calls no run is in flight, and a completed run keeps its final state. */
    ghost predicate Valid()
      reads this
    {
      && !isScanning
      && (isComplete ==>
            scanProgress == 100.0 && currentPhase == CompletedLabel
            && scanResults == Revealed(findings))
    }

    /** The state as an update records it. */
    function Current(wait: real): Snapshot
      reads this
    {
      Snapshot(wait, currentPhase, scanProgress, scanResults, isScanning, isComplete)
    }

    /** The dialog as first rendered; the repository name defaults as the prop does. */
    constructor (repository: Option<string>)
      ensures Valid()
      ensures repositoryName == repository.GetOr(DefaultRepository)
      ensures phases == ScanPhases() && findings == MockResults()
      ensures scanProgress == 0.0 && currentPhase == "" && !isScanning && !isComplete
      ensures scanResults == [] && trace == [] && notices == []
    {
      repositoryName := repository.GetOr(DefaultRepository);
      phases := ScanPhases();
      findings := MockResults();
      scanProgress := 0.0;
      currentPhase := "";
      isScanning := false;
      scanResults := [];
      isComplete := false;
      trace := [];
      notices := [];
    }

    /** One full run: reset, phase walk, reveals, completion. */
    method StartScan()
      modifies this
      ensures Valid()
      ensures isComplete && !isScanning
      ensures currentPhase == CompletedLabel && scanProgress == 100.0
      ensures scanResults == Revealed(findings)
      ensures trace == old(trace) + ScanRun(phases, findings, old(currentPhase))
      ensures notices == old(notices) + [ScanComplete(|findings|, repositoryName)]
    {
      ghost var trace0, label0 := trace, currentPhase;
      isScanning := true;
      scanProgress := 0.0;
      scanResults := [];
      isComplete := false;
      trace := trace + [Current(0.0)];
      assert trace == trace0 + [ResetSnapshot(label0)];

      WalkPhases();
      RevealFindings();

      isScanning := false;
      isComplete := true;
      currentPhase := CompletedLabel;
      scanProgress := 100.0;
      trace := trace + [Current(0.0)];
      notices := notices + [ScanComplete(|findings|, repositoryName)];
    }

    /** The phases in order, each through `RunPhase`. */
    method WalkPhases()
      requires scanResults == [] && isScanning && !isComplete && scanProgress == 0.0
      modifies this`currentPhase, this`scanProgress, this`trace
      ensures currentPhase == WalkLabel(phases, |phases|, old(currentPhase))
      ensures scanProgress == WalkProgress(phases, |phases|)
      ensures trace == old(trace) + PhaseWalk(phases, |phases|)
    {
      var i := 0;
      while i < |phases|
        invariant 0 <= i <= |phases|
        invariant trace == old(trace) + PhaseWalk(phases, i)
        invariant currentPhase == WalkLabel(phases, i, old(currentPhase))
        invariant scanProgress == WalkProgress(phases, i)
      {
        RunPhase(i);
        i := i + 1;
      }
    }

    /** Phase `i`: set its label, then 11 timed progress samples. */
    method RunPhase(i: nat)
      requires i < |phases|
      requires scanResults == [] && isScanning && !isComplete
      modifies this`currentPhase, this`scanProgress, this`trace
      ensures currentPhase == phases[i].name
      ensures scanProgress == Sample(i, 100, |phases|)
      ensures trace == old(trace) + PhaseSteps(phases, i)
    {
      var phase := phases[i];
      currentPhase := phase.name;
      var progress := 0;
      while progress <= 100
        invariant 0 <= progress <= 110 && progress % 10 == 0
        invariant trace == old(trace) + PhaseSteps(phases, i)[..progress / 10]
        invariant currentPhase == phase.name
        invariant progress > 0 ==> scanProgress == Sample(i, progress - 10, |phases|)
      {
        // await phase.duration / 10
        scanProgress := ((i * 100) + progress) as real / |phases| as real;
        ghost var k := progress / 10;
        assert 10 * k == progress;
        PhaseStepsSnoc(phases, i, k);
        trace := trace + [Current(phase.duration as real / 10.0)];
        progress := progress + 10;
      }
      assert PhaseSteps(phases, i)[..11] == PhaseSteps(phases, i);
    }

    /** Reveal the findings one at a time, 500 ms apart. */
    method RevealFindings()
      requires scanResults == [] && isScanning && !isComplete
      modifies this`scanResults, this`trace
      ensures scanResults == Revealed(findings)
      ensures trace == old(trace) + RevealSteps(currentPhase, scanProgress, findings, |findings|)
    {
      var j := 0;
      while j < |findings|
        invariant 0 <= j <= |findings|
        invariant scanResults == Revealed(findings)[..j]
        invariant trace == old(trace) + RevealSteps(currentPhase, scanProgress, findings, j)
      {
        // await 500
        assert Revealed(findings)[..j + 1] == Revealed(findings)[..j] + [Reveal(findings[j])];
        scanResults := scanResults + [Reveal(findings[j])];
        trace := trace + [Current(RevealWait)];
        j := j + 1;
      }
      assert Revealed(findings)[..|findings|] == Revealed(findings);
    }

    /** The auto-start effect, run whenever `isOpen` changes. */
    method OpenChanged(isOpen: bool) returns (started: bool)
      requires Valid()
      modifies this
      ensures Valid()
      ensures started <==> isOpen && !old(isComplete)
      ensures started ==> isComplete && trace == old(trace) + ScanRun(phases, findings, old(currentPhase))
                          && notices == old(notices) + [ScanComplete(|findings|, repositoryName)]
      ensures !started ==> unchanged(this)
    {
      started := isOpen && !isScanning && !isComplete;
      if started {
        StartScan();
      }
    }
  }
}
