/** Running one submission against its tests, stopping at the first failure. */
module Runner {
  import opened OutputCheck
  import opened Schemas
  import opened Wrappers

  const STDERR_LIMIT_CHARS := 2000
  const TRUNCATION_NOTE := "\n... truncated"

  datatype TestCase = TestCase(input: string, expected: string)

  datatype SubmissionRequest = SubmissionRequest(id: int, tests: seq<TestCase>)

  datatype SubmissionResponse = SubmissionResponse(
    id: int,
    verdict: Verdict,
    executionTimeMs: Option<int>,
    memoryUsedMb: Option<int>,
    stderr: Option<string>)

  /** The container runs of the host, numbered in order; a run that raises has no result. */
  class Sandbox {
    const outcome: (nat, string) -> Option<SandboxResult>
    var inputs: seq<string>

    constructor (outcome: (nat, string) -> Option<SandboxResult>)
      ensures this.outcome == outcome && inputs == []
    {
      this.outcome := outcome;
      inputs := [];
    }

    method Run(stdin: string) returns (r: Option<SandboxResult>)
      modifies this
      ensures inputs == old(inputs) + [stdin]
      ensures r == outcome(|old(inputs)|, stdin)
    {
      r := outcome(|inputs|, stdin);
      inputs := inputs + [stdin];
    }
  }

  /** What a reader of the response may rely on: it is bounded, it begins as the text does, and its own length
      tells whether it is the whole text or ends in the note. */
  function TrimStderr(stderr: string): (r: Option<string>)
    ensures r.None? <==> stderr == ""
    ensures r.Some? ==> |r.value| <= 2014
    ensures r.Some? ==>
      forall k :: 0 <= k < |stderr| && k < 2000 ==> k < |r.value| && r.value[k] == stderr[k]
    ensures r.Some? && |r.value| <= 2000 ==> r.value == stderr
    ensures r.Some? && |r.value| > 2000 ==> |stderr| > 2000 && r.value[2000..] == "\n... truncated"
  {
    if stderr == "" then None
    else if |stderr| <= STDERR_LIMIT_CHARS then Some(stderr)
    else Some(stderr[..STDERR_LIMIT_CHARS] + TRUNCATION_NOTE)
  }

  /** Trimming again changes nothing, although a trimmed text may be longer than the limit. */
  lemma TrimIsIdempotent(stderr: string)
    requires stderr != ""
    ensures var once := TrimStderr(stderr).value; TrimStderr(once) == Some(once)
  {
    var once := TrimStderr(stderr).value;
    if |once| > STDERR_LIMIT_CHARS {
      assert once[..STDERR_LIMIT_CHARS] + TRUNCATION_NOTE == once;
    }
  }

  /** The result of test i when the submission's first run is the host's run number first. */
  function ResultOf(outcome: (nat, string) -> Option<SandboxResult>, first: nat, tests: seq<TestCase>, i: nat)
    : Option<SandboxResult>
    requires i < |tests|
  {
    outcome(first + i, tests[i].input)
  }

  predicate Passes(outcome: (nat, string) -> Option<SandboxResult>, first: nat, tests: seq<TestCase>, i: nat)
    requires i < |tests|
  {
    var r := ResultOf(outcome, first, tests, i);
    r.Some? && DetermineVerdict(r.value, tests[i].expected) == AC
  }

  predicate IsLongest(time: int, results: seq<SandboxResult>) {
    && (forall i :: 0 <= i < |results| ==> results[i].executionTimeMs <= time)
    && exists i :: 0 <= i < |results| && results[i].executionTimeMs == time
  }

  function Longest(results: seq<SandboxResult>): (time: int)
    requires results != []
    ensures IsLongest(time, results)
  {
    var last := results[|results| - 1].executionTimeMs;
    if |results| == 1 then last else
      var earlier := Longest(results[..|results| - 1]);
      if earlier < last then last else earlier
  }

  /**
   * Every test before the last one run has passed and none after it is run;
   * the answer is the last one's verdict, and is AC only when all tests passed.
   */
  method RunSubmission(request: SubmissionRequest, sandbox: Sandbox)
    returns (response: Option<SubmissionResponse>, results: seq<SandboxResult>)
    modifies sandbox
    ensures var tests, first := request.tests, |old(sandbox.inputs)|;
      var n := |sandbox.inputs| - first;
      && 0 <= n <= |tests|
      && sandbox.inputs == old(sandbox.inputs) + seq(n, i requires 0 <= i < n => tests[i].input)
      && (forall i :: 0 <= i < n - 1 ==> Passes(sandbox.outcome, first, tests, i))
      && (n < |tests| ==> n > 0 && !Passes(sandbox.outcome, first, tests, n - 1))
      && (response.None? <==> n > 0 && ResultOf(sandbox.outcome, first, tests, n - 1).None?)
      && (response.Some? ==>
            && |results| == n
            && (forall i :: 0 <= i < n ==> Some(results[i]) == ResultOf(sandbox.outcome, first, tests, i)))
    ensures response.Some? ==>
      var tests, n, r := request.tests, |results|, response.value;
      && n <= |tests|
      && r.id == request.id
      && r.memoryUsedMb == None
      && r.verdict == (if n == 0 then AC else DetermineVerdict(results[n - 1], tests[n - 1].expected))
      && (r.verdict == AC ==> n == |tests|)
      && (n == 0 ==> r.executionTimeMs == None && r.stderr == None)
      && (n > 0 ==> r.executionTimeMs.Some? && IsLongest(r.executionTimeMs.value, results))
      && (n > 0 ==> r.stderr == TrimStderr(results[n - 1].stderr))
    ensures response.Some? && response.value.verdict == AC
       <==> forall i :: 0 <= i < |request.tests|
              ==> Passes(sandbox.outcome, |old(sandbox.inputs)|, request.tests, i)
  {
    hide DetermineVerdict, IsLongest, Longest, TrimStderr;
    var tests := request.tests;
    ghost var first := |sandbox.inputs|;
    results := [];
    var verdict := AC;
    for i := 0 to |tests|
      invariant |results| == i && verdict == AC
      invariant i > 0 ==> verdict == DetermineVerdict(results[i - 1], tests[i - 1].expected)
      invariant sandbox.inputs == old(sandbox.inputs) + seq(i, j requires 0 <= j < i => tests[j].input)
      invariant forall j :: 0 <= j < i ==> Passes(sandbox.outcome, first, tests, j)
      invariant forall j :: 0 <= j < i ==> Some(results[j]) == ResultOf(sandbox.outcome, first, tests, j)
    {
      var r := sandbox.Run(tests[i].input);
      assert r == ResultOf(sandbox.outcome, first, tests, i);
      if r.None? {
        assert !Passes(sandbox.outcome, first, tests, i);
        return None, results;
      }
      results := results + [r.value];
      verdict := DetermineVerdict(r.value, tests[i].expected);
      if verdict != AC {
        assert !Passes(sandbox.outcome, first, tests, i);
        break;
      }
    }
    response := Some(SubmissionResponse(
      request.id,
      verdict,
      if results == [] then None else Some(Longest(results)),
      None,
      if results == [] then None else TrimStderr(results[|results| - 1].stderr)));
  }
}
