/** The pipeline step engine of `scanpipe/pipelines/__init__.py`: step tagging
    and group filtering, the fail-fast `execute` loop over a Run record, the
    built-in `download_missing_inputs` step, and the recoverable-error path
    (`save_errors` / `add_error`). */
module Pipelines {
  import opened Wrappers
  import opened Strings

  // ---------------------------------------------------------------------------
  // Exceptions and step bodies
  // ---------------------------------------------------------------------------

  /** A raised exception: one of a class `kind` whose text, `str(e)`, is
      `text`, or the `InputFileError` that `download_missing_inputs` raises
      with the list of errors it collected. */
  datatype Exception =
    | Error(kind: string, text: string)
    | InputFileError(errors: seq<InputError>)

  /** The name of the exception's class. */
  function Kind(e: Exception): string {
    match e
    case Error(kind, _) => kind
    case InputFileError(_) => "InputFileError"
  }

  /** What the body of a step does, as far as the engine can observe it. */
  datatype Action =
    | Return                                        // returns normally
    | Raise(error: Exception)                       // `raise error`
    | AddError(error: Exception)                    // `self.add_error(error)`
    | LogLine(message: string)                      // `self.log(message)`
    | SaveErrors(kinds: set<string>, body: Action)  // `with self.save_errors(*kinds): body`
    | Then(first: Action, next: Action)             // `first` then `next`

  /** The exception that escapes a step body, if any. */
  function Raised(a: Action): Option<Exception> {
    match a
    case Return => None
    case Raise(e) => Some(e)
    case AddError(_) => None
    case LogLine(_) => None
    case SaveErrors(kinds, body) =>
      var r := Raised(body);
      if r.Some? && Kind(r.value) in kinds then None else r
    case Then(first, next) =>
      if Raised(first).Some? then Raised(first) else Raised(next)
  }

  /** The exceptions a step body turns into project error records, in order. */
  function Recorded(a: Action): seq<Exception> {
    match a
    case Return => []
    case Raise(_) => []
    case AddError(e) => [e]
    case LogLine(_) => []
    case SaveErrors(kinds, body) =>
      var r := Raised(body);
      Recorded(body) + if r.Some? && Kind(r.value) in kinds then [r.value] else []
    case Then(first, next) =>
      Recorded(first) + if Raised(first).Some? then [] else Recorded(next)
  }

  /** The messages a step body passes to `self.log`, in order, up to the
      point where an exception escapes it. */
  function Logged(a: Action): seq<string> {
    match a
    case Return => []
    case Raise(_) => []
    case AddError(_) => []
    case LogLine(m) => [m]
    case SaveErrors(_, body) => Logged(body)
    case Then(first, next) =>
      Logged(first) + if Raised(first).Some? then [] else Logged(next)
  }

  /** `@profile` around a step body: the body runs, then the location of the
      profiling report is logged; `outputFile` is the resolved path of that
      report. */
  function Profile(body: Action, outputFile: string): Action {
    Then(body, LogLine("Profiling results at " + outputFile))
  }

  /** Profiling changes neither what a body raises nor what it records, and
      adds one log line after it exactly when the body returns normally. */
  lemma ProfileKeepsBody(body: Action, outputFile: string)
    ensures Raised(Profile(body, outputFile)) == Raised(body)
    ensures Recorded(Profile(body, outputFile)) == Recorded(body)
    ensures Logged(Profile(body, outputFile))
         == Logged(body) + if Raised(body).None? then ["Profiling results at " + outputFile] else []
  {
    assert Recorded(Profile(body, outputFile)) == Recorded(body) + [];
  }

  /** An exception of a listed kind is caught: the block returns normally and
      exactly one record, carrying that exception, is added. */
  lemma SaveErrorsCatches(kinds: set<string>, body: Action, e: Exception)
    requires Raised(body) == Some(e) && Kind(e) in kinds
    ensures Raised(SaveErrors(kinds, body)) == None
    ensures Recorded(SaveErrors(kinds, body)) == Recorded(body) + [e]
  {
  }

  /** An exception of any other kind passes through and adds no record. */
  lemma SaveErrorsPassesOthers(kinds: set<string>, body: Action)
    requires Raised(body).None? || Kind(Raised(body).value) !in kinds
    ensures Raised(SaveErrors(kinds, body)) == Raised(body)
    ensures Recorded(SaveErrors(kinds, body)) == Recorded(body)
  {
  }

  /** Two nested blocks behave as one block listing the kinds of both. */
  lemma SaveErrorsNest(outer: set<string>, inner: set<string>, body: Action)
    ensures Raised(SaveErrors(outer, SaveErrors(inner, body))) == Raised(SaveErrors(outer + inner, body))
    ensures Recorded(SaveErrors(outer, SaveErrors(inner, body))) == Recorded(SaveErrors(outer + inner, body))
  {
  }

  /** Whatever escapes a body was raised somewhere in it and caught by none of
      the blocks around it. */
  lemma {:induction false} RaisedIsUncaught(a: Action)
    requires Raised(a).Some?
    ensures Raised(a).value in Raises(a)
    ensures forall kinds :: kinds in Guards(a, Raised(a).value) ==> Kind(Raised(a).value) !in kinds
  {
    match a
    case Raise(_) =>
    case SaveErrors(kinds, body) =>
      RaisedIsUncaught(body);
    case Then(first, next) =>
      if Raised(first).Some? {
        RaisedIsUncaught(first);
      } else {
        RaisedIsUncaught(next);
      }
  }

  /** The exceptions a body's `raise` statements can raise. */
  function Raises(a: Action): set<Exception> {
    match a
    case Return => {}
    case Raise(e) => {e}
    case AddError(_) => {}
    case LogLine(_) => {}
    case SaveErrors(_, body) => Raises(body)
    case Then(first, next) => Raises(first) + Raises(next)
  }

  /** The kind lists of the `save_errors` blocks around the first `raise e`
      that is reached. */
  function Guards(a: Action, e: Exception): set<set<string>> {
    match a
    case Return => {}
    case Raise(_) => {}
    case AddError(_) => {}
    case LogLine(_) => {}
    case SaveErrors(kinds, body) => if Raised(body) == Some(e) then {kinds} + Guards(body, e) else {}
    case Then(first, next) => if Raised(first).Some? then Guards(first, e) else Guards(next, e)
  }

  // ---------------------------------------------------------------------------
  // Steps and groups
  // ---------------------------------------------------------------------------

  /** A step of a pipeline: its `__name__`, its doc string, the labels `group`
      attached to it (none is the same as no attribute) and its body. */
  datatype Step = Step(name: string, doc: string, groups: set<string>, body: Action)

  /** `@group(*labels)` applied to a step. */
  function Group(step: Step, labels: set<string>): Step {
    step.(groups := step.groups + labels)
  }

  /** Tagging an untagged step sets exactly the given labels, tagging a tagged
      step adds them to its labels, tagging twice with the same labels changes
      nothing, and nothing but the labels changes. */
  lemma GroupLabels(step: Step, labels: set<string>)
    ensures step.groups == {} ==> Group(step, labels).groups == labels
    ensures Group(step, labels).groups == step.groups + labels
    ensures Group(Group(step, labels), labels) == Group(step, labels)
    ensures Group(step, labels).(groups := step.groups) == step
  {
  }

  /** A step runs under the requested groups when it has no labels or shares one. */
  predicate Selected(step: Step, groups: set<string>) {
    step.groups == {} || step.groups * groups != {}
  }

  function Filter(steps: seq<Step>, groups: set<string>): (r: seq<Step>)
    decreases |steps|
  {
    if steps == [] then []
    else (if Selected(steps[0], groups) then [steps[0]] else []) + Filter(steps[1..], groups)
  }

  /** `get_steps(groups)`: `None` means no filter. */
  function GetSteps(steps: seq<Step>, groups: Option<set<string>>): (r: seq<Step>)
    ensures groups.None? ==> r == steps
  {
    match groups
    case None => steps
    case Some(g) => Filter(steps, g)
  }

  /** `r` is `s` with some elements left out and the rest in their order. */
  ghost predicate IsSubsequence<T>(r: seq<T>, s: seq<T>)
    decreases |s|
  {
    if r == [] then true
    else if s == [] then false
    else (r[0] == s[0] && IsSubsequence(r[1..], s[1..])) || IsSubsequence(r, s[1..])
  }

  /** Filtering only removes steps, keeping the order of the rest. */
  lemma {:induction false} FilterIsSubsequence(steps: seq<Step>, groups: set<string>)
    ensures IsSubsequence(Filter(steps, groups), steps)
    decreases |steps|
  {
    if steps != [] {
      FilterIsSubsequence(steps[1..], groups);
      var rest := Filter(steps[1..], groups);
      if Selected(steps[0], groups) {
        assert Filter(steps, groups) == [steps[0]] + rest;
        assert ([steps[0]] + rest)[1..] == rest;
      } else {
        assert Filter(steps, groups) == rest;
      }
    }
  }

  /** A step is kept, as often as it was declared, iff it is selected. */
  lemma {:induction false} FilterKeepsExactlySelected(steps: seq<Step>, groups: set<string>, s: Step)
    ensures multiset(Filter(steps, groups))[s] == if Selected(s, groups) then multiset(steps)[s] else 0
    decreases |steps|
  {
    if steps != [] {
      FilterKeepsExactlySelected(steps[1..], groups, s);
      assert steps == [steps[0]] + steps[1..];
      assert multiset(steps) == multiset([steps[0]]) + multiset(steps[1..]);
    }
  }

  /** `get_steps(G)` returns selected steps only, every selected step, and in
      the declared order; `get_steps(None)` returns the declared steps. */
  lemma GetStepsFilters(steps: seq<Step>, groups: Option<set<string>>)
    ensures groups.None? ==> GetSteps(steps, groups) == steps
    ensures groups.Some? ==> IsSubsequence(GetSteps(steps, groups), steps)
    ensures groups.Some? ==> forall s :: s in GetSteps(steps, groups) <==> s in steps && Selected(s, groups.value)
  {
    if groups.Some? {
      FilterIsSubsequence(steps, groups.value);
      forall s ensures s in GetSteps(steps, groups) <==> s in steps && Selected(s, groups.value) {
        FilterKeepsExactlySelected(steps, groups.value, s);
      }
    }
  }

  /** With `[A, B(x), C(y)]` and the groups `{x}`, the steps `[A, B]` run. */
  lemma GetStepsExample(a: Action, b: Action, c: Action)
    ensures GetSteps([Step("A", "", {}, a), Step("B", "", {"x"}, b), Step("C", "", {"y"}, c)], Some({"x"}))
         == [Step("A", "", {}, a), Step("B", "", {"x"}, b)]
  {
    var steps := [Step("A", "", {}, a), Step("B", "", {"x"}, b), Step("C", "", {"y"}, c)];
    var g: set<string> := {"x"};
    assert Selected(steps[0], g);
    assert Selected(steps[1], g) by { assert "x" in steps[1].groups * g; }
    assert !Selected(steps[2], g) by { assert "x" != "y"; assert steps[2].groups * g == {}; }
    assert Filter(steps[3..], g) == [];
    assert steps[2..][1..] == steps[3..];
    assert Filter(steps[2..], g) == [];
    assert steps[1..][1..] == steps[2..];
    assert Filter(steps[1..], g) == [steps[1]];
  }

  /** One entry of `get_graph()`. */
  datatype StepInfo = StepInfo(name: string, doc: string, groups: set<string>)

  /** `get_graph()`: every declared step, whatever groups a run selects. */
  function GetGraph(steps: seq<Step>): (r: seq<StepInfo>)
    ensures |r| == |GetSteps(steps, None)|
    ensures forall i :: 0 <= i < |r| ==>
      r[i].name == steps[i].name && r[i].doc == steps[i].doc && r[i].groups == steps[i].groups
  {
    var all := GetSteps(steps, None);
    seq(|all|, i requires 0 <= i < |all| => StepInfo(all[i].name, all[i].doc, all[i].groups))
  }

  /** Every label on some declared step. */
  ghost function AllGroups(steps: seq<Step>): set<string> {
    set i, g | 0 <= i < |steps| && g in steps[i].groups :: g
  }

  /** `get_available_groups()`: the labels of all declared steps, sorted,
      each once. */
  ghost function GetAvailableGroups(steps: seq<Step>): (r: seq<string>)
    ensures StrictlySorted(r)
    ensures forall g :: g in r <==> exists i :: 0 <= i < |steps| && g in steps[i].groups
  {
    SortedSet(AllGroups(GetSteps(steps, None)))
  }

  // ---------------------------------------------------------------------------
  // Input sources
  // ---------------------------------------------------------------------------

  /** An input source of the project. `text` is `str(input_source)`; whether
      the file is on disk and how `fetch()` ends are given, not computed:
      when it raises, `fetchErrorRepr` is `repr()` of the exception it raised. */
  datatype InputSource = InputSource(
    text: string,
    downloadUrl: string,
    isUploaded: bool,
    onDisk: bool,
    fetchOk: bool,
    fetchErrorRepr: string)

  /** An entry of the `errors` list that `download_missing_inputs` collects:
      a message, or the exception a fetch raised, known by its `repr`. */
  datatype InputError = Unavailable(message: string) | FetchFailed(repr: string)

  function UnavailableMessage(src: InputSource): string {
    "Uploaded file " + src.text + " not available."
  }

  function FetchingMessage(src: InputSource): string {
    "Fetching input from " + src.downloadUrl
  }

  function FetchFailedMessage(src: InputSource): string {
    src.downloadUrl + " could not be fetched."
  }

  /** The source cannot be made available: it is missing and either uploaded
      or its fetch fails. */
  predicate Fails(src: InputSource) {
    !src.onDisk && (src.isUploaded || !src.fetchOk)
  }

  /** The error one source contributes: none, or exactly one. */
  function SourceErrors(src: InputSource): seq<InputError> {
    if src.onDisk then []
    else if src.isUploaded then [Unavailable(UnavailableMessage(src))]
    else if src.fetchOk then []
    else [FetchFailed(src.fetchErrorRepr)]
  }

  /** The lines one source contributes to the log. */
  function SourceLog(src: InputSource): seq<string> {
    if src.onDisk then []
    else if src.isUploaded then [UnavailableMessage(src)]
    else [FetchingMessage(src)] + if src.fetchOk then [] else [FetchFailedMessage(src)]
  }

  function MissingInputErrors(sources: seq<InputSource>): seq<InputError>
    decreases |sources|
  {
    if sources == [] then []
    else MissingInputErrors(sources[..|sources| - 1]) + SourceErrors(sources[|sources| - 1])
  }

  function MissingInputLog(sources: seq<InputSource>): seq<string>
    decreases |sources|
  {
    if sources == [] then []
    else MissingInputLog(sources[..|sources| - 1]) + SourceLog(sources[|sources| - 1])
  }

  /** The failing sources, in order. */
  function Failing(sources: seq<InputSource>): (r: seq<InputSource>)
    ensures forall j :: 0 <= j < |r| ==> Fails(r[j])
    decreases |sources|
  {
    if sources == [] then []
    else Failing(sources[..|sources| - 1]) + if Fails(sources[|sources| - 1]) then [sources[|sources| - 1]] else []
  }

  /** Exactly one error per failing source, in the order of the sources. */
  lemma {:induction false} OneErrorPerFailingSource(sources: seq<InputSource>)
    ensures |MissingInputErrors(sources)| == |Failing(sources)|
    ensures forall j :: 0 <= j < |Failing(sources)| ==>
      MissingInputErrors(sources)[j] == SourceErrors(Failing(sources)[j])[0]
    decreases |sources|
  {
    if sources != [] {
      OneErrorPerFailingSource(sources[..|sources| - 1]);
    }
  }

  /** No source stops the scan: the errors and the log of a list of sources are
      those of its two halves, one after the other. */
  lemma {:induction false} MissingInputsCompose(a: seq<InputSource>, b: seq<InputSource>)
    ensures MissingInputErrors(a + b) == MissingInputErrors(a) + MissingInputErrors(b)
    ensures MissingInputLog(a + b) == MissingInputLog(a) + MissingInputLog(b)
    decreases |b|
  {
    if b == [] {
      assert a + b == a;
    } else {
      var b' := b[..|b| - 1];
      var last := b[|b| - 1];
      assert (a + b)[..|a + b| - 1] == a + b';
      assert (a + b)[|a + b| - 1] == last;
      MissingInputsCompose(a, b');
      AppendAssoc(MissingInputErrors(a), MissingInputErrors(b'), SourceErrors(last));
      AppendAssoc(MissingInputLog(a), MissingInputLog(b'), SourceLog(last));
    }
  }

  lemma MissingInputsSnoc(sources: seq<InputSource>, i: nat)
    requires i < |sources|
    ensures MissingInputErrors(sources[..i + 1]) == MissingInputErrors(sources[..i]) + SourceErrors(sources[i])
    ensures MissingInputLog(sources[..i + 1]) == MissingInputLog(sources[..i]) + SourceLog(sources[i])
  {
    assert sources[..i + 1][..i] == sources[..i];
  }

  /** A source that is on disk contributes neither error nor log line. */
  lemma {:induction false} PresentSourcesAreSkipped(sources: seq<InputSource>)
    requires forall i :: 0 <= i < |sources| ==> sources[i].onDisk
    ensures MissingInputErrors(sources) == [] && MissingInputLog(sources) == []
    decreases |sources|
  {
    if sources != [] {
      PresentSourcesAreSkipped(sources[..|sources| - 1]);
    }
  }

  /** `download_missing_inputs` fails iff some source fails. */
  lemma {:induction false} DownloadFailsIff(sources: seq<InputSource>)
    ensures MissingInputErrors(sources) != [] <==> exists i :: 0 <= i < |sources| && Fails(sources[i])
    decreases |sources|
  {
    if sources != [] {
      var init := sources[..|sources| - 1];
      DownloadFailsIff(init);
      if exists i :: 0 <= i < |sources| && Fails(sources[i]) {
        var i :| 0 <= i < |sources| && Fails(sources[i]);
        if i < |init| {
          assert Fails(init[i]);
        }
      }
      if exists i :: 0 <= i < |init| && Fails(init[i]) {
        var i :| 0 <= i < |init| && Fails(init[i]);
        assert Fails(sources[i]);
      }
    }
  }

  /** Python's `repr` of an entry of the collected `errors` list: the message
      in single quotes, or the given `repr` of the exception a fetch raised. */
  function InputErrorRepr(e: InputError): string {
    match e
    case Unavailable(m) => "'" + m + "'"
    case FetchFailed(repr) => repr
  }

  /** The `repr` of each error, in order. */
  function Reprs(errors: seq<InputError>): (r: seq<string>)
    ensures |r| == |errors|
    decreases |errors|
  {
    if errors == [] then [] else Reprs(errors[..|errors| - 1]) + [InputErrorRepr(errors[|errors| - 1])]
  }

  /** `str(e)`; that of an `InputFileError` is the printed list of its errors. */
  function Text(e: Exception): string {
    match e
    case Error(_, text) => text
    case InputFileError(errors) => "[" + Join(", ", Reprs(errors)) + "]"
  }

  function DownloadOutcome(sources: seq<InputSource>): Option<Exception> {
    var errors := MissingInputErrors(sources);
    if errors == [] then None else Some(InputFileError(errors))
  }

  // ---------------------------------------------------------------------------
  // The executed step list and what running it produces
  // ---------------------------------------------------------------------------

  /** An entry of the list `execute` walks through. */
  datatype Task = DownloadInputsStep | Declared(step: Step)

  function TaskName(t: Task): string {
    match t
    case DownloadInputsStep => "download_missing_inputs"
    case Declared(s) => s.name
  }

  function Declare(steps: seq<Step>): seq<Task> {
    seq(|steps|, i requires 0 <= i < |steps| => Declared(steps[i]))
  }

  /** The steps `execute` runs: the filtered steps, behind `download_missing_inputs`
      when the pipeline downloads its inputs. */
  function Plan(steps: seq<Step>, downloadInputs: bool, groups: Option<set<string>>): seq<Task> {
    (if downloadInputs then [DownloadInputsStep] else []) + Declare(GetSteps(steps, groups))
  }

  /** The tasks for `filtered`, behind `download_missing_inputs` when `download`
      holds: the download task first, then one declared task per step, in order. */
  lemma DeclaredBehind(download: bool, filtered: seq<Step>)
    ensures var plan := (if download then [DownloadInputsStep] else []) + Declare(filtered);
      var offset := if download then 1 else 0;
      && |plan| == offset + |filtered|
      && (download ==> plan[0] == DownloadInputsStep)
      && (forall i :: 0 <= i < |filtered| ==> plan[offset + i] == Declared(filtered[i]))
      && (forall i :: offset <= i < |plan| ==> plan[i] != DownloadInputsStep)
  {
    var declared := Declare(filtered);
    assert |declared| == |filtered|;
    if download {
      var plan := [DownloadInputsStep] + declared;
      forall i | 0 <= i < |filtered|
        ensures plan[1 + i] == Declared(filtered[i])
      {
        assert plan[1 + i] == declared[i];
      }
      forall i | 1 <= i < |plan|
        ensures plan[i] != DownloadInputsStep
      {
        assert plan[i] == declared[i - 1];
      }
    } else {
      var plan := [] + declared;
      assert plan == declared;
      forall i | 0 <= i < |plan|
        ensures plan[i] == Declared(filtered[i])
      {
      }
    }
  }

  /** `download_missing_inputs` runs first whatever groups are selected, and the
      group filter applies to the declared steps only. */
  lemma PlanShape(steps: seq<Step>, downloadInputs: bool, groups: Option<set<string>>)
    ensures var plan := Plan(steps, downloadInputs, groups);
      var filtered := GetSteps(steps, groups);
      var offset := if downloadInputs then 1 else 0;
      && |plan| == offset + |filtered|
      && (downloadInputs ==> plan[0] == DownloadInputsStep)
      && (forall i :: 0 <= i < |filtered| ==> plan[offset + i] == Declared(filtered[i]))
      && (forall i :: offset <= i < |plan| ==> plan[i] != DownloadInputsStep)
  {
    DeclaredBehind(downloadInputs, GetSteps(steps, groups));
  }

  function TaskRaised(t: Task, sources: seq<InputSource>): Option<Exception> {
    match t
    case DownloadInputsStep => DownloadOutcome(sources)
    case Declared(s) => Raised(s.body)
  }

  function TaskRecorded(t: Task): seq<Exception> {
    match t
    case DownloadInputsStep => []
    case Declared(s) => Recorded(s.body)
  }

  function TaskLog(t: Task, sources: seq<InputSource>): seq<string> {
    match t
    case DownloadInputsStep => MissingInputLog(sources)
    case Declared(s) => Logged(s.body)
  }

  /** The index of the first task from `j` on that raises, or the number of tasks. */
  function FirstFailureFrom(plan: seq<Task>, sources: seq<InputSource>, j: nat): (k: nat)
    requires j <= |plan|
    ensures j <= k <= |plan|
    decreases |plan| - j
  {
    if j == |plan| then j
    else if TaskRaised(plan[j], sources).Some? then j
    else FirstFailureFrom(plan, sources, j + 1)
  }

  /** The index of the first task that raises, or the number of tasks. */
  function FirstFailure(plan: seq<Task>, sources: seq<InputSource>): (k: nat)
    ensures k <= |plan|
  {
    FirstFailureFrom(plan, sources, 0)
  }

  /** No task from `j` up to the first failure raises, and the task there does. */
  lemma {:induction false} FirstFailureFromIsFirst(plan: seq<Task>, sources: seq<InputSource>, j: nat)
    requires j <= |plan|
    ensures var k := FirstFailureFrom(plan, sources, j);
      && (forall m :: j <= m < k ==> TaskRaised(plan[m], sources).None?)
      && (k < |plan| ==> TaskRaised(plan[k], sources).Some?)
    decreases |plan| - j
  {
    if j < |plan| && TaskRaised(plan[j], sources).None? {
      FirstFailureFromIsFirst(plan, sources, j + 1);
    }
  }

  /** The first failure is at `k` exactly when no task before `k` raises and
      task `k` raises (or `k` is the end). */
  lemma FirstFailureIff(plan: seq<Task>, sources: seq<InputSource>, k: nat)
    requires k <= |plan|
    ensures FirstFailure(plan, sources) == k
        <==> (forall m :: 0 <= m < k ==> TaskRaised(plan[m], sources).None?)
              && (k < |plan| ==> TaskRaised(plan[k], sources).Some?)
  {
    FirstFailureFromIsFirst(plan, sources, 0);
  }

  /** Walking the tasks in order: a task not past the first failure raises
      iff it is the first failure. */
  lemma FirstFailureStep(plan: seq<Task>, sources: seq<InputSource>, i: nat)
    requires i < |plan| && i <= FirstFailure(plan, sources)
    ensures TaskRaised(plan[i], sources).Some? <==> FirstFailure(plan, sources) == i
  {
    FirstFailureFromIsFirst(plan, sources, 0);
  }

  /** The records the first `n` tasks add. */
  function RecordedUpTo(plan: seq<Task>, n: nat): seq<Exception>
    requires n <= |plan|
  {
    if n == 0 then [] else RecordedUpTo(plan, n - 1) + TaskRecorded(plan[n - 1])
  }

  function PipelineStarting(name: string): string { "Pipeline [" + name + "] starting" }
  function StepStarting(t: Task): string { "Step [" + TaskName(t) + "] starting" }
  function StepCompleted(t: Task, time: string): string { "Step [" + TaskName(t) + "] completed in " + time }
  function PipelineCompleted(time: string): string { "Pipeline completed in " + time }
  const PipelineFailed: string := "Pipeline failed"

  /** `"i/N name"` */
  function Progress(i: nat, n: nat, name: string): string {
    NatToString(i) + "/" + NatToString(n) + " " + name
  }

  /** The log messages of one task run as the `index`-th (from 1): its start,
      its own output, then its completion or, when it raises, the failure. */
  function StepLog(t: Task, index: nat, sources: seq<InputSource>, stepTime: nat -> string): seq<string> {
    [StepStarting(t)] + TaskLog(t, sources)
    + [if TaskRaised(t, sources).Some? then PipelineFailed else StepCompleted(t, stepTime(index))]
  }

  /** The log messages of the first `n` tasks; `stepTime(i)` is the humanized
      run time of the i-th task (from 1). */
  function CompletedLog(plan: seq<Task>, n: nat, sources: seq<InputSource>, stepTime: nat -> string): seq<string>
    requires n <= |plan|
  {
    if n == 0 then []
    else CompletedLog(plan, n - 1, sources, stepTime) + StepLog(plan[n - 1], n, sources, stepTime)
  }

  /** The length alone of one task's messages, for counting lines over many
      tasks without the positions `StepLogShape` states. */
  lemma StepLogLength(t: Task, index: nat, sources: seq<InputSource>, stepTime: nat -> string)
    ensures |StepLog(t, index, sources, stepTime)| == 2 + |TaskLog(t, sources)|
  {
  }

  /** A task that completes logs its start, its own output and its completion
      time; one that raises logs its start, its own output and the failure. */
  lemma StepLogShape(t: Task, index: nat, sources: seq<InputSource>, stepTime: nat -> string)
    ensures var log := StepLog(t, index, sources, stepTime);
      && |log| == 2 + |TaskLog(t, sources)|
      && log[0] == StepStarting(t)
      && log[1..|log| - 1] == TaskLog(t, sources)
      && (TaskRaised(t, sources).None? <==> log[|log| - 1] == StepCompleted(t, stepTime(index)))
      && (TaskRaised(t, sources).Some? ==> log[|log| - 1] == PipelineFailed)
  {
    var log := StepLog(t, index, sources, stepTime);
    assert log[1..|log| - 1] == TaskLog(t, sources);
    assert "Pipeline failed" != StepCompleted(t, stepTime(index)) by {
      assert "Pipeline failed"[0] != StepCompleted(t, stepTime(index))[0];
    }
  }

  /** When task `k` raises, the last message logged is "Pipeline failed". */
  lemma FailedLogEnds(plan: seq<Task>, k: nat, sources: seq<InputSource>, stepTime: nat -> string)
    requires k < |plan| && TaskRaised(plan[k], sources).Some?
    ensures var log := CompletedLog(plan, k + 1, sources, stepTime);
      |log| > 0 && log[|log| - 1] == PipelineFailed
  {
    StepLogShape(plan[k], k + 1, sources, stepTime);
  }

  /** The sum of the lengths of the tasks' own log output. */
  function TasksLogLength(plan: seq<Task>, n: nat, sources: seq<InputSource>): nat
    requires n <= |plan|
  {
    if n == 0 then 0 else TasksLogLength(plan, n - 1, sources) + |TaskLog(plan[n - 1], sources)|
  }

  /** The engine writes two lines per task that completes. */
  lemma {:induction false} CompletedLogLength(plan: seq<Task>, n: nat, sources: seq<InputSource>, stepTime: nat -> string)
    requires n <= |plan|
    ensures |CompletedLog(plan, n, sources, stepTime)| == 2 * n + TasksLogLength(plan, n, sources)
  {
    if n > 0 {
      CompletedLogLength(plan, n - 1, sources, stepTime);
      CompletedLogSnocLength(plan, n, sources, stepTime);
    }
  }

  /** Task `n` adds two engine lines besides its own output. */
  lemma CompletedLogSnocLength(plan: seq<Task>, n: nat, sources: seq<InputSource>, stepTime: nat -> string)
    requires 0 < n <= |plan|
    ensures |CompletedLog(plan, n, sources, stepTime)| - TasksLogLength(plan, n, sources)
         == |CompletedLog(plan, n - 1, sources, stepTime)| - TasksLogLength(plan, n - 1, sources) + 2
  {
    StepLogLength(plan[n - 1], n, sources, stepTime);
  }

  /** A run of N tasks that all return normally writes 2N+2 lines of its own,
      besides what the tasks themselves log. */
  lemma SuccessLogLength(name: string, plan: seq<Task>, sources: seq<InputSource>,
                         stepTime: nat -> string, pipelineTime: string)
    ensures |[PipelineStarting(name)] + CompletedLog(plan, |plan|, sources, stepTime) + [PipelineCompleted(pipelineTime)]|
         == 2 * |plan| + 2 + TasksLogLength(plan, |plan|, sources)
  {
    CompletedLogLength(plan, |plan|, sources, stepTime);
  }

  /** When no declared step calls `self.log` (no step is profiled, say) and
      every input is on disk, the tasks add nothing of their own to the log, so
      a successful run logs exactly 2N+2 lines. */
  lemma {:induction false} QuietTasksLogNothing(plan: seq<Task>, n: nat, sources: seq<InputSource>)
    requires n <= |plan|
    requires forall i :: 0 <= i < |plan| && plan[i].Declared? ==> Logged(plan[i].step.body) == []
    requires forall i :: 0 <= i < |sources| ==> sources[i].onDisk
    ensures TasksLogLength(plan, n, sources) == 0
  {
    if n > 0 {
      QuietTasksLogNothing(plan, n - 1, sources);
      PresentSourcesAreSkipped(sources);
    }
  }

  /** `f"{e}\n\nTraceback:\n{tb}"` */
  function FailureMessage(e: Exception, tb: string): string {
    Text(e) + "\n\nTraceback:\n" + tb
  }

  // ---------------------------------------------------------------------------
  // Log stamping
  // ---------------------------------------------------------------------------

  /** A log line: the timestamp of the `n`-th line of the run's log, a space,
      then the message. */
  function Stamp(clock: nat -> string, n: nat, message: string): string {
    clock(n) + " " + message
  }

  /** The lines `messages` become when logged one after the other from
      position `start` of the log on. */
  function StampAll(clock: nat -> string, start: nat, messages: seq<string>): (lines: seq<string>)
    ensures |lines| == |messages|
    decreases |messages|
  {
    if messages == [] then []
    else
      var n := |messages| - 1;
      StampAll(clock, start, messages[..n]) + [Stamp(clock, start + n, messages[n])]
  }

  /** Line by line: the `i`-th line is the `i`-th message behind the
      timestamp of position `start + i`. */
  lemma {:induction false} StampAllAt(clock: nat -> string, start: nat, messages: seq<string>, i: nat)
    requires i < |messages|
    ensures StampAll(clock, start, messages)[i] == Stamp(clock, start + i, messages[i])
    decreases |messages|
  {
    var n := |messages| - 1;
    if i < n {
      StampAllAt(clock, start, messages[..n], i);
    }
  }

  /** Logging one more message adds exactly its stamped line. */
  lemma StampAllSnoc(clock: nat -> string, start: nat, messages: seq<string>, message: string)
    ensures StampAll(clock, start, messages + [message])
         == StampAll(clock, start, messages) + [Stamp(clock, start + |messages|, message)]
  {
    assert (messages + [message])[..|messages|] == messages;
  }

  /** The message of a log line follows its timestamp and one space. */
  lemma StampMessage(clock: nat -> string, n: nat, message: string)
    ensures clock(n) + " " <= Stamp(clock, n, message)
    ensures Stamp(clock, n, message)[|clock(n)| + 1..] == message
  {
    var line := Stamp(clock, n, message);
    assert line[..|clock(n)| + 1] == clock(n) + " ";
  }

  // ---------------------------------------------------------------------------
  // The persistent records and the engine
  // ---------------------------------------------------------------------------

  /** A `ProjectMessage` of severity ERROR. */
  datatype ErrorRecord = ErrorRecord(model: string, error: Exception)

  /** The records made for `errors`, in order. */
  function Records(model: string, errors: seq<Exception>): (r: seq<ErrorRecord>)
    ensures |r| == |errors|
  {
    seq(|errors|, i requires 0 <= i < |errors| => ErrorRecord(model, errors[i]))
  }

  /** The record at position `i` is the one made for the `i`-th error. */
  lemma RecordsAt(model: string, errors: seq<Exception>, i: nat)
    requires i < |errors|
    ensures Records(model, errors)[i] == ErrorRecord(model, errors[i])
  {
  }

  lemma RecordsAppend(model: string, a: seq<Exception>, b: seq<Exception>)
    ensures Records(model, a + b) == Records(model, a) + Records(model, b)
  {
    var left, right := Records(model, a + b), Records(model, a) + Records(model, b);
    forall i | 0 <= i < |a + b| ensures left[i] == right[i] {
      RecordsAt(model, a + b, i);
      if i < |a| { RecordsAt(model, a, i); } else { RecordsAt(model, b, i - |a|); }
    }
  }

  /** One more task extends the log of the tasks completed so far by its step log. */
  lemma CompletedLogStep(before: seq<string>, plan: seq<Task>, i: nat, sources: seq<InputSource>,
                         stepTime: nat -> string)
    requires i < |plan|
    ensures (before + CompletedLog(plan, i, sources, stepTime)) + StepLog(plan[i], i + 1, sources, stepTime)
         == before + CompletedLog(plan, i + 1, sources, stepTime)
  {
    AppendAssoc(before, CompletedLog(plan, i, sources, stepTime), StepLog(plan[i], i + 1, sources, stepTime));
  }

  /** One more task extends the tasks invoked so far by itself. */
  lemma ExecutedStep(before: seq<Task>, plan: seq<Task>, i: nat)
    requires i < |plan|
    ensures (before + plan[..i]) + [plan[i]] == before + plan[..i + 1]
  {
    assert plan[..i + 1] == plan[..i] + [plan[i]];
    AppendAssoc(before, plan[..i], [plan[i]]);
  }

  /** One more task extends the records made so far by its own. */
  lemma RecordsStep(before: seq<ErrorRecord>, model: string, plan: seq<Task>, i: nat)
    requires i < |plan|
    ensures (before + Records(model, RecordedUpTo(plan, i))) + Records(model, TaskRecorded(plan[i]))
         == before + Records(model, RecordedUpTo(plan, i + 1))
  {
    RecordsAppend(model, RecordedUpTo(plan, i), TaskRecorded(plan[i]));
    AppendAssoc(before, Records(model, RecordedUpTo(plan, i)), Records(model, TaskRecorded(plan[i])));
  }

  class Project {
    const inputSources: seq<InputSource>
    var messages: seq<ErrorRecord>

    constructor (inputSources: seq<InputSource>)
      ensures this.inputSources == inputSources && messages == []
    {
      this.inputSources := inputSources;
      messages := [];
    }

    /** `project.add_error(model=..., exception=...)` */
    method AddError(model: string, error: Exception)
      modifies this
      ensures messages == old(messages) + [ErrorRecord(model, error)]
    {
      messages := messages + [ErrorRecord(model, error)];
    }
  }

  class Run {
    const pipelineName: string
    const project: Project
    const selectedGroups: Option<set<string>>
    var log: seq<string>
    var currentStep: string

    constructor (pipelineName: string, project: Project, selectedGroups: Option<set<string>>)
      ensures this.pipelineName == pipelineName && this.project == project
      ensures this.selectedGroups == selectedGroups
      ensures log == [] && currentStep == ""
    {
      this.pipelineName := pipelineName;
      this.project := project;
      this.selectedGroups := selectedGroups;
      log := [];
      currentStep := "";
    }

    /** `run.append_to_log(line)` */
    method AppendToLog(line: string)
      modifies this
      ensures log == old(log) + [line] && currentStep == old(currentStep)
    {
      log := log + [line];
    }

    /** `run.set_current_step(step)` */
    method SetCurrentStep(step: string)
      modifies this
      ensures currentStep == step && log == old(log)
    {
      currentStep := step;
    }
  }

  /** A pipeline bound to a run. The clock, the step timer and the traceback
      formatter are given to it: `clock(n)` is the timestamp of the run's
      `n`-th log line, `stepTime(i)` the humanized run time of the i-th step,
      `pipelineTime` that of the whole pipeline. */
  class Pipeline {
    const run: Run
    const project: Project
    const pipelineName: string
    const steps: seq<Step>
    const downloadInputs: bool
    const clock: nat -> string
    const stepTime: nat -> string
    const pipelineTime: string
    const traceback: Exception -> string
    /** The run's log when the pipeline was bound to it. */
    ghost const logPrefix: seq<string>
    /** The messages this pipeline has logged, in order, without their stamps. */
    ghost var logged: seq<string>
    /** The tasks invoked so far, in order. */
    ghost var executed: seq<Task>

    /** The run's log is what it held before, then one stamped line per
        logged message. */
    ghost predicate LogStamped()
      reads this`logged, run`log
    {
      run.log == logPrefix + StampAll(clock, |logPrefix|, logged)
    }

    constructor (run: Run, steps: seq<Step>, downloadInputs: bool, clock: nat -> string,
                 stepTime: nat -> string, pipelineTime: string, traceback: Exception -> string)
      ensures this.run == run && project == run.project && pipelineName == run.pipelineName
      ensures this.steps == steps && this.downloadInputs == downloadInputs
      ensures this.clock == clock && this.stepTime == stepTime
      ensures this.pipelineTime == pipelineTime && this.traceback == traceback
      ensures logPrefix == run.log && logged == [] && executed == []
      ensures LogStamped()
    {
      this.run := run;
      project := run.project;
      pipelineName := run.pipelineName;
      this.steps := steps;
      this.downloadInputs := downloadInputs;
      this.clock := clock;
      this.stepTime := stepTime;
      this.pipelineTime := pipelineTime;
      this.traceback := traceback;
      logPrefix := run.log;
      logged := [];
      executed := [];
    }

    /** `self.log(message)`: the log only ever grows, by one stamped line. */
    method Log(message: string)
      requires LogStamped()
      modifies this, run
      ensures LogStamped() && logged == old(logged) + [message]
      ensures run.log == old(run.log) + [Stamp(clock, |old(run.log)|, message)]
      ensures run.currentStep == old(run.currentStep) && executed == old(executed)
    {
      var line := Stamp(clock, |run.log|, message);
      StampAllSnoc(clock, |logPrefix|, logged, message);
      AppendAssoc(logPrefix, StampAll(clock, |logPrefix|, logged), [line]);
      run.AppendToLog(line);
      logged := logged + [message];
    }

    /** `self.add_error(exception)` */
    method AddError(error: Exception)
      modifies project
      ensures project.messages == old(project.messages) + [ErrorRecord(pipelineName, error)]
    {
      project.AddError(pipelineName, error);
    }

    /** Runs a step body, with `save_errors` blocks catching their listed kinds. */
    method Perform(a: Action) returns (raised: Option<Exception>)
      requires LogStamped()
      modifies this, run, project
      ensures raised == Raised(a)
      ensures project.messages == old(project.messages) + Records(pipelineName, Recorded(a))
      ensures LogStamped() && logged == old(logged) + Logged(a)
      ensures run.currentStep == old(run.currentStep) && executed == old(executed)
      decreases a
    {
      ghost var before := project.messages;
      ghost var logged0 := logged;
      match a
      case Return =>
        raised := None;
      case Raise(e) =>
        raised := Some(e);
      case AddError(e) =>
        AddError(e);
        raised := None;
        assert Records(pipelineName, [e]) == [ErrorRecord(pipelineName, e)];
      case LogLine(m) =>
        Log(m);
        raised := None;
      case SaveErrors(kinds, body) =>
        raised := Perform(body);
        if raised.Some? && Kind(raised.value) in kinds {
          var e := raised.value;
          AddError(e);
          raised := None;
          RecordsAppend(pipelineName, Recorded(body), [e]);
          assert Records(pipelineName, [e]) == [ErrorRecord(pipelineName, e)];
          AppendAssoc(before, Records(pipelineName, Recorded(body)), [ErrorRecord(pipelineName, e)]);
        } else {
          assert Recorded(a) == Recorded(body) + [];
        }
      case Then(first, next) =>
        raised := Perform(first);
        if raised.None? {
          raised := Perform(next);
          RecordsAppend(pipelineName, Recorded(first), Recorded(next));
          AppendAssoc(before, Records(pipelineName, Recorded(first)), Records(pipelineName, Recorded(next)));
          AppendAssoc(logged0, Logged(first), Logged(next));
        } else {
          assert Recorded(a) == Recorded(first) + [];
          assert Logged(a) == Logged(first) + [];
        }
    }

    /** The body of `download_missing_inputs`' loop for one source: skip it
        when on disk, report it when uploaded, fetch it otherwise. */
    method CheckSource(src: InputSource) returns (errors: seq<InputError>)
      requires LogStamped()
      modifies this, run
      ensures LogStamped() && logged == old(logged) + SourceLog(src)
      ensures run.currentStep == old(run.currentStep) && executed == old(executed)
      ensures errors == SourceErrors(src)
    {
      errors := [];
      if src.onDisk {
        return;
      }
      if src.isUploaded {
        var msg := UnavailableMessage(src);
        Log(msg);
        errors := [Unavailable(msg)];
        return;
      }
      Log(FetchingMessage(src));
      if !src.fetchOk {
        Log(FetchFailedMessage(src));
        errors := [FetchFailed(src.fetchErrorRepr)];
      }
    }

    /** `download_missing_inputs`: checks every source, collecting errors, and
        raises `InputFileError` at the end iff any was collected. */
    method DownloadMissingInputs() returns (raised: Option<Exception>)
      requires LogStamped()
      modifies this, run
      ensures LogStamped() && logged == old(logged) + MissingInputLog(project.inputSources)
      ensures run.currentStep == old(run.currentStep) && executed == old(executed)
      ensures raised == DownloadOutcome(project.inputSources)
    {
      var sources := project.inputSources;
      ghost var logged0 := logged;
      var errors: seq<InputError> := [];
      var i := 0;
      while i < |sources|
        invariant 0 <= i <= |sources|
        invariant errors == MissingInputErrors(sources[..i])
        invariant LogStamped() && logged == logged0 + MissingInputLog(sources[..i])
        invariant run.currentStep == old(run.currentStep) && executed == old(executed)
      {
        var more := CheckSource(sources[i]);
        errors := errors + more;
        MissingInputsSnoc(sources, i);
        AppendAssoc(logged0, MissingInputLog(sources[..i]), SourceLog(sources[i]));
        i := i + 1;
      }
      assert sources[..i] == sources;
      if errors != [] {
        raised := Some(InputFileError(errors));
      } else {
        raised := None;
      }
    }

    method RunTask(t: Task) returns (raised: Option<Exception>)
      requires LogStamped()
      modifies this, run, project
      ensures raised == TaskRaised(t, project.inputSources)
      ensures LogStamped() && logged == old(logged) + TaskLog(t, project.inputSources)
      ensures run.currentStep == old(run.currentStep) && executed == old(executed)
      ensures project.messages == old(project.messages) + Records(pipelineName, TaskRecorded(t))
    {
      match t
      case DownloadInputsStep =>
        raised := DownloadMissingInputs();
      case Declared(s) =>
        raised := Perform(s.body);
    }

    ghost function PlanOf(): seq<Task> {
      Plan(steps, downloadInputs, run.selectedGroups)
    }

    /** One turn of `execute`'s loop: the task becomes the current step, runs,
        and its completion time or the failure is logged. */
    method RunStep(t: Task, index: nat, count: nat) returns (raised: Option<Exception>)
      requires LogStamped()
      modifies this, run, project
      ensures raised == TaskRaised(t, project.inputSources)
      ensures run.currentStep == Progress(index, count, TaskName(t))
      ensures LogStamped() && logged == old(logged) + StepLog(t, index, project.inputSources, stepTime)
      ensures executed == old(executed) + [t]
      ensures project.messages == old(project.messages) + Records(pipelineName, TaskRecorded(t))
    {
      ghost var before := logged;
      run.SetCurrentStep(Progress(index, count, TaskName(t)));
      Log(StepStarting(t));
      executed := executed + [t];
      raised := RunTask(t);
      var last := if raised.Some? then PipelineFailed else StepCompleted(t, stepTime(index));
      Log(last);
      calc {
        logged;
        ((before + [StepStarting(t)]) + TaskLog(t, project.inputSources)) + [last];
        { AppendAssoc(before, [StepStarting(t)], TaskLog(t, project.inputSources)); }
        (before + ([StepStarting(t)] + TaskLog(t, project.inputSources))) + [last];
        { AppendAssoc(before, [StepStarting(t)] + TaskLog(t, project.inputSources), [last]); }
        before + StepLog(t, index, project.inputSources, stepTime);
      }
    }

    /** After the first `n` tasks of `plan`, starting from `logged0`, `executed0`
        and `records0`: their log messages, the tasks themselves and the
        records they made have been appended. */
    ghost predicate Reached(plan: seq<Task>, n: nat, logged0: seq<string>, executed0: seq<Task>,
                            records0: seq<ErrorRecord>)
      requires n <= |plan|
      reads this`logged, this`executed, project`messages
    {
      && logged == logged0 + CompletedLog(plan, n, project.inputSources, stepTime)
      && executed == executed0 + plan[..n]
      && project.messages == records0 + Records(pipelineName, RecordedUpTo(plan, n))
    }

    /** One turn of `execute()`'s loop: runs task `i`. */
    method Advance(plan: seq<Task>, i: nat, ghost logged0: seq<string>, ghost executed0: seq<Task>,
                   ghost records0: seq<ErrorRecord>) returns (raised: Option<Exception>)
      requires i < |plan| && i <= FirstFailure(plan, project.inputSources)
      requires LogStamped() && Reached(plan, i, logged0, executed0, records0)
      modifies this, run, project
      ensures raised == TaskRaised(plan[i], project.inputSources)
      ensures raised.Some? <==> FirstFailure(plan, project.inputSources) == i
      ensures run.currentStep == Progress(i + 1, |plan|, TaskName(plan[i]))
      ensures LogStamped() && Reached(plan, i + 1, logged0, executed0, records0)
    {
      raised := RunStep(plan[i], i + 1, |plan|);
      CompletedLogStep(logged0, plan, i, project.inputSources, stepTime);
      ExecutedStep(executed0, plan, i);
      RecordsStep(records0, pipelineName, plan, i);
      FirstFailureStep(plan, project.inputSources, i);
    }

    /** `execute()`'s loop over the planned tasks: each runs in turn, and the
        first one that raises ends the loop. `k` is the index it stopped at,
        or the number of tasks when none raised. */
    method RunPlan(plan: seq<Task>) returns (k: nat, raised: Option<Exception>)
      requires LogStamped()
      modifies this, run, project
      ensures LogStamped()
      ensures k == FirstFailure(plan, project.inputSources)
      ensures raised.Some? <==> k < |plan|
      ensures k < |plan| ==>
        && raised == TaskRaised(plan[k], project.inputSources)
        && run.currentStep == Progress(k + 1, |plan|, TaskName(plan[k]))
        && Reached(plan, k + 1, old(logged), old(executed), old(project.messages))
      ensures k == |plan| ==> Reached(plan, |plan|, old(logged), old(executed), old(project.messages))
    {
      ghost var logged0, executed0, records0 := logged, executed, project.messages;
      assert plan[..0] == [];
      var i := 0;
      while i < |plan|
        invariant i <= |plan| && i <= FirstFailure(plan, project.inputSources)
        invariant LogStamped() && Reached(plan, i, logged0, executed0, records0)
      {
        raised := Advance(plan, i, logged0, executed0, records0);
        if raised.Some? {
          return i, raised;
        }
        i := i + 1;
      }
      return i, None;
    }

    /** `execute()`: runs the planned steps in order and stops at the first
        one that raises. */
    method Execute() returns (code: int, message: string)
      requires LogStamped()
      modifies this, run, project
      ensures LogStamped()
      ensures var plan := PlanOf();
        var sources := project.inputSources;
        var k := FirstFailure(plan, sources);
        && (k == |plan| ==>
              && code == 0 && message == ""
              && run.currentStep == ""
              && logged == old(logged) + [PipelineStarting(pipelineName)]
                           + CompletedLog(plan, |plan|, sources, stepTime) + [PipelineCompleted(pipelineTime)]
              && executed == old(executed) + plan
              && project.messages == old(project.messages) + Records(pipelineName, RecordedUpTo(plan, |plan|)))
        && (k < |plan| ==>
              && TaskRaised(plan[k], sources).Some?
              && var e := TaskRaised(plan[k], sources).value;
              && code == 1 && message == FailureMessage(e, traceback(e))
              && run.currentStep == Progress(k + 1, |plan|, TaskName(plan[k]))
              && logged == old(logged) + [PipelineStarting(pipelineName)] + CompletedLog(plan, k + 1, sources, stepTime)
              && executed == old(executed) + plan[..k + 1]
              && project.messages == old(project.messages) + Records(pipelineName, RecordedUpTo(plan, k + 1)))
    {
      Log(PipelineStarting(pipelineName));
      var plan := Plan(steps, downloadInputs, run.selectedGroups);
      var k, raised := RunPlan(plan);
      if raised.Some? {
        var tb := traceback(raised.value);
        code, message := 1, FailureMessage(raised.value, tb);
      } else {
        run.SetCurrentStep("");
        Log(PipelineCompleted(pipelineTime));
        code, message := 0, "";
      }
    }
  }

  /** `ValueError("bad")` */
  const BadValue: Exception := Error("ValueError", "bad")

  /** Three steps, the second of which raises `BadValue`. */
  function ThreeSteps(a: Action, c: Action): seq<Step> {
    [Step("A", "", {}, a), Step("B", "", {}, Raise(BadValue)), Step("C", "", {}, c)]
  }

  lemma ThreeStepsPlan(a: Action, c: Action)
    ensures var plan := Plan(ThreeSteps(a, c), false, None);
      && |plan| == 3
      && TaskRaised(plan[0], []) == Raised(a) && TaskRecorded(plan[0]) == Recorded(a)
      && TaskRaised(plan[1], []) == Some(BadValue) && TaskRecorded(plan[1]) == []
  {
    var steps := ThreeSteps(a, c);
    var plan := Plan(steps, false, None);
    assert plan == Declare(steps);
    assert plan[0] == Declared(steps[0]) && plan[1] == Declared(steps[1]);
  }

  /** The failure message starts with the exception's text and the traceback header. */
  lemma FailureMessageHeader(e: Exception, tb: string)
    ensures Text(e) + "\n\nTraceback:\n" <= FailureMessage(e, tb)
  {
    var header := Text(e) + "\n\nTraceback:\n";
    assert FailureMessage(e, tb)[..|header|] == header;
  }

  /** With steps `[A, B, C]` where B raises `ValueError("bad")`, execution stops
      at B: the message starts with B's text, "bad", and the traceback header, and only the
      records of A and B are made. */
  lemma ExecuteStopsAtFailingStep(a: Action, c: Action, tb: string)
    requires Raised(a).None?
    ensures var plan := Plan(ThreeSteps(a, c), false, None);
      && FirstFailure(plan, []) == 1
      && TaskRaised(plan[1], []) == Some(BadValue)
      && Text(BadValue) + "\n\nTraceback:\n" <= FailureMessage(BadValue, tb)
      && RecordedUpTo(plan, 2) == Recorded(a)
  {
    ThreeStepsPlan(a, c);
    ThreeStepsStopAtB(a, c);
    ThreeStepsRecordA(a, c);
    FailureMessageHeader(BadValue, tb);
  }

  lemma ThreeStepsStopAtB(a: Action, c: Action)
    requires Raised(a).None?
    ensures FirstFailure(Plan(ThreeSteps(a, c), false, None), []) == 1
  {
    ThreeStepsPlan(a, c);
    FirstFailureIff(Plan(ThreeSteps(a, c), false, None), [], 1);
  }

  lemma ThreeStepsRecordA(a: Action, c: Action)
    ensures RecordedUpTo(Plan(ThreeSteps(a, c), false, None), 2) == Recorded(a)
  {
    var plan := Plan(ThreeSteps(a, c), false, None);
    ThreeStepsPlan(a, c);
    assert RecordedUpTo(plan, 1) == [] + Recorded(a);
    assert RecordedUpTo(plan, 2) == RecordedUpTo(plan, 1) + [];
  }

  /** A step whose only failure is caught by `save_errors` lets execution
      finish and adds exactly one record. */
  lemma SavedErrorDoesNotStopExecution(kinds: set<string>, e: Exception)
    requires Kind(e) in kinds
    ensures var plan := Plan([Step("s", "", {}, SaveErrors(kinds, Raise(e)))], false, None);
      && FirstFailure(plan, []) == |plan|
      && RecordedUpTo(plan, |plan|) == [e]
  {
    var step := Step("s", "", {}, SaveErrors(kinds, Raise(e)));
    var plan := Plan([step], false, None);
    assert plan == Declare([step]) && plan[0] == Declared(step);
    assert Raised(Raise(e)) == Some(e);
    assert Raised(step.body) == None && Recorded(step.body) == [e];
    FirstFailureIff(plan, [], 1);
    assert RecordedUpTo(plan, 1) == [] + [e];
  }
}
