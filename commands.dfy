/** The helpers of the `scanpipe` management commands: reading `--input-file`
    and `--pipeline` arguments, checking pipeline names against the registry,
    and the status report lines of `status`. */
module Commands {
  import opened Wrappers
  import opened Strings
  import opened Dicts

  // ---------------------------------------------------------------------------
  // Building a dict from the arguments, one assignment per argument
  // ---------------------------------------------------------------------------

  /** `f` applied to each element, in order; with `f` giving the `(key, value)`
      pair of an argument, the pairs assigned in argument order. */
  function MapSeq<X, Y>(xs: seq<X>, f: X -> Y): (ys: seq<Y>)
    ensures |ys| == |xs|
  {
    seq(|xs|, i requires 0 <= i < |xs| => f(xs[i]))
  }

  lemma MapSeqAt<X, Y>(xs: seq<X>, f: X -> Y, i: nat)
    requires i < |xs|
    ensures MapSeq(xs, f)[i] == f(xs[i])
  {
  }

  lemma MapSeqSnoc<X, Y>(xs: seq<X>, f: X -> Y, n: nat)
    requires n < |xs|
    ensures MapSeq(xs[..n + 1], f) == MapSeq(xs[..n], f) + [f(xs[n])]
  {
    var left, right := MapSeq(xs[..n + 1], f), MapSeq(xs[..n], f) + [f(xs[n])];
    forall i | 0 <= i < n + 1 ensures left[i] == right[i] {
      MapSeqAt(xs[..n + 1], f, i);
      if i < n { MapSeqAt(xs[..n], f, i); }
    }
  }

  /** The keys of the dict are exactly the keys the arguments produce. */
  lemma DictKeys<X, V>(xs: seq<X>, f: X -> Entry<V>, k: string)
    ensures k in Keys(FromPairs(MapSeq(xs, f))) <==> exists i :: 0 <= i < |xs| && f(xs[i]).key == k
  {
    FromPairsKeys(MapSeq(xs, f), k);
    if Carries(MapSeq(xs, f), k) {
      var i :| 0 <= i < |xs| && MapSeq(xs, f)[i].key == k;
      MapSeqAt(xs, f, i);
    }
    if exists i :: 0 <= i < |xs| && f(xs[i]).key == k {
      var i :| 0 <= i < |xs| && f(xs[i]).key == k;
      MapSeqAt(xs, f, i);
    }
  }

  /** A key keeps the value of the last argument that produces it. */
  lemma DictLastWins<X, V>(xs: seq<X>, f: X -> Entry<V>, i: nat)
    requires i < |xs|
    requires forall j :: i < j < |xs| ==> f(xs[j]).key != f(xs[i]).key
    ensures Get(FromPairs(MapSeq(xs, f)), f(xs[i]).key) == Some(f(xs[i]).value)
  {
    var pairs := MapSeq(xs, f);
    forall j | i < j < |pairs| ensures pairs[j].key != pairs[i].key {
      MapSeqAt(xs, f, i);
      MapSeqAt(xs, f, j);
    }
    FromPairsLastWins(pairs, i);
    MapSeqAt(xs, f, i);
  }

  // ---------------------------------------------------------------------------
  // `extract_tag_from_input_files`
  // ---------------------------------------------------------------------------

  /** `file.split(":", maxsplit=1)` when `file` holds a colon, `(file, "")`
      otherwise. */
  function SplitTag(file: string): (e: Entry<string>)
    ensures ':' !in e.key
    ensures ':' in file ==> e.key + ":" + e.value == file
    ensures ':' !in file ==> e == Entry(file, "")
    decreases |file|
  {
    if file == [] then Entry("", "")
    else if file[0] == ':' then Entry("", file[1..])
    else
      var e := SplitTag(file[1..]);
      assert file == [file[0]] + file[1..];
      assert ':' in file ==> ':' in file[1..];
      Entry([file[0]] + e.key, e.value)
  }

  /** Splitting undoes `key + ":" + tag` for any colon-free key: the split
      is at the first colon, and the tag keeps any later ones. */
  lemma {:induction false} SplitTagOf(key: string, tag: string)
    requires ':' !in key
    ensures SplitTag(key + ":" + tag) == Entry(key, tag)
    decreases |key|
  {
    var file := key + ":" + tag;
    if key == [] {
      assert file[0] == ':' && file[1..] == tag;
    } else {
      assert file[0] == key[0] && file[1..] == key[1..] + ":" + tag;
      SplitTagOf(key[1..], tag);
      assert [key[0]] + key[1..] == key;
    }
  }

  /** `extract_tag_from_input_files(input_files)` */
  method ExtractTagFromInputFiles(inputFiles: seq<string>) returns (data: Dict<string>)
    ensures data == FromPairs(MapSeq(inputFiles, SplitTag))
  {
    data := [];
    for i := 0 to |inputFiles|
      invariant data == FromPairs(MapSeq(inputFiles[..i], SplitTag))
    {
      var e := SplitTag(inputFiles[i]);
      MapSeqSnoc(inputFiles, SplitTag, i);
      FromPairsSnoc(MapSeq(inputFiles[..i], SplitTag), e);
      data := Put(data, e.key, e.value);
    }
    assert inputFiles[..|inputFiles|] == inputFiles;
  }

  // ---------------------------------------------------------------------------
  // `extract_group_from_pipelines` and `validate_pipelines`
  // ---------------------------------------------------------------------------

  /** `extract_group_from_pipelines(pipelines)`: `extract` is the app's
      `extract_group_from_pipeline`, which splits `"name:group1,group2"`. */
  method ExtractGroupFromPipelines<G>(pipelines: seq<string>, extract: string -> Entry<G>)
    returns (data: Dict<G>)
    ensures data == FromPairs(MapSeq(pipelines, extract))
  {
    data := [];
    for i := 0 to |pipelines|
      invariant data == FromPairs(MapSeq(pipelines[..i], extract))
    {
      var e := extract(pipelines[i]);
      MapSeqSnoc(pipelines, extract, i);
      FromPairsSnoc(MapSeq(pipelines[..i], extract), e);
      data := Put(data, e.key, e.value);
    }
    assert pipelines[..|pipelines|] == pipelines;
  }

  /** The entry under the pipeline's current name, with its groups. */
  function RenameEntry<G>(newName: string -> string): Entry<G> -> Entry<G> {
    (e: Entry<G>) => Entry(newName(e.key), e.value)
  }

  /** `{get_new_pipeline_name(name): groups for name, groups in data.items()}` */
  function Renamed<G>(data: Dict<G>, newName: string -> string): Dict<G> {
    FromPairs(MapSeq(data, RenameEntry(newName)))
  }

  /** The `CommandError` text for a name missing from the registry. */
  function NotValidMessage(name: string, available: seq<string>): string {
    name + " is not a valid pipeline. \nAvailable: " + Join(", ", available)
  }

  /** `validate_pipelines(pipelines_data)`: `available` holds the registry's
      pipeline names in order. Fails on the first renamed name, in dict order,
      that is not registered. */
  method ValidatePipelines<G>(data: Dict<G>, newName: string -> string, available: seq<string>)
    returns (r: Result<Dict<G>, string>)
    ensures var renamed := Renamed(data, newName);
      match r
      case Success(d) =>
        && d == renamed
        && forall i :: 0 <= i < |renamed| ==> renamed[i].key in available
      case Failure(message) =>
        exists i :: 0 <= i < |renamed|
          && renamed[i].key !in available
          && (forall j :: 0 <= j < i ==> renamed[j].key in available)
          && message == NotValidMessage(renamed[i].key, available)
  {
    var renamed := Renamed(data, newName);
    var i := 0;
    while i < |renamed|
      invariant i <= |renamed|
      invariant forall j :: 0 <= j < i ==> renamed[j].key in available
    {
      if renamed[i].key !in available {
        return Failure(NotValidMessage(renamed[i].key, available));
      }
      i := i + 1;
    }
    return Success(renamed);
  }

  /** The parsed files are keyed by the text before each file's first colon:
      a key is present exactly when some file has it. */
  lemma ExtractedTagKeys(inputFiles: seq<string>, k: string)
    ensures k in Keys(FromPairs(MapSeq(inputFiles, SplitTag)))
        <==> exists j :: 0 <= j < |inputFiles| && SplitTag(inputFiles[j]).key == k
  {
    DictKeys(inputFiles, SplitTag, k);
  }

  /** A key keeps the tag of the last file that has it. */
  lemma ExtractedTags(inputFiles: seq<string>, i: nat)
    requires i < |inputFiles|
    requires forall j :: i < j < |inputFiles| ==> SplitTag(inputFiles[j]).key != SplitTag(inputFiles[i]).key
    ensures Get(FromPairs(MapSeq(inputFiles, SplitTag)), SplitTag(inputFiles[i]).key)
         == Some(SplitTag(inputFiles[i]).value)
  {
    DictLastWins(inputFiles, SplitTag, i);
  }

  /** One key per pipeline name: a name is present exactly when some
      argument names it. */
  lemma ExtractedGroupKeys<G>(pipelines: seq<string>, extract: string -> Entry<G>, k: string)
    ensures k in Keys(FromPairs(MapSeq(pipelines, extract)))
        <==> exists j :: 0 <= j < |pipelines| && extract(pipelines[j]).key == k
  {
    DictKeys(pipelines, extract, k);
  }

  /** A pipeline name holds the groups of its last mention. */
  lemma ExtractedGroups<G>(pipelines: seq<string>, extract: string -> Entry<G>, i: nat)
    requires i < |pipelines|
    requires forall j :: i < j < |pipelines| ==> extract(pipelines[j]).key != extract(pipelines[i]).key
    ensures Get(FromPairs(MapSeq(pipelines, extract)), extract(pipelines[i]).key)
         == Some(extract(pipelines[i]).value)
  {
    DictLastWins(pipelines, extract, i);
  }

  /** The renamed dict holds exactly the new names of the given pipelines. */
  lemma RenamedKeys<G>(data: Dict<G>, newName: string -> string, k: string)
    ensures k in Keys(Renamed(data, newName)) <==> exists i :: 0 <= i < |data| && newName(data[i].key) == k
  {
    DictKeys(data, RenameEntry(newName), k);
  }

  /** Renaming keeps each pipeline's groups (the last ones, when two old names
      map to the same new name). */
  lemma RenamedKeepsGroups<G>(data: Dict<G>, newName: string -> string, i: nat)
    requires i < |data|
    requires forall j :: i < j < |data| ==> newName(data[j].key) != newName(data[i].key)
    ensures Get(Renamed(data, newName), newName(data[i].key)) == Some(data[i].value)
  {
    DictLastWins(data, RenameEntry(newName), i);
  }

  // ---------------------------------------------------------------------------
  // `get_run_status_code`
  // ---------------------------------------------------------------------------

  /** The values of `Run.Status` the command compares a run's status to. */
  datatype StatusChoices = StatusChoices(success: string, failure: string, stopped: string, stale: string)

  /** Django's `self.style`: the SUCCESS and ERROR colourings. */
  datatype Style = Style(success: string -> string, error: string -> string)

  /** `no_color` output: both colourings leave the text as it is. */
  const Plain: Style := Style(s => s, s => s)

  /** How the status is shown. */
  datatype Marking = Succeeded | Failed | Unmarked

  function Marked(status: string, choices: StatusChoices): Marking {
    if status == choices.success then Succeeded
    else if status in [choices.failure, choices.stopped, choices.stale] then Failed
    else Unmarked
  }

  /** `get_run_status_code(run)`: the upper-cased status, in the success
      colour for a success, the error colour for a failure, a stop or a stale
      run, and uncoloured otherwise. */
  function GetRunStatusCode(status: string, choices: StatusChoices, style: Style): (code: string)
    ensures Marked(status, choices) == Succeeded ==> code == style.success(Upper(status))
    ensures Marked(status, choices) == Failed ==> code == style.error(Upper(status))
    ensures Marked(status, choices) == Unmarked ==> code == Upper(status)
  {
    if status == choices.success then style.success(Upper(status))
    else if status in [choices.failure, choices.stopped, choices.stale] then style.error(Upper(status))
    else Upper(status)
  }

  /** Colours aside, the code is the upper-cased status, and upper-casing it
      again changes nothing. */
  lemma StatusCodeText(status: string, choices: StatusChoices)
    ensures GetRunStatusCode(status, choices, Plain) == Upper(status)
    ensures Upper(GetRunStatusCode(status, choices, Plain)) == Upper(status)
  {
    var u := Upper(status);
    forall i | 0 <= i < |u| ensures UpperChar(u[i]) == u[i] {
    }
  }

  // ---------------------------------------------------------------------------
  // `get_run_status_messages`
  // ---------------------------------------------------------------------------

  /** What the report reads of a run. `executionTime` is `None` for a run
      without one; `log` holds the lines of the run's log. */
  datatype RunRecord = RunRecord(status: string, pipelineName: string, executionTime: Option<nat>, log: seq<string>)

  predicate Truthy(t: Option<nat>) {
    t.Some? && t.value != 0
  }

  /** `f" (executed in {execution_time} seconds)"`, only for a truthy time. */
  function ExecutedSuffix(t: Option<nat>): (s: string)
    ensures s == "" <==> !Truthy(t)
  {
    if Truthy(t) then ExecutedIn(t.value) else ""
  }

  function ExecutedIn(seconds: nat): string {
    " (executed in " + NatToString(seconds) + " seconds)"
  }

  /** `f" [{status_code}] {run.pipeline_name}"` */
  function RunHead(run: RunRecord, choices: StatusChoices, style: Style): string {
    " [" + GetRunStatusCode(run.status, choices, style) + "] " + run.pipelineName
  }

  /** The line for one run. */
  function RunLine(run: RunRecord, choices: StatusChoices, style: Style): string {
    RunHead(run, choices, style) + ExecutedSuffix(run.executionTime)
  }

  function Indented(lines: seq<string>): (r: seq<string>)
    ensures |r| == |lines|
  {
    seq(|lines|, i requires 0 <= i < |lines| => "   " + lines[i])
  }

  /** A run's line followed by its log lines, each indented by three spaces. */
  function RunBlock(run: RunRecord, choices: StatusChoices, style: Style): (block: seq<string>)
    ensures |block| == 1 + |run.log|
  {
    [RunLine(run, choices, style)] + Indented(run.log)
  }

  function RunBlocks(runs: seq<RunRecord>, choices: StatusChoices, style: Style): seq<string>
    decreases |runs|
  {
    if runs == [] then []
    else RunBlocks(runs[..|runs| - 1], choices, style) + RunBlock(runs[|runs| - 1], choices, style)
  }

  /** The report: nothing without runs; otherwise a header, then each run's block. */
  function RunStatusMessages(runs: seq<RunRecord>, choices: StatusChoices, style: Style): (r: seq<string>)
    ensures runs == [] <==> r == []
    ensures runs != [] ==> r[0] == "\nPipelines:"
  {
    if runs == [] then [] else ["\nPipelines:"] + RunBlocks(runs, choices, style)
  }

  /** `get_run_status_messages(project)` */
  method GetRunStatusMessages(runs: seq<RunRecord>, choices: StatusChoices, style: Style)
    returns (messages: seq<string>)
    ensures messages == RunStatusMessages(runs, choices, style)
  {
    messages := [];
    if runs != [] {
      messages := messages + ["\nPipelines:"];
      for i := 0 to |runs|
        invariant messages == ["\nPipelines:"] + RunBlocks(runs[..i], choices, style)
      {
        var run := runs[i];
        var message := RunHead(run, choices, style);
        if Truthy(run.executionTime) {
          message := message + ExecutedIn(run.executionTime.value);
        }
        RunLineOf(run, choices, style);
        ghost var before := messages;
        messages := AppendIndented(messages + [message], run.log);
        AppendAssoc(before, [message], Indented(run.log));
        RunBlocksSnoc(runs, i, choices, style);
        AppendAssoc(["\nPipelines:"], RunBlocks(runs[..i], choices, style), RunBlock(run, choices, style));
      }
      assert runs[..|runs|] == runs;
    }
  }

  /** The line built as the loop builds it: the head, then the suffix only
      for a truthy time. */
  lemma RunLineOf(run: RunRecord, choices: StatusChoices, style: Style)
    ensures RunLine(run, choices, style)
         == if Truthy(run.executionTime) then RunHead(run, choices, style) + ExecutedIn(run.executionTime.value)
            else RunHead(run, choices, style)
  {
    if !Truthy(run.executionTime) {
      assert RunHead(run, choices, style) + "" == RunHead(run, choices, style);
    }
  }

  lemma RunBlocksSnoc(runs: seq<RunRecord>, i: nat, choices: StatusChoices, style: Style)
    requires i < |runs|
    ensures RunBlocks(runs[..i + 1], choices, style) == RunBlocks(runs[..i], choices, style) + RunBlock(runs[i], choices, style)
  {
    assert runs[..i + 1][..i] == runs[..i];
  }

  /** The inner loop of `get_run_status_messages`: each log line, indented
      by three spaces. */
  method AppendIndented(messages: seq<string>, log: seq<string>) returns (r: seq<string>)
    ensures r == messages + Indented(log)
  {
    r := messages;
    for j := 0 to |log|
      invariant r == messages + Indented(log[..j])
    {
      assert Indented(log[..j + 1]) == Indented(log[..j]) + ["   " + log[j]];
      r := r + ["   " + log[j]];
    }
    assert log[..|log|] == log;
  }

  /** The blocks of `a + b` are those of `a` followed by those of `b`. */
  lemma {:induction false} RunBlocksAppend(a: seq<RunRecord>, b: seq<RunRecord>, choices: StatusChoices, style: Style)
    ensures RunBlocks(a + b, choices, style) == RunBlocks(a, choices, style) + RunBlocks(b, choices, style)
    decreases |b|
  {
    if b == [] {
      assert a + b == a;
    } else {
      var last := b[|b| - 1];
      assert (a + b)[..|a + b| - 1] == a + b[..|b| - 1];
      RunBlocksAppend(a, b[..|b| - 1], choices, style);
      AppendAssoc(RunBlocks(a, choices, style), RunBlocks(b[..|b| - 1], choices, style), RunBlock(last, choices, style));
    }
  }

  /** Where run `i`'s block starts in the report, after the header. */
  function Offset(runs: seq<RunRecord>, i: nat, choices: StatusChoices, style: Style): nat
    requires i <= |runs|
  {
    1 + |RunBlocks(runs[..i], choices, style)|
  }

  /** The blocks split around run `i`. */
  lemma RunBlocksAround(runs: seq<RunRecord>, i: nat, choices: StatusChoices, style: Style)
    requires i < |runs|
    ensures RunBlocks(runs, choices, style)
         == (RunBlocks(runs[..i], choices, style) + RunBlock(runs[i], choices, style))
            + RunBlocks(runs[i + 1..], choices, style)
  {
    assert runs == runs[..i + 1] + runs[i + 1..];
    RunBlocksAppend(runs[..i + 1], runs[i + 1..], choices, style);
    RunBlocksSnoc(runs, i, choices, style);
  }

  /** A block opens with the run's line. */
  lemma RunBlockHead(run: RunRecord, choices: StatusChoices, style: Style)
    ensures RunBlock(run, choices, style)[0] == RunLine(run, choices, style)
  {
  }

  /** After its first line, a block holds the run's log lines, indented. */
  lemma RunBlockLog(run: RunRecord, j: nat, choices: StatusChoices, style: Style)
    requires j < |run.log|
    ensures RunBlock(run, choices, style)[1 + j] == "   " + run.log[j]
  {
    assert RunBlock(run, choices, style)[1 + j] == Indented(run.log)[j];
  }

  /** The report around run `i`: the header, the blocks before it (as long
      as its offset says), its block, and the blocks after it. */
  lemma ReportAround(runs: seq<RunRecord>, i: nat, choices: StatusChoices, style: Style)
    requires i < |runs|
    ensures RunStatusMessages(runs, choices, style)
         == ["\nPipelines:"] + ((RunBlocks(runs[..i], choices, style) + RunBlock(runs[i], choices, style))
                                + RunBlocks(runs[i + 1..], choices, style))
    ensures Offset(runs, i, choices, style) == 1 + |RunBlocks(runs[..i], choices, style)|
  {
    RunBlocksAround(runs, i, choices, style);
  }

  /** The report opens with its header, and run `i`'s line sits at its offset. */
  lemma RunStatusLine(runs: seq<RunRecord>, i: nat, choices: StatusChoices, style: Style)
    requires i < |runs|
    ensures var report, k := RunStatusMessages(runs, choices, style), Offset(runs, i, choices, style);
      && k < |report|
      && report[0] == "\nPipelines:"
      && report[k] == RunLine(runs[i], choices, style)
  {
    var before := RunBlocks(runs[..i], choices, style);
    var block := RunBlock(runs[i], choices, style);
    var after := RunBlocks(runs[i + 1..], choices, style);
    ReportAround(runs, i, choices, style);
    RunBlockHead(runs[i], choices, style);
    LayoutIndex("\nPipelines:", before, block, after, 0);
  }

  /** Line `j` of run `i`'s block sits `j` lines after the block's offset. */
  lemma ReportBlockAt(runs: seq<RunRecord>, i: nat, j: nat, choices: StatusChoices, style: Style)
    requires i < |runs| && j < |RunBlock(runs[i], choices, style)|
    ensures var report, k := RunStatusMessages(runs, choices, style), Offset(runs, i, choices, style);
      && k + j < |report|
      && report[k + j] == RunBlock(runs[i], choices, style)[j]
  {
    var before := RunBlocks(runs[..i], choices, style);
    var block := RunBlock(runs[i], choices, style);
    var after := RunBlocks(runs[i + 1..], choices, style);
    ReportAround(runs, i, choices, style);
    LayoutIndex("\nPipelines:", before, block, after, j);
  }

  /** The `j`-th log line of run `i`, indented by three spaces, follows the
      run's line at `j + 1`. */
  lemma RunStatusLog(runs: seq<RunRecord>, i: nat, j: nat, choices: StatusChoices, style: Style)
    requires i < |runs| && j < |runs[i].log|
    ensures var report, k := RunStatusMessages(runs, choices, style), Offset(runs, i, choices, style);
      && k + 1 + j < |report|
      && report[k + 1 + j] == "   " + runs[i].log[j]
  {
    ReportBlockAt(runs, i, 1 + j, choices, style);
    RunBlockLog(runs[i], j, choices, style);
    Chain(RunStatusMessages(runs, choices, style)[Offset(runs, i, choices, style) + (1 + j)],
          RunBlock(runs[i], choices, style)[1 + j], "   " + runs[i].log[j]);
  }

  // ---------------------------------------------------------------------------
  // The input lines of `get_queryset_objects_messages`
  // ---------------------------------------------------------------------------

  /** One item of `project.get_inputs_with_source()`; a key it lacks is `None`. */
  datatype InputRecord = InputRecord(filename: Option<string>, isUploaded: Option<bool>,
                                     downloadUrl: Option<string>, onDisk: Option<bool>)

  function FileNameOf(input: InputRecord): string {
    if input.filename.Some? then input.filename.value else ""
  }

  /** `"[source=uploaded]"` or `"[download_url=...]"`; a missing URL shows as `None`. */
  function SourceTag(input: InputRecord): string {
    if input.isUploaded == Some(true) then "[source=uploaded]" else DownloadTag(input)
  }

  function DownloadTag(input: InputRecord): string {
    "[download_url=" + (if input.downloadUrl.Some? then input.downloadUrl.value else "None") + "]"
  }

  function DiskNote(input: InputRecord, style: Style): string {
    if input.onDisk == Some(true) then "" else style.error(" NOT ON DISK")
  }

  /** `f" - {inputs_source.get('filename', '')} "` */
  function InputHead(input: InputRecord): string {
    " - " + FileNameOf(input) + " "
  }

  function InputLine(input: InputRecord, style: Style): string {
    InputHead(input) + SourceTag(input) + DiskNote(input, style)
  }

  /** Right after `" - <filename> "` the line reads `[source=uploaded]` exactly
      when the input was uploaded. */
  lemma InputLineSource(input: InputRecord, style: Style)
    ensures var line, at := InputLine(input, style), |InputHead(input)|;
      at <= |line| && (StartsWith(line[at..], "[source=uploaded]") <==> input.isUploaded == Some(true))
  {
    var head, tag, note := InputHead(input), SourceTag(input), DiskNote(input, style);
    AppendAssoc(head, tag, note);
    AfterPrefix(head, tag + note);
    if input.isUploaded == Some(true) {
      PrefixOfAppend(tag, note);
    } else {
      assert (tag + note)[1] == tag[1] == 'd';
    }
  }

  predicate EndsWith(s: string, suffix: string) {
    |suffix| <= |s| && s[|s| - |suffix|..] == suffix
  }

  /** Without colours, a line ends with `" NOT ON DISK"` exactly when the
      input is not on disk. */
  lemma InputLineOnDisk(input: InputRecord)
    ensures EndsWith(InputLine(input, Plain), " NOT ON DISK") <==> input.onDisk != Some(true)
  {
    var line := InputLine(input, Plain);
    if input.onDisk == Some(true) {
      assert line[|line| - 1] == ']';
    } else {
      assert line == (InputHead(input) + SourceTag(input)) + " NOT ON DISK";
    }
  }

  function LineOf(style: Style): InputRecord -> string {
    input => InputLine(input, style)
  }

  /** The input part of the report: nothing without inputs; otherwise a
      header, then one line per input, in order. */
  function InputMessages(inputs: seq<InputRecord>, style: Style): (r: seq<string>)
    ensures inputs == [] <==> r == []
    ensures inputs != [] ==> |r| == 1 + |inputs| && r[0] == "\nInputs:"
  {
    if inputs == [] then [] else ["\nInputs:"] + MapSeq(inputs, LineOf(style))
  }

  /** Line `i + 1` of the input part describes input `i`. */
  lemma InputMessagesAt(inputs: seq<InputRecord>, style: Style, i: nat)
    requires i < |inputs|
    ensures InputMessages(inputs, style)[i + 1] == InputLine(inputs[i], style)
  {
    var lines := MapSeq(inputs, LineOf(style));
    assert InputMessages(inputs, style) == ["\nInputs:"] + lines;
    assert (["\nInputs:"] + lines)[i + 1] == lines[i];
    MapSeqAt(inputs, LineOf(style), i);
  }

  /** The input-line loop of `get_queryset_objects_messages(project)`. */
  method GetInputMessages(inputs: seq<InputRecord>, style: Style) returns (messages: seq<string>)
    ensures messages == InputMessages(inputs, style)
  {
    messages := [];
    if inputs != [] {
      messages := messages + ["\nInputs:"];
      for i := 0 to |inputs|
        invariant messages == ["\nInputs:"] + MapSeq(inputs[..i], LineOf(style))
      {
        var input := inputs[i];
        var line := InputHead(input);
        if input.isUploaded == Some(true) {
          line := line + "[source=uploaded]";
        } else {
          line := line + DownloadTag(input);
        }
        if input.onDisk != Some(true) {
          line := line + style.error(" NOT ON DISK");
        }
        assert line == InputLine(input, style);
        MapSeqSnoc(inputs, LineOf(style), i);
        AppendAssoc(["\nInputs:"], MapSeq(inputs[..i], LineOf(style)), [line]);
        messages := messages + [line];
      }
      assert inputs[..|inputs|] == inputs;
    }
  }
}
