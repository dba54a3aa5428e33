/**
 * `BuilderModel`: assembling the labelled dataset from sorted directories,
 * accumulating the unsorted inputs, and the `BuildModel` driver with its
 * caching guard and its error field.
 *
 * The file system is a map from each existing directory to the full paths
 * `Directory.GetFiles` lists in it; a directory missing from the map does
 * not exist. The dataset file is returned as text instead of written, and
 * training (`BuildAndTrainModel`) is a parameter.
 */
module Builder {
  import opened SortedFiles

  type FileSystem = map<string, seq<string>>

  /** The records of a training set and the text written to the dataset file. */
  datatype DataSet = DataSet(records: seq<SortedFile>, text: string)

  /** The two trainers `BuildAndTrainModel` can select. */
  datatype TrainerStrategy = SdcaMultiClassTrainer | OvaAveragedPerceptronTrainer

  const Header: string := "Label;FileName"
  const ErrorsInitial: string := "No errors"
  const DataSetPrefix: string := "BuildDataset: "
  const NoDirectoriesMessage: string := "Empty list of sorted directories"
  const NoRecordsMessage: string := "Sorted files are absent in all directories"
  const NoInputFilesMessage: string := "Files not found"

  function MissingInputDirectoryMessage(dir: string): string
  {
    "Directory with unsorted files not found: " + dir
  }

  function EmptyInputDirectoryMessage(dir: string): string
  {
    "Files not found in " + dir
  }

  // ---------------------------------------------------------------------
  // Dataset records and their text
  // ---------------------------------------------------------------------

  /** The records of one directory: its path as label, each file's stripped name. */
  function DirectoryRecords(dir: string, files: seq<string>): seq<SortedFile>
  {
    seq(|files|, k requires 0 <= k < |files| => SortedFile(Some(dir), StripPath(files[k])))
  }

  /** All records, directory by directory in the given order; missing directories give none. */
  function Records(dirs: seq<string>, fs: FileSystem): seq<SortedFile>
  {
    if dirs == [] then []
    else
      var dir := dirs[|dirs| - 1];
      Records(dirs[..|dirs| - 1], fs) + (if dir in fs then DirectoryRecords(dir, fs[dir]) else [])
  }

  /** The number of files listed in the existing directories among `dirs`. */
  function TotalFiles(dirs: seq<string>, fs: FileSystem): nat
  {
    if dirs == [] then 0
    else
      var dir := dirs[|dirs| - 1];
      TotalFiles(dirs[..|dirs| - 1], fs) + (if dir in fs then |fs[dir]| else 0)
  }

  /** A C# `null` label concatenates as the empty string. */
  function LabelText(l: Option<string>): string
  {
    match l
    case Some(s) => s
    case None => ""
  }

  function Line(rec: SortedFile, nl: string): string
  {
    LabelText(rec.Label) + ";" + rec.FileName + nl
  }

  function Lines(recs: seq<SortedFile>, nl: string): string
  {
    if recs == [] then "" else Lines(recs[..|recs| - 1], nl) + Line(recs[|recs| - 1], nl)
  }

  /** The dataset file: the header line, then one `label;fileName` line per record. */
  function Serialize(recs: seq<SortedFile>, nl: string): string
  {
    Header + nl + Lines(recs, nl)
  }

  /** What `BuildDataSet` produces or throws, its messages carrying the `BuildDataset: ` prefix. */
  function DataSetOf(dirs: seq<string>, fs: FileSystem, nl: string): Result<DataSet>
  {
    if dirs == [] then Failure(DataSetPrefix + NoDirectoriesMessage)
    else
      var recs := Records(dirs, fs);
      if |recs| <= 0 then Failure(DataSetPrefix + NoRecordsMessage)
      else Success(DataSet(recs, Serialize(recs, nl)))
  }

  /**
   * `BuildDataSet`: one record per file of each existing directory, in
   * directory order and then file order, and the dataset text.
   */
  method BuildDataSet(sortedDirectories: seq<string>, fs: FileSystem, nl: string) returns (r: Result<DataSet>)
    ensures r == DataSetOf(sortedDirectories, fs, nl)
  {
    if |sortedDirectories| == 0 {
      return Failure(DataSetPrefix + NoDirectoriesMessage);
    }
    var allSortedFiles: seq<SortedFile> := [];
    for i := 0 to |sortedDirectories|
      invariant allSortedFiles == Records(sortedDirectories[..i], fs)
    {
      var directory := sortedDirectories[i];
      RecordsStep(sortedDirectories, i, fs);
      if directory !in fs {
        continue;
      }
      var files := fs[directory];
      ghost var done := allSortedFiles;
      for j := 0 to |files|
        invariant allSortedFiles == done + DirectoryRecords(directory, files[..j])
      {
        DirectoryRecordsStep(directory, files, j);
        allSortedFiles := allSortedFiles + [SortedFile(Some(directory), StripPath(files[j]))];
      }
      assert files[..|files|] == files;
    }
    assert sortedDirectories[..|sortedDirectories|] == sortedDirectories;
    if |allSortedFiles| <= 0 {
      return Failure(DataSetPrefix + NoRecordsMessage);
    }
    var text := Header + nl;
    for k := 0 to |allSortedFiles|
      invariant text == Header + nl + Lines(allSortedFiles[..k], nl)
    {
      LinesStep(allSortedFiles, k, nl);
      text := text + LabelText(allSortedFiles[k].Label) + ";" + allSortedFiles[k].FileName + nl;
    }
    assert allSortedFiles[..|allSortedFiles|] == allSortedFiles;
    r := Success(DataSet(allSortedFiles, text));
  }

  lemma RecordsStep(dirs: seq<string>, i: nat, fs: FileSystem)
    requires i < |dirs|
    ensures Records(dirs[..i + 1], fs)
         == Records(dirs[..i], fs) + (if dirs[i] in fs then DirectoryRecords(dirs[i], fs[dirs[i]]) else [])
  {
    assert dirs[..i + 1][..i] == dirs[..i];
  }

  lemma DirectoryRecordsStep(dir: string, files: seq<string>, j: nat)
    requires j < |files|
    ensures DirectoryRecords(dir, files[..j + 1])
         == DirectoryRecords(dir, files[..j]) + [SortedFile(Some(dir), StripPath(files[j]))]
  {
  }

  lemma LinesStep(recs: seq<SortedFile>, k: nat, nl: string)
    requires k < |recs|
    ensures Lines(recs[..k + 1], nl) == Lines(recs[..k], nl) + Line(recs[k], nl)
  {
    assert recs[..k + 1][..k] == recs[..k];
  }

  // ---------------------------------------------------------------------
  // Properties of the dataset
  // ---------------------------------------------------------------------

  /** Records of a concatenated directory list are the concatenated records. */
  lemma {:induction false} RecordsAppend(a: seq<string>, b: seq<string>, fs: FileSystem)
    ensures Records(a + b, fs) == Records(a, fs) + Records(b, fs)
    decreases |b|
  {
    if b == [] {
      assert a + b == a;
    } else {
      assert (a + b)[..|a + b| - 1] == a + b[..|b| - 1];
      RecordsAppend(a, b[..|b| - 1], fs);
    }
  }

  /** A directory that does not exist contributes nothing, wherever it stands in the list. */
  lemma MissingDirectorySkipped(before: seq<string>, dir: string, after: seq<string>, fs: FileSystem)
    requires dir !in fs
    ensures Records(before + [dir] + after, fs) == Records(before + after, fs)
  {
    RecordsAppend(before + [dir], after, fs);
    RecordsAppend(before, [dir], fs);
    RecordsAppend(before, after, fs);
    assert [dir][..0] == [];
  }

  /** The record count is the number of files in the existing directories. */
  lemma {:induction false} RecordCount(dirs: seq<string>, fs: FileSystem)
    ensures |Records(dirs, fs)| == TotalFiles(dirs, fs)
  {
    if dirs != [] {
      RecordCount(dirs[..|dirs| - 1], fs);
    }
  }

  /**
   * Every record is labelled with the full string of a listed, existing
   * directory and named after one of that directory's files.
   */
  lemma {:induction false} RecordsFromDirectories(dirs: seq<string>, fs: FileSystem)
    ensures forall rec :: rec in Records(dirs, fs) ==>
      && rec.Label.Some?
      && rec.Label.value in dirs
      && rec.Label.value in fs
      && exists f :: f in fs[rec.Label.value] && rec.FileName == StripPath(f)
  {
    if dirs != [] {
      var init, dir := dirs[..|dirs| - 1], dirs[|dirs| - 1];
      RecordsFromDirectories(init, fs);
      forall rec | rec in Records(dirs, fs)
        ensures && rec.Label.Some?
                && rec.Label.value in dirs
                && rec.Label.value in fs
                && exists f :: f in fs[rec.Label.value] && rec.FileName == StripPath(f)
      {
        if rec !in Records(init, fs) {
          var k :| 0 <= k < |fs[dir]| && rec == DirectoryRecords(dir, fs[dir])[k];
          assert fs[dir][k] in fs[dir];
        } else {
          assert rec.Label.value in init;
        }
      }
    }
  }

  /** The dataset is empty exactly when every listed directory is missing or has no files. */
  lemma {:induction false} NoRecordsIff(dirs: seq<string>, fs: FileSystem)
    ensures Records(dirs, fs) == [] <==> forall d :: d in dirs && d in fs ==> fs[d] == []
  {
    if dirs != [] {
      var init, dir := dirs[..|dirs| - 1], dirs[|dirs| - 1];
      NoRecordsIff(init, fs);
      assert dirs == init + [dir];
      if dir in fs && fs[dir] != [] {
        assert |Records(dirs, fs)| >= |DirectoryRecords(dir, fs[dir])| > 0;
      }
    }
  }

  /**
   * `BuildDataSet` throws, with the prefixed message of the check that fired,
   * when no directory is given (before anything else is looked at) and when
   * none of the given directories exists with a file in it.
   */
  lemma DataSetErrors(dirs: seq<string>, fs: FileSystem, nl: string)
    ensures dirs == [] ==> DataSetOf(dirs, fs, nl) == Failure(DataSetPrefix + NoDirectoriesMessage)
    ensures dirs != [] && (forall d :: d in dirs && d in fs ==> fs[d] == []) ==>
      DataSetOf(dirs, fs, nl) == Failure(DataSetPrefix + NoRecordsMessage)
  {
    NoRecordsIff(dirs, fs);
  }

  /**
   * Otherwise it succeeds, with one record per file of the existing
   * directories and the text that serialises them.
   */
  lemma DataSetContents(dirs: seq<string>, fs: FileSystem, nl: string)
    ensures DataSetOf(dirs, fs, nl).Success? <==> exists d :: d in dirs && d in fs && fs[d] != []
    ensures DataSetOf(dirs, fs, nl).Success? ==>
      && DataSetOf(dirs, fs, nl).value.records == Records(dirs, fs)
      && |DataSetOf(dirs, fs, nl).value.records| == TotalFiles(dirs, fs)
      && DataSetOf(dirs, fs, nl).value.text == Serialize(Records(dirs, fs), nl)
  {
    NoRecordsIff(dirs, fs);
    RecordCount(dirs, fs);
  }

  /** The number of occurrences of `c` in `s`. */
  function Occurrences(s: string, c: char): nat
  {
    if s == [] then 0 else Occurrences(s[..|s| - 1], c) + (if s[|s| - 1] == c then 1 else 0)
  }

  lemma {:induction false} OccurrencesAppend(a: string, b: string, c: char)
    ensures Occurrences(a + b, c) == Occurrences(a, c) + Occurrences(b, c)
    decreases |b|
  {
    if b == [] {
      assert a + b == a;
    } else {
      assert (a + b)[..|a + b| - 1] == a + b[..|b| - 1];
      OccurrencesAppend(a, b[..|b| - 1], c);
    }
  }

  lemma {:induction false} OccurrencesAbsent(s: string, c: char)
    requires c !in s
    ensures Occurrences(s, c) == 0
  {
    if s != [] {
      OccurrencesAbsent(s[..|s| - 1], c);
    }
  }

  /** A terminator whose last character occurs once in it, at the end. */
  lemma TerminatorOnce(nl: string, c: char)
    requires nl != [] && nl[|nl| - 1] == c && c !in nl[..|nl| - 1]
    ensures Occurrences(nl, c) == 1
  {
    OccurrencesAbsent(nl[..|nl| - 1], c);
  }

  /**
   * With a line terminator (`"\r\n"` on Windows) whose last character
   * occurs nowhere else in it and in no label or file name, the dataset text
   * has exactly one line more than there are records: the header.
   */
  lemma {:induction false} SerializedLineCount(recs: seq<SortedFile>, nl: string, c: char)
    requires nl != [] && nl[|nl| - 1] == c && c !in nl[..|nl| - 1]
    requires c != ';' && c !in Header
    requires forall k :: 0 <= k < |recs| ==> c !in LabelText(recs[k].Label) && c !in recs[k].FileName
    ensures Occurrences(Serialize(recs, nl), c) == |recs| + 1
  {
    LinesCount(recs, nl, c);
    OccurrencesAppend(Header, nl, c);
    OccurrencesAppend(Header + nl, Lines(recs, nl), c);
    OccurrencesAbsent(Header, c);
    TerminatorOnce(nl, c);
  }

  /** The Windows terminator `"\r\n"`: counting `'\n'` counts the lines. */
  lemma WindowsLineCount(recs: seq<SortedFile>)
    requires forall k :: 0 <= k < |recs| ==> '\n' !in LabelText(recs[k].Label) && '\n' !in recs[k].FileName
    ensures Occurrences(Serialize(recs, "\r\n"), '\n') == |recs| + 1
  {
    SerializedLineCount(recs, "\r\n", '\n');
  }

  lemma {:induction false} LinesCount(recs: seq<SortedFile>, nl: string, c: char)
    requires nl != [] && nl[|nl| - 1] == c && c !in nl[..|nl| - 1]
    requires c != ';'
    requires forall k :: 0 <= k < |recs| ==> c !in LabelText(recs[k].Label) && c !in recs[k].FileName
    ensures Occurrences(Lines(recs, nl), c) == |recs|
  {
    if recs != [] {
      var init, last := recs[..|recs| - 1], recs[|recs| - 1];
      LinesCount(init, nl, c);
      var text := LabelText(last.Label);
      OccurrencesAbsent(text, c);
      OccurrencesAbsent(last.FileName, c);
      assert Occurrences(";", c) == 0 by {
        assert ";"[..0] == [];
      }
      TerminatorOnce(nl, c);
      OccurrencesAppend(text, ";", c);
      OccurrencesAppend(text + ";", last.FileName, c);
      OccurrencesAppend(text + ";" + last.FileName, nl, c);
      OccurrencesAppend(Lines(init, nl), Line(last, nl), c);
    }
  }

  // ---------------------------------------------------------------------
  // Unsorted inputs
  // ---------------------------------------------------------------------

  /** `files.Any(x => x.FileName == name)`. */
  predicate HasFileName(files: seq<SortedFile>, name: string)
  {
    exists k :: 0 <= k < |files| && files[k].FileName == name
  }

  function AddIfAbsent(files: seq<SortedFile>, name: string): seq<SortedFile>
  {
    if HasFileName(files, name) then files else files + [SortedFile(None, name)]
  }

  /** The list after the deduplicating loop of `GetInputFiles(list)` has seen every path. */
  function AddFileNames(acc: seq<SortedFile>, paths: seq<string>): seq<SortedFile>
  {
    if paths == [] then acc
    else AddIfAbsent(AddFileNames(acc, paths[..|paths| - 1]), StripPath(paths[|paths| - 1]))
  }

  /** What `GetInputFiles(inputDir)` leaves in the input list, or throws. */
  function InputFilesFromDirectory(acc: seq<SortedFile>, dir: string, fs: FileSystem): Result<seq<SortedFile>>
  {
    if dir !in fs then Failure(MissingInputDirectoryMessage(dir))
    else if |fs[dir]| == 0 then Failure(EmptyInputDirectoryMessage(dir))
    else Success(acc + Unlabeled(fs[dir]))
  }

  /** What `GetInputFiles(inputFiles)` leaves in the input list, or throws. */
  function InputFilesFromList(acc: seq<SortedFile>, paths: seq<string>): Result<seq<SortedFile>>
  {
    if |paths| == 0 then Failure(NoInputFilesMessage) else Success(AddFileNames(acc, paths))
  }

  /**
   * The list overload only appends: the previous list stays a prefix, each
   * appended entry is unlabelled and carries a name found nowhere before it,
   * and at most one entry is appended per path.
   */
  lemma {:induction false} AddFileNamesAppendsFresh(acc: seq<SortedFile>, paths: seq<string>)
    ensures |acc| <= |AddFileNames(acc, paths)| <= |acc| + |paths|
    ensures AddFileNames(acc, paths)[..|acc|] == acc
    ensures forall k :: |acc| <= k < |AddFileNames(acc, paths)| ==>
      AddFileNames(acc, paths)[k].Label == None &&
      !HasFileName(AddFileNames(acc, paths)[..k], AddFileNames(acc, paths)[k].FileName)
  {
    if paths != [] {
      var prev := AddFileNames(acc, paths[..|paths| - 1]);
      AddFileNamesAppendsFresh(acc, paths[..|paths| - 1]);
      var r := AddFileNames(acc, paths);
      if r != prev {
        assert r == prev + [SortedFile(None, StripPath(paths[|paths| - 1]))];
        assert r[..|prev|] == prev;
        forall k | |acc| <= k < |prev|
          ensures r[k] == prev[k] && r[..k] == prev[..k]
        {
        }
      }
    }
  }

  /**
   * Afterwards the stripped name of every given path is in the list, and
   * every appended entry is the unlabelled record of a given path.
   */
  lemma {:induction false} AddFileNamesCovers(acc: seq<SortedFile>, paths: seq<string>)
    ensures forall i :: 0 <= i < |paths| ==> HasFileName(AddFileNames(acc, paths), StripPath(paths[i]))
    ensures forall k :: |acc| <= k < |AddFileNames(acc, paths)| ==>
      AddFileNames(acc, paths)[k] in Unlabeled(paths)
  {
    if paths != [] {
      var init, last := paths[..|paths| - 1], paths[|paths| - 1];
      var prev := AddFileNames(acc, init);
      AddFileNamesCovers(acc, init);
      AddFileNamesAppendsFresh(acc, init);
      var r := AddFileNames(acc, paths);
      forall i | 0 <= i < |paths|
        ensures HasFileName(r, StripPath(paths[i]))
      {
        if i < |init| {
          assert paths[i] == init[i];
          var k :| 0 <= k < |prev| && prev[k].FileName == StripPath(init[i]);
          assert r[k] == prev[k];
        } else if !HasFileName(prev, StripPath(last)) {
          assert r[|prev|].FileName == StripPath(last);
        }
      }
      forall k | |acc| <= k < |r|
        ensures r[k] in Unlabeled(paths)
      {
        if k < |prev| {
          assert r[k] == prev[k];
          var i :| 0 <= i < |init| && Unlabeled(init)[i] == prev[k];
          assert Unlabeled(paths)[i] == prev[k];
        } else {
          assert r == prev + [SortedFile(None, StripPath(last))];
          assert Unlabeled(paths)[|paths| - 1] == r[k];
        }
      }
    }
  }

  /** No two entries of the list share a file name. */
  ghost predicate DistinctNames(files: seq<SortedFile>)
  {
    forall i, j :: 0 <= i < j < |files| ==> files[i].FileName != files[j].FileName
  }

  /** The list overload keeps a duplicate-free input list duplicate-free. */
  lemma AddFileNamesKeepsDistinct(acc: seq<SortedFile>, paths: seq<string>)
    requires DistinctNames(acc)
    ensures DistinctNames(AddFileNames(acc, paths))
  {
    var r := AddFileNames(acc, paths);
    AddFileNamesAppendsFresh(acc, paths);
    forall i, j | 0 <= i < j < |r|
      ensures r[i].FileName != r[j].FileName
    {
      if j < |acc| {
        assert r[i] == acc[i] && r[j] == acc[j];
      } else {
        assert r[..j][i] == r[i];
      }
    }
  }

  // ---------------------------------------------------------------------
  // The static state and the BuildModel driver
  // ---------------------------------------------------------------------

  /** A snapshot of the state `BuildModel` works on. */
  datatype BuilderState = BuilderState(
    inputFiles: seq<SortedFile>,
    errors: string,
    modelSaved: bool,
    dataSetFile: Option<string>)

  /** The input list a `GetInputFiles` outcome leaves: the new one, or the old one when it threw. */
  function Committed(g: Result<seq<SortedFile>>, before: seq<SortedFile>): seq<SortedFile>
  {
    match g
    case Success(files) => files
    case Failure(_) => before
  }

  function OutcomeOf<T>(r: Result<T>): Outcome
  {
    match r
    case Success(_) => Pass
    case Failure(e) => Fail(e)
  }

  /**
   * The state after `BuildModel`: nothing when a model is saved and no
   * rebuild is asked for; otherwise the stages run in order (gather the
   * inputs, build the dataset, train), the first one that throws has its
   * message stored in `errors`, and the stages before it keep their effects.
   */
  function AfterBuild(st: BuilderState, gathered: Result<seq<SortedFile>>, data: Result<DataSet>,
                      strategy: TrainerStrategy, rebuildModel: bool,
                      train: (string, TrainerStrategy) -> Outcome): BuilderState
  {
    if st.modelSaved && !rebuildModel then st
    else
      match gathered
      case Failure(e) => st.(errors := e)
      case Success(files) =>
        match data
        case Failure(e) => st.(inputFiles := files, errors := e)
        case Success(ds) =>
          var written := st.(inputFiles := files, dataSetFile := Some(ds.text));
          match train(ds.text, strategy)
          case Fail(e) => written.(errors := e)
          case Pass => written.(modelSaved := true)
  }

  /** With a saved model and no rebuild requested, `BuildModel` changes nothing. */
  lemma CachedModelUntouched(st: BuilderState, gathered: Result<seq<SortedFile>>, data: Result<DataSet>,
                             strategy: TrainerStrategy, train: (string, TrainerStrategy) -> Outcome)
    requires st.modelSaved
    ensures AfterBuild(st, gathered, data, strategy, false, train) == st
  {
  }

  /**
   * A model is saved afterwards exactly when one was before or every stage
   * succeeded; a stage that throws is caught, its message replaces `errors`,
   * and no failure leaves a new model or a changed dataset file from a
   * failed dataset build; after full success `errors` keeps its old value.
   */
  lemma BuildModelErrorCapture(st: BuilderState, gathered: Result<seq<SortedFile>>, data: Result<DataSet>,
                               strategy: TrainerStrategy, rebuildModel: bool,
                               train: (string, TrainerStrategy) -> Outcome)
    ensures var r := AfterBuild(st, gathered, data, strategy, rebuildModel, train);
      var ran := !(st.modelSaved && !rebuildModel);
      var succeeded := gathered.Success? && data.Success? && train(data.value.text, strategy).Pass?;
      && (r.modelSaved <==> st.modelSaved || (ran && succeeded))
      && (ran && gathered.Failure? ==> r == st.(errors := gathered.error))
      && (ran && gathered.Success? && data.Failure? ==>
            r == st.(inputFiles := gathered.value, errors := data.error))
      && (ran && gathered.Success? && data.Success? && train(data.value.text, strategy).Fail? ==>
            r.inputFiles == gathered.value && r.errors == train(data.value.text, strategy).error &&
            r.modelSaved == st.modelSaved && r.dataSetFile == Some(data.value.text))
      && (ran && succeeded ==>
            r.inputFiles == gathered.value && r.errors == st.errors && r.dataSetFile == Some(data.value.text))
  {
  }

  /**
   * The static fields of `BuilderModel` (`InputFiles`, `Errors`), with the two
   * files `BuildModel` touches: whether the model file exists and what the
   * dataset file holds.
   */
  class BuilderModel {
    var inputFiles: seq<SortedFile>
    var errors: string
    var modelSaved: bool
    var dataSetFile: Option<string>

    constructor (modelOnDisk: bool, dataSetOnDisk: Option<string>)
      ensures inputFiles == [] && errors == ErrorsInitial
      ensures modelSaved == modelOnDisk && dataSetFile == dataSetOnDisk
    {
      inputFiles := [];
      errors := ErrorsInitial;
      modelSaved := modelOnDisk;
      dataSetFile := dataSetOnDisk;
    }

    function State(): BuilderState
      reads this
    {
      BuilderState(inputFiles, errors, modelSaved, dataSetFile)
    }

    /**
     * `GetInputFiles(inputDir)`: throws for a missing or empty directory,
     * otherwise appends one unlabelled entry per file, duplicates included.
     */
    method GetInputFilesFromDirectory(inputDir: string, fs: FileSystem) returns (outcome: Outcome)
      modifies this`inputFiles
      ensures var g := InputFilesFromDirectory(old(inputFiles), inputDir, fs);
        inputFiles == Committed(g, old(inputFiles)) && outcome == OutcomeOf(g)
      ensures outcome.Pass? ==>
        && |inputFiles| == |old(inputFiles)| + |fs[inputDir]|
        && inputFiles[..|old(inputFiles)|] == old(inputFiles)
        && forall k :: 0 <= k < |fs[inputDir]| ==>
             inputFiles[|old(inputFiles)| + k] == SortedFile(None, StripPath(fs[inputDir][k]))
    {
      if inputDir !in fs {
        return Fail(MissingInputDirectoryMessage(inputDir));
      }
      var files := fs[inputDir];
      if |files| == 0 {
        return Fail(EmptyInputDirectoryMessage(inputDir));
      }
      for i := 0 to |files|
        invariant inputFiles == old(inputFiles) + Unlabeled(files[..i])
      {
        assert Unlabeled(files[..i + 1]) == Unlabeled(files[..i]) + [SortedFile(None, StripPath(files[i]))];
        inputFiles := inputFiles + [SortedFile(None, StripPath(files[i]))];
      }
      assert files[..|files|] == files;
      outcome := Pass;
    }

    /**
     * `GetInputFiles(inputFiles)`: throws for an empty list, otherwise
     * appends the stripped name of each path not already in the list.
     */
    method GetInputFilesFromList(paths: seq<string>) returns (outcome: Outcome)
      modifies this`inputFiles
      ensures var g := InputFilesFromList(old(inputFiles), paths);
        inputFiles == Committed(g, old(inputFiles)) && outcome == OutcomeOf(g)
    {
      if |paths| == 0 {
        return Fail(NoInputFilesMessage);
      }
      for i := 0 to |paths|
        invariant inputFiles == AddFileNames(old(inputFiles), paths[..i])
      {
        assert paths[..i + 1][..i] == paths[..i];
        var fname := StripPath(paths[i]);
        if !HasFileName(inputFiles, fname) {
          inputFiles := inputFiles + [SortedFile(None, fname)];
        }
      }
      assert paths[..|paths|] == paths;
      outcome := Pass;
    }

    /**
     * `BuildModel(sortedDirectories, unsortedFilesDirectory, ...)`: exceptions
     * from any stage end up in `errors` and never escape.
     */
    method BuildModelFromDirectory(sortedDirectories: seq<string>, unsortedFilesDirectory: string,
                                   fs: FileSystem, nl: string, trainerStrategy: TrainerStrategy,
                                   rebuildModel: bool, train: (string, TrainerStrategy) -> Outcome)
      modifies this
      ensures State() == AfterBuild(old(State()),
                                    InputFilesFromDirectory(old(inputFiles), unsortedFilesDirectory, fs),
                                    DataSetOf(sortedDirectories, fs, nl),
                                    trainerStrategy, rebuildModel, train)
      ensures old(modelSaved) && !rebuildModel ==> State() == old(State())
    {
      if modelSaved && !rebuildModel {
        return;
      }
      var gathered := GetInputFilesFromDirectory(unsortedFilesDirectory, fs);
      if gathered.Fail? {
        errors := gathered.error;
        return;
      }
      var data := BuildDataSet(sortedDirectories, fs, nl);
      if data.Failure? {
        errors := data.error;
        return;
      }
      dataSetFile := Some(data.value.text);
      var trained := train(data.value.text, trainerStrategy);
      if trained.Fail? {
        errors := trained.error;
        return;
      }
      modelSaved := true;
    }

    /**
     * `BuildModel(sortedDirectories, unsortedFiles, ...)`: the same driver
     * with the deduplicating list overload of `GetInputFiles`.
     */
    method BuildModelFromList(sortedDirectories: seq<string>, unsortedFiles: seq<string>,
                              fs: FileSystem, nl: string, trainerStrategy: TrainerStrategy,
                              rebuildModel: bool, train: (string, TrainerStrategy) -> Outcome)
      modifies this
      ensures State() == AfterBuild(old(State()),
                                    InputFilesFromList(old(inputFiles), unsortedFiles),
                                    DataSetOf(sortedDirectories, fs, nl),
                                    trainerStrategy, rebuildModel, train)
      ensures old(modelSaved) && !rebuildModel ==> State() == old(State())
    {
      if modelSaved && !rebuildModel {
        return;
      }
      var gathered := GetInputFilesFromList(unsortedFiles);
      if gathered.Fail? {
        errors := gathered.error;
        return;
      }
      var data := BuildDataSet(sortedDirectories, fs, nl);
      if data.Failure? {
        errors := data.error;
        return;
      }
      dataSetFile := Some(data.value.text);
      var trained := train(data.value.text, trainerStrategy);
      if trained.Fail? {
        errors := trained.error;
        return;
      }
      modelSaved := true;
    }
  }
}
