# NeuroSorter classification pipeline in Dafny

A model of the two sequential parts of the NeuroSorter library that wrap
its calls into ML.NET. The learning engine itself is treated as an opaque
collaborator.

- **Dataset assembly and input collection** (`BuilderModel`, module
  `Builder`). `BuildDataSet` turns a list of sorted directories into one
  `(Label, FileName)` record per file. The label is the whole directory
  string and the file name is the last `\`-segment of the path. It then
  serialises the records as the `Label;FileName` dataset text.
  `GetInputFiles` comes in two overloads that append to the static
  `InputFiles` list. `BuildModel` is the driver: it has a caching guard,
  and it stores every exception in the static `Errors` field instead of
  throwing it. The static fields, plus the existence of the model file
  and the content of the dataset file, are the fields of the class
  `Builder.BuilderModel`.
- **Top-3 ranking and the confidence decision** (`Sorter`, modules
  `Ranking` and `Classifier`). `GetIndexesOfTopThreeScores` makes one pass
  that keeps `first >= second >= third`, seeded with 0. It then finds each
  index with `List.IndexOf`. `GetBestThreePredictions` pairs the indices
  with slot names and scores. `PredictAll` labels each file in place, with
  the engine's predicted label when the top score is at least 0.3 and
  with `"none"` otherwise. `ConvertToSortedFiles` and `PredictOne` strip
  paths the same way the builder does.

Module `SortedFiles` holds the shared record type `SortedFile`, the path
stripping `StripPath` (`path.Split('\\').Last()`), and the `Result` and
`Outcome` types. These stand for the library's exceptions: a failure
carries the exception's message.

Inputs that the source reads from its environment are parameters here:

- The file system is a map from each existing directory to the full
  paths that `Directory.GetFiles` lists in it. A directory missing from
  the map does not exist.
- `Environment.NewLine` is the parameter `nl`.
- `BuildAndTrainModel` is the parameter `train`. It maps the dataset text
  and the trainer strategy to success or to an exception message.
- The prediction engine loaded from the model is the constant `engine`,
  a function from a file name to the predicted label and the score
  vector.
- The slot names of the score column are the constant `slotNames`.

Scores are reals, and 0.3 is an exact constant.

Where the behaviour of the code differs from a plain reading of its intent,
the model follows the code:

- `BuildModel` does not leave its state untouched on every failure. When
  `GetInputFiles` succeeds and a later stage throws, the entries it
  appended to `InputFiles` stay. When training throws, the dataset file
  has already been written.
- Only the list overload of `GetInputFiles` skips names already present.
  The directory overload appends one entry per file, duplicates included.
- After a successful `BuildModel`, `Errors` keeps whatever it held before.
  It is never reset.
- `GetIndexesOfTopThreeScores` returns the same index twice for tied scores
  (`Ranking.TiedMaximumCollides`, `Ranking.TiedScoresExample`). It returns
  -1 for a tracked 0 that does not occur in the vector
  (`Ranking.ZeroSeedExample`). In that case `GetBestThreePredictions`
  throws, and so does `PredictAll`. With fewer than three scores the pass
  is skipped and slot 0 is reported three times, even when the other
  score is higher (`Classifier.BestThreeShortVector`).
- The label `PredictAll` assigns is the engine's `PredictedLabel`, not the
  slot name of the first ranked entry. Only the first entry's score
  decides between that label and `"none"`.

## Model

| member | source | states |
|---|---|---|
| `SortedFiles.StripPathSuffix` | NeuroSorterLibrary/BuilderModel.cs:111 | the stripped name is the backslash-free suffix of the path that starts after its last backslash, or at its start |
| `SortedFiles.StripPathUnique` | NeuroSorterLibrary/BuilderModel.cs:148 | those three facts determine the stripped name |
| `SortedFiles.StripPathOfJoined` | NeuroSorterLibrary/Sorter.cs:135 | stripping `dir\name` gives back `name` for any backslash-free name, so only the last segment reaches the engine |
| `SortedFiles.StripPathIdempotent` | NeuroSorterLibrary/Sorter.cs:54 | stripping a stripped name changes nothing |
| `Builder.BuildDataSet` | NeuroSorterLibrary/BuilderModel.cs:96-127 | the nested loops build exactly the records of `Records` and the text of `Serialize`, or throw the prefixed message of `DataSetOf` |
| `Builder.RecordsAppend` | NeuroSorterLibrary/BuilderModel.cs:104-113 | records come in directory order: the records of a concatenated directory list are the concatenated records |
| `Builder.MissingDirectorySkipped` | NeuroSorterLibrary/BuilderModel.cs:106 | a directory that does not exist contributes no record, wherever it stands in the list |
| `Builder.RecordCount` | NeuroSorterLibrary/BuilderModel.cs:108-113 | the number of records is the sum of the file counts of the existing directories |
| `Builder.RecordsFromDirectories` | NeuroSorterLibrary/BuilderModel.cs:107-111 | every record's label is the full string of a listed, existing directory, and its file name is the stripped name of one of that directory's files |
| `Builder.NoRecordsIff` | NeuroSorterLibrary/BuilderModel.cs:114 | there are no records exactly when every listed directory is missing or empty |
| `Builder.DataSetErrors` | NeuroSorterLibrary/BuilderModel.cs:101-125 | an empty directory list throws `BuildDataset: Empty list of sorted directories` before anything else; no file in any existing directory throws `BuildDataset: Sorted files are absent in all directories` |
| `Builder.DataSetContents` | NeuroSorterLibrary/BuilderModel.cs:102-119 | the build succeeds exactly when some listed directory exists with a file, and then holds `TotalFiles` records and their serialisation |
| `Builder.SerializedLineCount` | NeuroSorterLibrary/BuilderModel.cs:115-119 | for any `Environment.NewLine` whose last character occurs nowhere else in it, in the header, or in any label or name, the text holds that character once per record plus once for the header line |
| `Builder.WindowsLineCount` | NeuroSorterLibrary/BuilderModel.cs:115-119 | with the Windows terminator `"\r\n"` and no `'\n'` in any label or name, the text has one line per record plus the header line |
| `Builder.AddFileNamesAppendsFresh` | NeuroSorterLibrary/BuilderModel.cs:146-150 | the list overload keeps the old list as a prefix, appends at most one unlabelled entry per path, and appends no name that is already present |
| `Builder.AddFileNamesCovers` | NeuroSorterLibrary/BuilderModel.cs:146-150 | afterwards every path's stripped name is in the list, and every appended entry is the unlabelled, stripped record of one of the paths |
| `Builder.AddFileNamesKeepsDistinct` | NeuroSorterLibrary/BuilderModel.cs:149 | a list without duplicate names stays without duplicates |
| `Builder.CachedModelUntouched` | NeuroSorterLibrary/BuilderModel.cs:38 | with a saved model and no rebuild requested, `BuildModel` changes nothing |
| `Builder.BuildModelErrorCapture` | NeuroSorterLibrary/BuilderModel.cs:35-51 | a model is saved afterwards exactly when one was saved before or every stage succeeded; a throwing stage's message lands in `Errors` while the effects of earlier stages stay (the appended `InputFiles` when the dataset build or training throws, the written dataset file when training throws); after full success `InputFiles` holds the appended entries and `Errors` is unchanged |
| `Builder.BuilderModel.constructor` | NeuroSorterLibrary/BuilderModel.cs:18-20 | the static state starts with an empty input list and `Errors` set to "No errors" |
| `Builder.BuilderModel.GetInputFilesFromDirectory` | NeuroSorterLibrary/BuilderModel.cs:132-141 | a missing or empty directory throws and leaves the list alone; otherwise exactly one entry per file is appended, in order, with no deduplication |
| `Builder.BuilderModel.GetInputFilesFromList` | NeuroSorterLibrary/BuilderModel.cs:142-151 | an empty list throws "Files not found"; otherwise the list becomes `AddFileNames` of the old list and the paths |
| `Builder.BuilderModel.BuildModelFromDirectory` | NeuroSorterLibrary/BuilderModel.cs:32-53 | the new state is `AfterBuild` with the directory overload of `GetInputFiles`; with a saved model and no rebuild the state is unchanged |
| `Builder.BuilderModel.BuildModelFromList` | NeuroSorterLibrary/BuilderModel.cs:61-81 | the new state is `AfterBuild` with the deduplicating list overload; with a saved model and no rebuild the state is unchanged |
| `Ranking.IndexOf` | NeuroSorterLibrary/Sorter.cs:121-124 | `List.IndexOf` returns the first position holding the value, or -1 exactly when the value is absent |
| `Ranking.ScanTopThree` | NeuroSorterLibrary/Sorter.cs:99-120 | the pass keeps `first >= second >= third >= 0`, and they are the three largest positive scores counted with multiplicity, with 0 for each missing one |
| `Ranking.KthLargestUnique` | NeuroSorterLibrary/Sorter.cs:99-120 | that characterisation admits exactly one value per rank |
| `Ranking.ScanFirstIsMaximum` | NeuroSorterLibrary/Sorter.cs:99-120 | `first` is the maximum of 0 and all the scores |
| `Ranking.TopValuesPresent` | NeuroSorterLibrary/Sorter.cs:121-124 | with three or more scores and none negative, all three tracked values occur in the vector, so no index is -1 |
| `Ranking.TopIndexesMeaning` | NeuroSorterLibrary/Sorter.cs:89-125 | fewer than three scores give indices 0, 0, 0 without a scan; otherwise each index is the first position of its tracked value, or -1 exactly when that value is absent |
| `Ranking.TiedMaximumCollides` | NeuroSorterLibrary/Sorter.cs:121-123 | when the maximum score occurs at two positions, the first two indices are equal |
| `Ranking.TiedScoresExample` | NeuroSorterLibrary/Sorter.cs:99-124 | scores `[0.4, 0.4, 0.2]` give indices `(0, 0, 2)` |
| `Ranking.ZeroSeedExample` | NeuroSorterLibrary/Sorter.cs:99-124 | scores `[0.5, -0.25, -0.25]` give indices `(0, -1, -1)`, because the seed 0 is tracked but not present |
| `Classifier.FirstFailure` | NeuroSorterLibrary/Sorter.cs:144-152 | the position where `PredictAll` stops: every path before it is classified without an exception, and the path at it throws |
| `Classifier.BestThreeRanked` | NeuroSorterLibrary/Sorter.cs:68-87 | with three or more scores, the ranking succeeds exactly when the three tracked values occur; entry k then holds the k-th tracked value, its first index and its slot name; the scores descend and the first is the maximum; a failure is always `GetItemOrDefault`'s slot check, which runs before `scores[i]` |
| `Classifier.BestThreeOfProbabilities` | NeuroSorterLibrary/Sorter.cs:77-84 | a score vector with three or more entries and no negative one never makes the ranking throw |
| `Classifier.BestThreeShortVector` | NeuroSorterLibrary/Sorter.cs:68-98 | an empty vector throws from `GetItemOrDefault(0)`; a vector of one or two scores gives three copies of slot 0 |
| `Classifier.ClassifyThreshold` | NeuroSorterLibrary/Sorter.cs:146-152 | with three or more scores and a ranking that does not throw, the predicted label is kept exactly when some score is at least 0.3, and "none" is assigned otherwise |
| `Classifier.ThresholdInclusive` | NeuroSorterLibrary/Sorter.cs:149 | whenever the ranking succeeds and the top tracked score is exactly 0.3, the predicted label is kept |
| `Classifier.ThresholdBoundaryExample` | NeuroSorterLibrary/Sorter.cs:149 | on the scores `[0.3, 0.25, 0.2]` the predicted label is kept |
| `Classifier.Sorter.constructor` | NeuroSorterLibrary/Sorter.cs:26-39 | a sorter holds the loaded engine and slot names, with no sorted list and no ranking yet |
| `Classifier.Sorter.ConvertToSortedFiles` | NeuroSorterLibrary/Sorter.cs:46-63 | a null or empty input throws "Function ConvertToSortedFiles: wrong inputs"; otherwise one unlabelled record per path, same length and order, each named by the path's last segment |
| `Classifier.Sorter.GetIndexesOfTopThreeScores` | NeuroSorterLibrary/Sorter.cs:89-125 | the loop's three variables follow `Scan`; the indices are 0, 0, 0 for fewer than three scores and the `IndexOf` of the tracked values otherwise |
| `Classifier.Sorter.GetBestThreePredictions` | NeuroSorterLibrary/Sorter.cs:68-87 | returns `BestThree` of the scores, building the entries in order with the slot lookup before the score read, and stores them in `_fullPredictions` only when no check throws |
| `Classifier.Sorter.PredictOne` | NeuroSorterLibrary/Sorter.cs:133-140 | ranks only the last `\`-segment of the path, with no threshold applied |
| `Classifier.Sorter.PredictAll` | NeuroSorterLibrary/Sorter.cs:141-155 | null or empty input throws and changes nothing; otherwise the list keeps input length and order, the paths before the first throwing one are labelled by `Classify` and the rest are not, and the result is the list when none throws |

## Left out

- ML.NET training (`BuildAndTrainModel`: key mapping, text featurisation, the trainers, cross-validation, `Fit`, `Model.Save`). It is a foreign library, so it is the parameter `train`. The strategy switch's `default` case, reached only by casting an undeclared integer to the enum, is not modelled.
- Model loading and scoring (the `Sorter` constructor's `Model.Load` and `CreatePredictionEngine`, and `Predict`). These are foreign calls, so they are the constant `engine`.
- Slot-name retrieval (`GetSlotNames`), which is a foreign call. The names are the constant `slotNames`. `GetItemOrDefault` is modelled only by its index check, which comes before the `scores[i]` read.
- File-system effects (`Directory.Exists`, `Directory.GetFiles`, `File.Exists`, `File.WriteAllText`). These are inputs or fields: the dataset text is returned and stored in `dataSetFile`. A failing `WriteAllText` is not modelled. Nor is a `Directory.GetFiles` that throws on an existing but unreadable directory (an I/O or access error). In `BuildDataSet` that would be rethrown with the `BuildDataset: ` prefix, and in `GetInputFiles` it would reach `Errors` through `BuildModel`.
- `GetAbsolutePath`, `SetupConfiguration`, `GetModelPath` and `GetDataSetPath` (assembly location, `Path.Combine`). These are configuration plumbing with no logic to prove. Their exceptions are not modelled.
- `Console.WriteLine` output.
- The unused static list `SortedFiles` in `BuilderModel`, which no code reads or writes.
- IEEE single-precision rounding and NaN. Scores are reals, compared with the source's operators, and 0.3 is exact.
- Null values inside the inputs, because the sequences here hold strings only. The null input list of `ConvertToSortedFiles` and `PredictAll` is modelled, as `None`. The code behaves as follows on the rest:
  - A null sorted directory fails `Directory.Exists` and is skipped, the same as a directory absent from the file-system map.
  - A null directory list makes `Count()` throw inside `BuildDataSet`. The exception is rethrown with the `BuildDataset: ` prefix and reaches `Errors`.
  - A null unsorted path makes `Split` throw in the list overload of `GetInputFiles`. The exception goes straight to `Errors`, and the names appended before it stay in `InputFiles`.
  - A null `inputDir` fails `Directory.Exists`. It throws the missing-directory message with an empty name.
  - A null path given to `ConvertToSortedFiles` makes `Split` throw. The exception is rethrown as `Function ConvertToSortedFiles`, and `PredictAll` stops there.
  - A null `fullFileName` makes `Split` throw in `PredictOne`.
- A null `unsortedFiles` passed to the list overload of `BuildModel`. `files.Count()` would throw, and the exception would land in `Errors`. `BuildModelFromList` takes a sequence, so this path is not modelled.
- Exceptions are modelled by their messages only. The message of `GetItemOrDefault`'s argument check is written as .NET's standard `ArgumentOutOfRangeException` text for a parameter named `slot`; ML.NET's own code is not part of this model, so that text is not taken from it. `BuildDataSet`'s rethrow keeps only the inner exception of the caught exception; that chaining is not represented.
- Aliasing: `PredictAll` returns the very list held in `_sortedFiles`, and its `SortedFile` objects are mutated in place. The model holds the list as a value in the field `sortedFiles` and returns an equal value.
- `Classifier.Sorter.GetIndexesOfTopThreeScores` takes no separate length `n`. Its one caller passes `scores.Length`.
