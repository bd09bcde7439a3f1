# SWAT-Copilot core, modelled in Dafny

SWAT-Copilot is an assistant for SWAT (Soil and Water Assessment Tool) hydrological
projects. This project models its core: reading a project directory and its output
files, and the three services built on top of them.

The model covers:

- **The space-table reader** (`read_space_table`). It reads headerless
  whitespace-separated tables. Blank and short lines are dropped, long lines are cut,
  and each column is converted to numbers when all of its cells are numbers.
- **The two project-directory views** (`SWATProject` in `core/projects.py` and in
  `io/swat_project.py`). Each provides the subbasin table, the HRU file table and
  the summary counts.
- **The output datasets** (`OutputData` and its reach, subbasin and HRU variants)
  and the water-balance record.
- **The file readers** (`ControlFileReader`, `OutputReader`).
- **The services**:
  - `AnalysisService`: statistics, water balance, time series;
  - `SummarizeService`: file counts, size, output summary, project summary;
  - `ProjectManager`: current project, validation, quick info.

A pandas DataFrame is a `Table`: column names and rows of cells. A cell is an
integer, a text or a missing value. A cell read past the end of a row is missing.
The filesystem is a snapshot value (`Files.Disk`). Paths are normalised strings and
`resolve` is a function the snapshot carries.

Three things enter as function-valued parameters because they are not part of this
model:

- pandas `read_csv` (`Readers.Parser`);
- the project locator, `SWATProjectLocator.is_swat_project` and `scan_project_files` (`Catalog.Locator`);
- the project record's `get_file` and `has_outputs` (`Catalog.World`).

Classes whose fields the source sets are Dafny classes: the two `SWATProject`s, the
readers, the services and `ProjectManager`. Loops in the source are Dafny loops,
proved against the functions that specify them.

`src/swat_copilot/core/projects.py` imports `read_space_table` from
`swat_copilot.data_access.readers`, which does not define it. The model uses the only
definition there is, the one in `src/swat_copilot/io/readers.py`.

The services take a `SWATProject` that has a name, a path, a description, per-type
file buckets, `get_file` and `has_outputs`. The `SWATProject` of `core/projects.py`
has none of these. The model gives this project record its own type,
`Catalog.Project`.

## Model

| member | source | states |
|---|---|---|
| SpaceTable.ReadSpaceTable | src/swat_copilot/io/readers.py:4-15 | The table read from a text is `SpaceTable(text, names)`. Its properties are in the lemmas below. |
| SpaceTable.CollectRows | src/swat_copilot/io/readers.py:5-10 | The first loop collects exactly `RawRows(lines, n)`: the first `n` tokens of every non-blank line with at least `n` tokens, in line order. |
| SpaceTable.ConvertColumns | src/swat_copilot/io/readers.py:11-14 | The column-by-column conversion loop ends with every cell in its final form (`FromRaw`). The loop invariant says the columns already visited are converted and the others still hold text. |
| SpaceTable.RawRowsOfLine | src/swat_copilot/io/readers.py:5-10 | A blank line or one with fewer than `n` tokens gives no row. Any other line gives its first `n` tokens. |
| SpaceTable.RawRowsConcat | src/swat_copilot/io/readers.py:7-10 | Rows keep the order of their lines: the rows of two stacked texts are the two row lists stacked. |
| SpaceTable.RawRowsCount | src/swat_copilot/io/readers.py:5-10 | There are exactly as many rows as lines that are non-blank and have enough tokens. |
| SpaceTable.ToNumeric | src/swat_copilot/io/readers.py:12-14 | `pd.to_numeric(errors="ignore")`: when every cell denotes a number, each becomes its number. Otherwise the column is returned unchanged. |
| SpaceTable.SpaceTableShape | src/swat_copilot/io/readers.py:9-11 | The columns are the requested names, even when no line qualifies. There is one row per qualifying line, and every row has one cell per name. |
| SpaceTable.SpaceTableCell | src/swat_copilot/io/readers.py:12-14 | Conversion is per column and all or nothing. A cell is the number its token denotes when every token of its column is a number. Otherwise it is the token as text. |
| SpaceTable.RenderRoundTrip | src/swat_copilot/io/readers.py:5-10 | Rows of `n >= 1` whitespace-free tokens, written one per line, are read back exactly. |
| SpaceTable.LineRoundTrip | src/swat_copilot/io/readers.py:8-10 | One row written as a line is read back as that row. |
| Text.Tokens | src/swat_copilot/io/readers.py:8 | Every token `split()` yields is a non-empty run without whitespace. |
| Text.TokensOfJoinSpace | src/swat_copilot/io/readers.py:8 | `split()` on tokens joined by single spaces gives the tokens back. |
| Text.BlankIffNoTokens | src/swat_copilot/io/readers.py:5-9 | A line is blank (`not l.strip()`) exactly when `split()` finds no token in it. |
| Text.SplitLinesCons | src/swat_copilot/io/readers.py:5 | `splitlines()` of a line without line breaks, a newline and a rest gives that line followed by the lines of the rest. |
| Text.ParseShowInt | src/swat_copilot/core/projects.py:37 | `int()` reads back every integer written in decimal. |
| Text.Strip | src/swat_copilot/data_access/readers.py:69 | `strip()` is a slice of the text with only whitespace before and after it. It is empty exactly for blank text, and otherwise starts and ends with a non-space, so all outer whitespace is removed. |
| Text.ReadLines | src/swat_copilot/data_access/readers.py:46-47 | `readlines()` gives no lines exactly for an empty file. Every line but the last ends with its newline. |
| Text.ReadLinesCons | src/swat_copilot/data_access/readers.py:46-47 | A line without terminators followed by a newline is read first, with the newline kept. |
| Text.SliceFrom | src/swat_copilot/data_access/readers.py:48 | `xs[k:]` with Python's clamping, and counting from the end for negative `k`. |
| Text.SortNames | src/swat_copilot/core/projects.py:60 | `sorted()` gives a sorted permutation of the names. |
| Files.NameOfJoin | src/swat_copilot/core/projects.py:47 | The `name` of `root / n` is `n` for a name without separators. |
| Files.WithSuffix | src/swat_copilot/core/projects.py:60 | `glob("*" + suffix)` keeps exactly the entries ending with the suffix, each as often as it occurs. |
| Files.WithPrefix | src/swat_copilot/services/project_manager.py:111 | `glob("output.*")` keeps exactly the entries starting with `output.`. |
| Files.BeforeFirstDot | src/swat_copilot/core/projects.py:37 | `split(".")[0]` is the longest prefix without a dot. |
| Files.Stem | src/swat_copilot/core/projects.py:37 | `stem` cuts the name at its last dot when that dot is neither the first nor the last character. Otherwise it is the whole name. |
| Tables.MatchRowsMembers | src/swat_copilot/data_access/schemas.py:56 | A boolean-mask filter keeps each matching row as often as it occurs, and no other row. |
| Tables.MatchRowsConcat | src/swat_copilot/data_access/schemas.py:56 | Filtering keeps the order of the rows. |
| Tables.SortedDistinct | src/swat_copilot/data_access/schemas.py:50 | `sorted(unique())` is strictly ascending and holds exactly the values present. |
| Schemas.GetColumn | src/swat_copilot/data_access/schemas.py:27-31 | Some exactly when the name is a variable. The column has one cell per row, in row order. |
| Schemas.SummaryOf | src/swat_copilot/data_access/schemas.py:33-40 | The summary agrees with `shape`, `variables` and the file path. |
| Schemas.SpatialIds | src/swat_copilot/data_access/schemas.py:47-51 | The ID list is strictly ascending and holds exactly the integer IDs in the ID column. It is empty without that column. The subbasin (64-68) and HRU (81-85) variants are the same. |
| Schemas.RowsFor | src/swat_copilot/data_access/schemas.py:53-57 | A table with no columns when the ID column is absent. Otherwise the same columns, holding exactly the rows whose ID is the one asked for. The same holds for lines 70-74 and 87-91. |
| Schemas.IdsMatchRows | src/swat_copilot/data_access/schemas.py:47-57 | An ID is listed exactly when asking for its data gives at least one row. |
| Schemas.RowsForStacked | src/swat_copilot/data_access/schemas.py:53-57 | Filtering by ID commutes with stacking rows, so order is kept. |
| Schemas.BalanceError | src/swat_copilot/data_access/schemas.py:116-119 | Error, outflow and storage change add up to precipitation. The error is zero exactly when the balance closes. |
| Schemas.PercolationExcluded | src/swat_copilot/data_access/schemas.py:106-119 | Percolation changes neither the total outflow nor the balance error. |
| Readers.ControlFileReader.Open | src/swat_copilot/data_access/readers.py:20-29 | Construction succeeds exactly when the path exists, and otherwise fails with file-not-found. |
| Readers.ReadLinesFrom | src/swat_copilot/data_access/readers.py:36-48 | Fails exactly when the path is not a readable file. Otherwise the result is a suffix of the file's lines, with `len - skip` lines for a non-negative skip. |
| Readers.ControlParams | src/swat_copilot/data_access/readers.py:61-73 | No parameters for fewer than 10 lines. Otherwise exactly the three keys: the stripped first line and the two flags set. |
| Readers.ControlFileReader.Read | src/swat_copilot/data_access/readers.py:54-73 | Fails exactly when the file cannot be opened. Otherwise the result is `ControlParams` of the file's lines. |
| Readers.KindOf | src/swat_copilot/data_access/readers.py:106-113 | Each of the three names selects its variant, and every other name the base variant. |
| Readers.OutputReader.Open | src/swat_copilot/data_access/readers.py:79-95 | Defaults are `"reach"` and 9. Succeeds exactly when the path exists, and keeps path, kind and skip. |
| Readers.ParsedTable | src/swat_copilot/data_access/readers.py:115-136 | An empty table when reading or parsing fails, otherwise the parsed table. |
| Readers.OutputReader.Read | src/swat_copilot/data_access/readers.py:97-113 | The variant named by the kind, around the parsed table and this reader's path. |
| Readers.OutputReader.GetVariable | src/swat_copilot/data_access/readers.py:138-151 | Some exactly when the variable is a column, and then that column. |
| Readers.OutputReader.GetTimeSeries | src/swat_copilot/data_access/readers.py:153-181 | The reach filter takes precedence over the HRU filter, and each applies only when its column exists. The result is None exactly when the variable is absent or no row is left. Otherwise it is the variable's cells of the remaining rows. |
| CoreProjects.SwatProject.PostInit | src/swat_copilot/core/projects.py:19-22 | The root becomes its resolved form, and the existence check is made on that form. |
| CoreProjects.SwatProject.FromPath | src/swat_copilot/core/projects.py:24-26 | A project on the resolved root exactly when that path exists, otherwise file-not-found on it. |
| CoreProjects.SwatProject.IterFiles | src/swat_copilot/core/projects.py:59-60 | The names are sorted and are exactly the root's entries ending with the suffix, each as often as it occurs. |
| CoreProjects.SwatProject.ReadSub | src/swat_copilot/core/projects.py:28-42 | The result is `ProjectDirs.SubTable`. The three lemmas below describe it. |
| CoreProjects.SwatProject.ReadHru | src/swat_copilot/core/projects.py:44-47 | The HRU table of the sorted `*.hru` entries. |
| CoreProjects.SwatProject.Summary | src/swat_copilot/core/projects.py:49-57 | Fails exactly when `read_sub` fails. Otherwise it holds the root's name and the two counts, 0 for an empty table. |
| ProjectDirs.SortedMatches | src/swat_copilot/core/projects.py:59-60 | The sorted `glob` result is a sorted permutation of the matching entries. |
| ProjectDirs.SubIdOfNumbered | src/swat_copilot/core/projects.py:37 | A file named `<n>.<ext>` yields the subbasin ID `n`. |
| ProjectDirs.RecordOf | src/swat_copilot/core/projects.py:36-40 | A name gives the record `(id, None)` exactly when its prefix parses to `id`. Otherwise it gives nothing. |
| ProjectDirs.CollectSubRows | src/swat_copilot/core/projects.py:34-40 | The fallback loop collects exactly `SubRows(names)`. |
| ProjectDirs.RecordsConcat | src/swat_copilot/core/projects.py:35-40 | Records keep the order of the names. |
| ProjectDirs.RecordsMembers | src/swat_copilot/core/projects.py:34-40 | There is a record for `id` exactly when some name's prefix parses to `id`. |
| ProjectDirs.SubTableIgnoresEntries | src/swat_copilot/core/projects.py:30-32 | When `TablesOut/sub.txt` exists, the root's other entries do not affect the subbasin table. |
| ProjectDirs.SubTableFromFile | src/swat_copilot/core/projects.py:30-32 | When `sub.txt` is a file, the table has columns `SUB`, `AREA_KM2` and one row per qualifying line. |
| ProjectDirs.SubTableFallback | src/swat_copilot/core/projects.py:34-42 | Without `sub.txt`, the rows are the records of the sorted `*.sub` names. The table has the two columns exactly when some record exists. A record exists for an ID exactly when some name parses to it. |
| ProjectDirs.HruTable | src/swat_copilot/core/projects.py:47 | One `HRU_FILE` column and one row per entry. |
| ProjectDirs.HruTableNames | src/swat_copilot/core/projects.py:47 | Row `k` is the `k`-th entry name itself. |
| ProjectDirs.HruTableOrder | src/swat_copilot/core/projects.py:46-47 | Sorting the entries first changes only the order of the rows: same count, same rows. |
| ProjectDirs.HruRowsFrom | src/swat_copilot/core/projects.py:46-47 | Two name lists holding the same names equally often list the same rows. |
| ProjectDirs.SummaryCounts | src/swat_copilot/core/projects.py:49-57 | `project` is the root's name and `n_hru` the number of HRU entries. Without `sub.txt`, `n_sub` is the number of parsable `*.sub` names. |
| IoProject.SwatProject.constructor | src/swat_copilot/io/swat_project.py:6-7 | The stored root is the resolved one. |
| IoProject.SwatProject.Open | src/swat_copilot/io/swat_project.py:6-9 | A project exactly when the resolved root exists, otherwise file-not-found on it. |
| IoProject.SwatProject.ReadSub | src/swat_copilot/io/swat_project.py:10-21 | The same subbasin table as the other view (`ProjectDirs.SubTable`). |
| IoProject.SwatProject.ReadHru | src/swat_copilot/io/swat_project.py:22-24 | One `HRU_FILE` column. Row `k` is the name of the `k`-th `*.hru` entry in directory order. |
| IoProject.SwatProject.Summary | src/swat_copilot/io/swat_project.py:25-32 | Fails exactly when `read_sub` fails. Otherwise it holds the root's name and the two counts. |
| IoProject.SwatProject.AgreesWithCore | src/swat_copilot/io/swat_project.py:22-24 | This HRU table has the same rows, as many of them, as the sorted one of `core/projects.py`. |
| Catalog.AllFiles | src/swat_copilot/services/summary.py:111-112 | A file is listed exactly when some bucket holds it. |
| Analysis.FileKindFor | src/swat_copilot/services/analysis.py:171-179 | `reach` selects `output.rch`, `subbasin` selects `output.sub` and `hru` selects `output.hru`. Every other name selects no file. |
| Analysis.IdColumnFor | src/swat_copilot/services/analysis.py:191-198 | An ID column exactly for those three kinds. It is the ID column of the variant the same name selects. |
| Analysis.AnalysisService.GetOutputData | src/swat_copilot/services/analysis.py:169-189 | `OutputDataOf`: None for an unknown kind, a missing file or a path that does not exist. Otherwise the dataset read with the default skip. |
| Analysis.AnalysisService.GetVariableStatistics | src/swat_copilot/services/analysis.py:24-67 | Not-found exactly when there is no data or no such variable, and fails on text cells. Otherwise it gives the count of the selected series and its true minimum and maximum, present exactly when the series has a number. |
| Analysis.StatSeriesFallback | src/swat_copilot/services/analysis.py:49-55 | When the spatial filter keeps no row, which is exactly where the time series gives None, the statistics use the whole column. The series is never empty for a non-empty table, and it holds only the column's own cells. |
| Analysis.StatsMatchTimeSeries | src/swat_copilot/services/analysis.py:153-157 | When the strict filter keeps a row, statistics and time series use the same rows. |
| Analysis.MinOf | src/swat_copilot/services/analysis.py:62 | The minimum is in the list and below every element. |
| Analysis.MaxOf | src/swat_copilot/services/analysis.py:63 | The maximum is in the list and above every element. |
| Analysis.SumColumn | src/swat_copilot/services/analysis.py:125 | `series.sum()` is 0 for a column without numbers. |
| Analysis.SumColumnConcat | src/swat_copilot/services/analysis.py:125 | Sums add over stacked cells. |
| Analysis.FirstPresent | src/swat_copilot/services/analysis.py:121-126 | Some exactly when an alias is a column. Then it is the first alias that is. |
| Analysis.AnalysisService.ComponentEntry | src/swat_copilot/services/analysis.py:121-126 | The inner loop with `break` gives the component's `BalanceEntry`. |
| Analysis.AnalysisService.CalculateWaterBalance | src/swat_copilot/services/analysis.py:95-128 | Fails with "No output data available" exactly when there is no dataset. Otherwise the result is `Balance` over the six components in order. |
| Analysis.BalanceStep | src/swat_copilot/services/analysis.py:120-126 | Each component adds its own entry at the end. |
| Analysis.BalanceEntryMeaning | src/swat_copilot/services/analysis.py:120-126 | A component has an entry exactly when one of its aliases is a column. The entry sums the first such alias. |
| Analysis.BalanceEntries | src/swat_copilot/services/analysis.py:119-128 | The balance holds the components' entries and nothing else. |
| Analysis.BalanceKeys | src/swat_copilot/services/analysis.py:110-117 | Every key is one of the six component names. |
| Analysis.StrictRows | src/swat_copilot/services/analysis.py:154-157 | The time-series filter never adds rows. |
| Analysis.AnalysisService.GetTimeSeries | src/swat_copilot/services/analysis.py:130-167 | None exactly when there is no data, the variable is absent, or the strict filter keeps no row. Otherwise the kept rows under the time columns and the variable. |
| Analysis.TimeColumns | src/swat_copilot/services/analysis.py:163-165 | The selected columns all exist. |
| Analysis.TimeColumnsShape | src/swat_copilot/services/analysis.py:163-165 | The selected columns are `MON`, `YEAR` and `DAY`, each where present and in that order, then the variable. |
| Analysis.PresentMembers | src/swat_copilot/services/analysis.py:165 | A name is kept exactly when it is a column. |
| Summary.SummarizeService.CountFilesByType | src/swat_copilot/services/summary.py:100-106 | The loop computes `FileCounts` of the buckets. |
| Summary.FileCountsMeaning | src/swat_copilot/services/summary.py:100-106 | A type is counted exactly when its bucket is non-empty, and its count is the bucket's length. |
| Summary.FileCountsTags | src/swat_copilot/services/summary.py:103-105 | Every counted type is the tag of some bucket. |
| Summary.SummarizeService.CalculateProjectSize | src/swat_copilot/services/summary.py:108-114 | The nested loops compute `TotalBytes`. |
| Summary.TotalBytesOfAllFiles | src/swat_copilot/services/summary.py:110-113 | The size is the sum over every file of every bucket. |
| Summary.SizeSumConcat | src/swat_copilot/services/summary.py:112-113 | Sizes add over concatenation. |
| Summary.SummarizeService.ReadEntry | src/swat_copilot/services/summary.py:75-96 | No entry without a file of that type. Otherwise a loaded entry with shape and variables, or the file-not-found error entry. |
| Summary.SummarizeService.GetOutputSummary | src/swat_copilot/services/summary.py:49-98 | Without outputs, the empty summary. Otherwise the entries for reach, subbasin and HRU in that order, with `variables` built from the loaded entries. |
| Summary.EntryList | src/swat_copilot/services/summary.py:74-96 | At most one entry per type, carrying that type. |
| Summary.EntriesStep | src/swat_copilot/services/summary.py:74-96 | Each type appends its own entry at the end. |
| Summary.VariablesStep | src/swat_copilot/services/summary.py:88 | Only a loaded entry records variables. |
| Summary.EntriesFollowKinds | src/swat_copilot/services/summary.py:68-96 | At most one entry per type. Each entry carries the type and path of an existing file of that type. |
| Summary.EntryFor | src/swat_copilot/services/summary.py:75-96 | An entry exactly when the kind has a file. The entry carries the output type and that file's path. |
| Summary.EntriesCoverKinds | src/swat_copilot/services/summary.py:74-96 | Every kind with a file gets its entry in the list. |
| Summary.EntriesConcat | src/swat_copilot/services/summary.py:74-96 | The entries of two lists of kinds are the first list's entries followed by the second's, so entries keep the kinds' order. |
| Summary.EntriesDistinct | src/swat_copilot/services/summary.py:68-88 | Types with distinct names give entries with distinct types. |
| Summary.VariablesOfLoaded | src/swat_copilot/services/summary.py:88 | With distinct types, a type's variables are recorded exactly when its entry loaded, and they are that entry's variables. |
| Summary.OutputVariablesMeaning | src/swat_copilot/services/summary.py:68-88 | In the output summary, `variables` holds a type exactly when its file was read, with that file's variables. |
| Summary.SummarizeService.GetProjectSummary | src/swat_copilot/services/summary.py:22-47 | Name, path, description, counts, size and outputs flag come from the project. Control parameters are present exactly when a control file exists and can be read, and are then that file's `ControlParams`. |
| ProjectManagement.ProjectManager.constructor | src/swat_copilot/services/project_manager.py:13-16 | A fresh manager has no current project. |
| ProjectManagement.ProjectManager.LoadProject | src/swat_copilot/services/project_manager.py:23-51 | A path the locator refuses fails with "Not a valid SWAT project: <path>" and leaves the current project unchanged. Otherwise the new project, named after the path's last segment, with description "SWAT project at <path>" and the scanned files, replaces the current one. |
| ProjectManagement.ProjectManager.ValidateProject | src/swat_copilot/services/project_manager.py:77-115 | Three checks in order: exists, is a directory, is a project. The first failing check is the only error. Valid exactly when all pass, which is exactly when there are no errors. The warning appears only for a valid project without `output.*` entries. |
| ProjectManagement.ProjectManager.GetProjectInfo | src/swat_copilot/services/project_manager.py:117-142 | For a missing path, only path, name, `exists` = false and `is_valid` = false. Otherwise also the locator's verdict, the number of scanned files, and whether some non-empty bucket has an `output_` type. |
| ProjectManagement.FileCount | src/swat_copilot/services/project_manager.py:137 | The per-bucket lengths add up to the number of all files. |
| ProjectManagement.HasOutputs | src/swat_copilot/services/project_manager.py:138-140 | True exactly when some non-empty bucket's tag starts with `output_`. |
| ProjectManagement.InfoAgreesWithCounts | src/swat_copilot/services/project_manager.py:138-140 | With distinct tags, the quick info has outputs exactly when some `output_` type appears in the summary's file counts. |

## Left out

- Floating point is not modelled. Cell values, sums and sizes are exact integers.
- Analysis.AnalysisService.GetVariableStatistics: gives count, min and max but not mean, std, median or the quartiles (floating point). An empty series has no min or max where pandas gives NaN.
- Analysis.AnalysisService.CalculateWaterBalance: sums only the integer cells of a column; pandas would concatenate or raise on text cells.
- Schemas.BalanceError: computed over integers instead of floats.
- Summary.SummarizeService.GetProjectSummary: reports the size in bytes, not rounded megabytes.
- Text.ParseInt: number recognition (`int()`, `pd.to_numeric`) covers an optional sign and ASCII digits around whitespace. It does not cover decimals, exponents, `inf`/`nan`, underscores or non-ASCII digits.
- `pd.read_csv` inside `_read_to_dataframe` is a parameter (`Readers.Parser`). Its failure gives the empty table, and its error message (`print`) is left out.
- The locator and file classifier (`SWATProjectLocator`, `SWATFileType`, `SWATFile`) are not part of this model. Their verdicts enter as `Catalog.Locator` and `Catalog.World`.
- Filesystem effects (`exists`, `is_dir`, `glob`, `resolve`, file sizes, text decoding with `errors="ignore"`) are inputs taken from the `Files.Disk` snapshot. Sorting compares names by code point.
- Duplicate column names are not modelled. A name refers to its first column.
- Schemas.SpatialIds: lists only the integer cells of the ID column. `unique().tolist()` also lists text and missing IDs, and `sorted` raises on a mix of text and numbers. The model does not capture either.
- ID columns match only integer cells. Text in an ID column never matches an integer ID.
- The "Could not extract" answer of `get_variable_statistics` and the `available_cols` empty case of `get_time_series` cannot occur in the source: the variable is known to be a column. The model has no such branch.
- `ProjectManager.find_projects` and the settings are left out. They delegate to the locator's depth-bounded search and read environment variables.
- `compare_scenarios`, `SubbasinFileReader` and `HRUFileReader` are left out. They are placeholders returning constants.
- The `current_project` property is the `currentProject` field itself.
- Transport, CLI, API, plotting and the language-model integrations are outside the core.
