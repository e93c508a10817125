# NIST scattering-factor table converter, modelled in Dafny

This project models `test/reference/convert_nist_data.py` of XRayLabTool. That script
turns raw NIST X-ray scattering-factor tables into JSON and CSV reference fixtures. The
tables follow the layout of the NIST X-ray Form Factor, Attenuation and Scattering
Tables. The model covers:

- `parse_nist_file`, the line-oriented reader. It strips each line. A line that then
  starts with `#` is a comment and can carry metadata: the atomic number after `Z =`,
  the density after `Density:` and before `g/cm3`, or a material name between the first
  `(` and the first `)`. These are tried in that order. Any other non-blank line adds one
  `(energy, f1, f2)` row, but only when its first three whitespace-separated tokens all
  convert to numbers.
- The row loop of `save_as_csv`. It writes a header `energy_keV,f1,f2` and then one row
  per index of the columns.

Files:

- `wrappers.dfy`: `Option` and `Result`.
- `py_text.dfy` (module `PyText`): the Python string operations the reader uses. These
  are `str.isspace` over Python's full whitespace set, `strip`, `startswith`, `find`,
  `in`, `split(sep)`, `split()` and slicing.
- `nist_parse.dfy` (module `NistParse`): the data model, the per-line classification
  `Classify`, and one loop step `Step`. `Run` folds `Step` over the lines and is the
  specification of the loop. The imperative code is the loop body `ScanLine`, which
  mirrors the Python branches, and the loop `ParseNistFile`.
- `nist_props.dfy` (module `NistProperties`): reference definitions written over the
  whole file. They cover the accepted rows, the first raising line, the last atomic
  number, the last density and the first material name. The lemmas prove that the loop
  agrees with them.
- `nist_csv.dfy` (module `NistCsv`): the CSV row loop and a reader that inverts it.

`float()` and `int()` are the two fields of `NumberParsers`. Each is a total function
from text to `Option`, where `None` stands for the `ValueError` Python raises. The model
does not depend on how Python converts text to numbers. A `ValueError` on a data row is
caught, and the row is skipped. A `ValueError` from the `Z =` or `Density:` conversion is
not caught, so `parse_nist_file` raises it; the model returns it as an `Err` with the
text that failed to convert.

## Model

| member | source | states |
|---|---|---|
| `NistParse.ParseNistFile` | test/reference/convert_nist_data.py:12-73 | the loop over the lines returns exactly what folding the per-line step over the file gives, and stops at the first line that raises |
| `NistParse.ScanLine` | test/reference/convert_nist_data.py:29-57 | one pass of the loop body (strip; comment metadata with `Z =` before `Density:` before parentheses; a data row appended whole or not at all) is the step `Step` |
| `NistParse.RunStopsAtError` | test/reference/convert_nist_data.py:33-35 | once a line has raised, no later line changes the outcome |
| `NistProperties.RunRaisesFirstFailure` | test/reference/convert_nist_data.py:32-35 | parsing raises if and only if some line has a malformed atomic number or density, and the error raised is the first such line's |
| `NistProperties.FirstFailureFindsAny` | test/reference/convert_nist_data.py:33-35 | the first raising line exists exactly when some line raises, and every line before it is quiet |
| `NistProperties.FirstFailureNoneIffQuiet` | test/reference/convert_nist_data.py:33-35 | nothing is raised exactly when no `Z =` or `Density:` comment fails to convert |
| `NistProperties.FirstFailureIsFirstRaising` | test/reference/convert_nist_data.py:33-35 | the error raised is that of some line, and every line before it converts |
| `NistProperties.RunColumnsAreRows` | test/reference/convert_nist_data.py:46-55 | `energy_keV`, `f1` and `f2` have one common length, the number of accepted rows, and entry i of each comes from tokens 0, 1 and 2 of the i-th accepted line in file order |
| `NistProperties.RunAtomicNumberIsLast` | test/reference/convert_nist_data.py:26-33 | the atomic number is the value on the last `Z =` comment, and stays `None` when there is no such comment |
| `NistProperties.RunDensityIsLast` | test/reference/convert_nist_data.py:26-35 | the density is the value on the last `Density:` comment without `Z =`, and stays `None` when there is none |
| `NistProperties.RunMaterialIsFirstName` | test/reference/convert_nist_data.py:25-42 | the material name is the first non-empty text between `(` and `)` on a comment with neither `Z =` nor `Density:`, and later names never replace it |
| `NistProperties.NonDataLineIsIgnored` | test/reference/convert_nist_data.py:45-57 | deleting a blank line, a line with fewer than three tokens, or a line whose first three tokens do not all convert leaves the whole result unchanged |
| `NistProperties.CommentLineAddsNoData` | test/reference/convert_nist_data.py:30-43 | deleting a comment line from a file that parses gives a file that still parses, with the same three columns |
| `NistProperties.DeletingCommentKeepsRows` | test/reference/convert_nist_data.py:31-43 | the accepted rows of a file do not change when a comment line is deleted |
| `NistProperties.AtomicNumberLineTakesPrecedence` | test/reference/convert_nist_data.py:32-36 | a comment holding `Z =` changes only the atomic number, even when it also holds `Density:` or parentheses, and raises exactly when its value does not convert |
| `NistProperties.StepReadsLine` | test/reference/convert_nist_data.py:29-57 | one step raises exactly on a malformed metadata value; otherwise it appends the line's row (if any) to all three columns and updates the metadata with last-wins and first-wins rules |
| `NistProperties.ParseNistSpec` | test/reference/convert_nist_data.py:12-73 | the returned dictionary as a whole: it raises if and only if some metadata value is malformed; otherwise the columns are the accepted rows, the metadata is the last atomic number, the last density and the first name, the description is the prefix plus that name, and the source is fixed |
| `NistCsv.SaveAsCsv` | test/reference/convert_nist_data.py:82-96 | the table is the header row `energy_keV,f1,f2` followed by exactly `len(energy_keV)` rows, where row i is `(energy_keV[i], f1[i], f2[i])` |
| `NistCsv.TableRoundTrip` | test/reference/convert_nist_data.py:88-96 | reading back a written table returns the columns it was written from |
| `NistCsv.TableOfParsedFile` | test/reference/convert_nist_data.py:88-96 | the table written for a parsed file has one header and one row per accepted data line, in file order, and reads back to the parsed columns |
| `PyText.StripRemovesOuterSpace` | test/reference/convert_nist_data.py:30 | `strip()` returns an infix with only whitespace around it, which neither starts nor ends with whitespace |
| `PyText.StripIdempotent` | test/reference/convert_nist_data.py:30 | stripping a stripped line changes nothing |
| `PyText.Find` | test/reference/convert_nist_data.py:39-40 | `find` returns the first index where the pattern occurs, or -1 (`None`) when it occurs nowhere |
| `PyText.SplitHasSecondPiece` | test/reference/convert_nist_data.py:32-35 | `split(sep)` has a piece at index 1 exactly when `sep in line`, so `split('Z =')[1]` and `split('Density:')[1]` always exist on the branches that use them |
| `PyText.SplitJoin` | test/reference/convert_nist_data.py:33-35 | joining the pieces of `split(sep)` with `sep` gives back the original text |
| `PyText.SplitPiecesAreFree` | test/reference/convert_nist_data.py:33-35 | no piece of `split(sep)` contains `sep` |
| `PyText.TokensAreWords` | test/reference/convert_nist_data.py:46 | every token of `split()` is non-empty and holds no whitespace |
| `PyText.TokensEmptyIffBlank` | test/reference/convert_nist_data.py:45-47 | `split()` returns no tokens exactly when the line is all whitespace |
| `PyText.TokensOfJoin` | test/reference/convert_nist_data.py:46 | `split()` recovers the words that `" ".join` put together |
| `PyText.Slice` | test/reference/convert_nist_data.py:42 | `line[start+1:end]` is the text between the bounds when they are in order, and empty when `end` comes first |

## Left out

- Opening and reading the raw file, `Path` handling, writing the JSON and CSV files, and `main` with its `print` calls: these are I/O. The file is given as its sequence of lines.
- `json.dump` formatting, and how `csv.writer` renders numbers and quotes fields: these are library behaviour. The CSV table is kept as a sequence of rows of cells.
- Python's `float()` and `int()` text formats, NaN and infinities: these are the abstract partial parsers in `NumberParsers`.
- The constant metadata strings (source and column descriptions) are carried through unchanged, and nothing is proved about their wording.
- The loop body of `parse_nist_file` is a method of its own (`ScanLine`) that takes and returns the loop's local variables, with `ParseNistFile` holding the loop. This keeps each proof small; the branches and their order are those of the source.
- The X-ray optics engine of the repository (formula parsing, interpolation, the coefficient kernel and the parallel batch orchestrator) is not part of this model.
