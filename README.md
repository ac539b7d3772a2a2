# File sorter model

A Dafny model of the sorter in `src/file_sorter/mod.rs`. The sorter copies every regular file found directly
inside a source directory into a folder under a target directory. The folder is chosen by the file's
lower-cased extension. HTML files (`html` or `htm`) go one level deeper, into `html/<category>`. The category
comes from the file's stem, or, when no stem rule applies, from its content. Every copy is recorded in a
`SortingReport`. The report maps the key `"<extension> -> <folder>"` to the names of the files placed there, and
keeps a running total.

Modules:

- `Wrappers`: `Option` and `Result`.
- `Text`: lower-casing, `starts_with` and `contains` on strings. `Contains` is characterised by an explicit
  occurrence index.
- `HtmlCategories`: the five categories, their folders and the two-stage categoriser.
- `Reports`: the report as a class whose methods update its map and its counter. Its invariant `Valid()` says
  that the total equals the number of names listed. `Grouped` is the closed form of recording a sequence of
  placements, starting from an empty report.
- `FileSorting`: the target folder of a file, the per-file step, the loop over the directory listing and the
  whole run.

The filesystem is a parameter. A `SourceDir` says whether the target root can be created, whether the source
can be listed, and what the listing yields. Each listed item is either an entry or an error. An entry carries:

- whether it is a regular file;
- its name, stem and extension, as text when they are text;
- its content, given as `""` when it cannot be read as UTF-8 text;
- the fate of its copy: the copy succeeds, creating the folder fails, or the copy fails.

The run returns the effects it performed, in order, next to the report or the error.

The loop (`SortListing`) is proved against `RunFrom`, a tail-recursive reading of the source's `for` loop with
its `?` early returns. `RunFromMatchesExpected` then proves that `RunFrom` agrees with a closed form:

- the run stops at the first failing item, after that item's effects;
- without a failure, the report lists the placements of all regular files in listing order under their keys;
- the total is the number of regular files.

`SortFiles` states that outcome directly.

## Model

| member | source | states |
|---|---|---|
| HtmlCategories.FolderName | src/file_sorter/mod.rs:129-137 | every category's folder is one non-empty path segment (no `/`) |
| HtmlCategories.FolderNameRoundTrip | src/file_sorter/mod.rs:185-189 | the folder names are exactly index, templates, components, pages and other: `CategoryOfFolder` recovers each category from its folder, and only from it |
| HtmlCategories.FolderNameInjective | src/file_sorter/mod.rs:129-137 | two categories share a folder if and only if they are the same category |
| HtmlCategories.DetectByContent | src/file_sorter/mod.rs:112-124 | the content never yields Index |
| HtmlCategories.ContentRulesInOrder | src/file_sorter/mod.rs:115-123 | on the lower-cased content, the result is Template iff it mentions template/layout; Component iff not that and it mentions component/widget; Page iff neither and it has both `<html` and `<head`; otherwise Unknown |
| HtmlCategories.DetectByContentIgnoresCase | src/file_sorter/mod.rs:113 | the content is compared without regard to case: lower-casing it first changes nothing |
| HtmlCategories.EmptyContentIsUnknown | src/file_sorter/mod.rs:113-122 | unreadable (empty) content under a stem that no name rule matches gives Unknown |
| HtmlCategories.CategoryOfName | src/file_sorter/mod.rs:98-101 | the stem rules alone: they give Index exactly for index, home and main, and never give Page or Unknown (those come only from the content) |
| HtmlCategories.Detect | src/file_sorter/mod.rs:91-109 | `detect_html_category`: the lower-cased stem (or "" without one) is tried first, then the content; the result is Index if and only if there is a stem that lower-cases to index, home or main |
| HtmlCategories.IndexNameWins | src/file_sorter/mod.rs:92-99 | a stem that lower-cases to index, home or main gives Index, whatever the content |
| HtmlCategories.IndexOnlyFromName | src/file_sorter/mod.rs:98-104 | Index arises only from such a stem |
| HtmlCategories.NameRulesPrecedeContent | src/file_sorter/mod.rs:98-101 | a stem naming a template or layout gives Template, and then one naming a component (or beginning with comp_) gives Component, whatever the content |
| HtmlCategories.ContentDecidesOnlyWithoutNameRule | src/file_sorter/mod.rs:98-106 | the content decides exactly when no stem rule applies; otherwise the content is irrelevant |
| HtmlCategories.NoStemNoContentIsUnknown | src/file_sorter/mod.rs:92-95 | a file with no textual stem and no readable content is Unknown |
| Reports.ReportKey | src/file_sorter/mod.rs:156 | the key is the extension, then " -> ", then the folder, and both parts can be read back at their positions |
| Reports.Appended | src/file_sorter/mod.rs:156-159 | recording a name puts it at the end of its key's list, creating the list when absent; every other key keeps its list |
| Reports.TotalListedAppended | src/file_sorter/mod.rs:155-161 | recording one name adds exactly one to the number of names listed |
| Reports.GroupedLists | src/file_sorter/mod.rs:155-161 | after recording a sequence of placements, a key is present iff some placement has it, and its list holds those placements' names in recording order |
| Reports.GroupedTotal | src/file_sorter/mod.rs:155-161 | after recording a sequence of placements into an empty report, the number of names listed equals the number recorded |
| Reports.SortingReport.constructor | src/file_sorter/mod.rs:148-153 | a new report has no keys, a total of 0, and satisfies its invariant |
| Reports.SortingReport.AddFileMoved | src/file_sorter/mod.rs:155-161 | the name is appended under `"<extension> -> <folder>"`, the total grows by one, and the invariant that the total equals the names listed is kept |
| Reports.RecordOneFile | src/file_sorter/mod.rs:203-209 | recording test.txt under txt/txt in a new report gives a total of 1 and the single key "txt -> txt" listing test.txt |
| FileSorting.ExtensionOf | src/file_sorter/mod.rs:59-62 | the extension (or no_extension without one) is lower-cased character by character: each character is that of the input with an ASCII capital made small, so the result has no capital and the same length |
| FileSorting.TargetFolder | src/file_sorter/mod.rs:64-72 | an html/htm extension gives `html/` followed by a folder from which the detected category is recovered; any other extension is the folder itself |
| FileSorting.PlacementOf | src/file_sorter/mod.rs:55-62 | what `add_file_moved` receives at line 83: the file's lower-cased extension (`ExtensionOf`), the file name (or unknown without one), and the target folder computed from that extension, so the key is `"<extension> -> <folder>"` for HTML and other files alike |
| FileSorting.RunFrom | src/file_sorter/mod.rs:41-48 | the `for` loop with its `?` returns, from item i: the error is that of the first failing item from i on (none if there is none), and effects and count only grow |
| FileSorting.HtmlFilesGoUnderHtml | src/file_sorter/mod.rs:65-68 | an html/htm file goes to `html/` followed by its category's folder, from which the category is recovered |
| FileSorting.OtherFilesGoUnderExtension | src/file_sorter/mod.rs:69-72 | any other file goes to the folder named by its lower-cased extension, under the key "E -> E" |
| FileSorting.HtmlFolderIffHtmlExtension | src/file_sorter/mod.rs:65-72 | for an extension without `/`, the folder lies under `html/` iff the extension is html or htm |
| FileSorting.MissingExtensionFolder | src/file_sorter/mod.rs:59-62 | a file without a textual extension has the extension no_extension and goes to the folder no_extension |
| FileSorting.ExtensionIgnoresCase | src/file_sorter/mod.rs:59-65 | the extension is lower-cased before any comparison, so HTML and Htm name HTML files |
| FileSorting.FirstFault | src/file_sorter/mod.rs:41-47 | the position of the first listing item that stops the run: every earlier item passes and that one fails |
| FileSorting.PlacementsFollowFiles | src/file_sorter/mod.rs:45-46 | there is one placement per regular file, in listing order |
| FileSorting.EveryFileIsListed | src/file_sorter/mod.rs:41-48 | in a run without failure, every regular file's name is listed under the key of its extension and folder |
| FileSorting.AllFilesListed | src/file_sorter/mod.rs:45 | when every item is a regular file, the files sorted are the listed entries themselves, in order |
| FileSorting.SortSingleFile | src/file_sorter/mod.rs:54-88 | folder creation then copy, stopping at the first failure with that error and its effects; on success the placement is appended to the report and counted; on failure the report is unchanged; the invariant is kept |
| FileSorting.SortItem | src/file_sorter/mod.rs:42-47 | an unreadable entry stops the run; a non-file is skipped; a file is sorted as above; a failing item leaves the report unchanged |
| FileSorting.SortListing | src/file_sorter/mod.rs:41-48 | the loop's error, effects and report are those of `RunFrom` from the report's state on entry, whether or not an item fails |
| FileSorting.RunFromMatchesExpected | src/file_sorter/mod.rs:41-50 | from a fresh report the loop stops at the first failing item after its effects; otherwise every regular file's placement is recorded in listing order and counted |
| FileSorting.SortFiles | src/file_sorter/mod.rs:32-51 | a failure creating the target root or listing the source is returned before any file is touched; otherwise the first failing item's error is returned after the effects up to it; with no failure, a fresh report lists every file's placement in order, counts every file and keeps its invariant |
| FileSorting.ThreeFileExample | src/file_sorter/mod.rs:65-83 | index.html goes to html/index, style.css to css and an empty comp_button.html to html/components, and three files are sorted |

## Left out

- Paths are not modelled. Each entry's name, stem and extension, as `Path::file_name`, `file_stem` and
  `extension` would give them, are inputs. Joining them to the target root is not modelled either. The effects
  name folders relative to the target root.
- `create_dir_all` is modelled as one effect per folder. Intermediate directories such as `html` are not
  listed separately, and neither is the case where the folder already exists. A failed `create_dir_all`
  (mod.rs:36 for the target root, mod.rs:76 for a destination folder) is modelled as having no effect. It makes
  the parent folders one at a time, so it may leave some of the folders it made (for example `html` without
  `html/pages`).
- A failed copy is modelled as leaving only its destination folder (`CopyFails` has the effect `MadeDir` alone). `fs::copy`
  creates or truncates the destination file before writing, so a copy that fails part-way (a full disk, say) may
  leave an empty or partial file there, or may have overwritten a file already at that path. The effects do not
  record that.
- "Moved" files are copies (`fs::copy`). The model likewise never removes a source file.
- The `Moved ... -> ...` line printed per file and `SortingReport::print_summary` are left out as output only.
  HashMap iteration order is left out with them: the report is a map, so it has no order.
- `FileSorter::new` and its test only store the two paths, which the model takes as the `SourceDir` parameter.
- Text.ToLower: lower-cases ASCII capitals only, where Rust's `to_lowercase` covers all of Unicode. This cannot
  change a category. Every keyword is ASCII and contains no `k`. The only non-ASCII capitals that lower-case to
  ASCII are the Kelvin sign (to `k`) and the dotted capital I (to `i` followed by a combining dot, which no
  keyword contains). It can change an extension folder name that contains other non-ASCII capitals.
- SortingReport.AddFileMoved: `total_files` is a `usize`, and the model uses an unbounded `nat`. Overflow would
  need more than 2^64 files.
- SortSingleFile: the source reads the content only when no stem rule applies, and ignores a read error
  (`unwrap_or_default`). The model takes the content as an input, so reading it can have no effect and cannot
  fail, as in the source.
