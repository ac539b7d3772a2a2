/**
 * The sorter: every regular file directly inside the source directory is
 * copied into a destination folder chosen by its lower-cased extension (and,
 * for HTML, by its category), and each copy is recorded in a report. The
 * filesystem is abstracted: a SourceDir says which operations succeed and what
 * the listing yields, and the run returns the effects it performed.
 */
module FileSorting {
  import opened Wrappers
  import opened Text
  import opened HtmlCategories
  import opened Reports

  /** The extension used for a file whose path has none (or one that is not text). */
  const NoExtension: string := "no_extension"

  /** The name used for a file whose path has no name that is text. */
  const UnknownName: string := "unknown"

  /** What becomes of the filesystem operations on one file. */
  datatype FileFate =
    | Copies          // its destination folder is created and the copy succeeds
    | CreateDirFails  // creating its destination folder fails
    | CopyFails       // the folder is created, the copy fails (a partial destination file is not modelled)

  /**
   * A directory entry as the sorter sees it: whether the path is a regular
   * file, its name, stem and extension as text when they are, its content as
   * text ("" when it cannot be read as text) and the fate of its copy.
   */
  datatype DirEntry = DirEntry(
    isFile: bool,
    fileName: Option<string>,
    stem: Option<string>,
    extension: Option<string>,
    content: string,
    fate: FileFate)

  /** One item of the directory listing: an entry, or an error reading it. */
  datatype ListingItem = Listed(entry: DirEntry) | ListingError

  /** The source directory: whether the target root can be created and the source read, and the listing. */
  datatype SourceDir = SourceDir(targetCreatable: bool, readable: bool, listing: seq<ListingItem>)

  /** The operation whose failure stopped the run (the error itself carries no path, as an I/O error does not). */
  datatype IoError =
    | CreateTargetFailed
    | ReadDirFailed
    | EntryFailed
    | CreateDirFailed
    | CopyFailed

  /** A filesystem effect of the run, in the target tree. */
  datatype Effect =
    | MadeTargetDir
    | MadeDir(folder: string)
    | Copied(folder: string, fileName: string)

  /** The lower-cased extension of a file, or the sentinel when it has none. */
  function ExtensionOf(extension: Option<string>): (r: string)
    ensures IsLower(r)
    ensures |r| == |extension.GetOr(NoExtension)|
    ensures forall i :: 0 <= i < |r| ==> r[i] == LowerChar(extension.GetOr(NoExtension)[i])
  {
    ToLowerIsLower(extension.GetOr(NoExtension));
    ToLowerAt(extension.GetOr(NoExtension));
    ToLower(extension.GetOr(NoExtension))
  }

  /** The lower-cased extensions that name an HTML file, whose folder depends on its category. */
  predicate IsHtmlExtension(extension: string) {
    extension == "html" || extension == "htm"
  }

  /** The destination folder, relative to the target root, for a file with this lower-cased extension. */
  function TargetFolder(extension: string, stem: Option<string>, content: string): (folder: string)
    ensures IsHtmlExtension(extension) ==>
      && StartsWith(folder, "html/")
      && CategoryOfFolder(folder[|"html/"|..]) == Some(Detect(stem, content))
    ensures !IsHtmlExtension(extension) ==> folder == extension
  {
    if IsHtmlExtension(extension) then "html/" + FolderName(Detect(stem, content))
    else extension
  }

  /** What the report records for a file: its extension, its destination folder and its name. */
  function PlacementOf(e: DirEntry): (m: Moved)
    ensures m.extension == ExtensionOf(e.extension)
    ensures e.fileName.Some? ==> m.fileName == e.fileName.value
    ensures e.fileName.None? ==> m.fileName == UnknownName
    ensures m.folder == TargetFolder(m.extension, e.stem, e.content)
  {
    var extension := ExtensionOf(e.extension);
    Moved(extension, TargetFolder(extension, e.stem, e.content), e.fileName.GetOr(UnknownName))
  }

  /** An HTML file goes to "html/" followed by its category's folder, from which the category is recovered. */
  lemma HtmlFilesGoUnderHtml(e: DirEntry)
    requires IsHtmlExtension(ExtensionOf(e.extension))
    ensures var category := Detect(e.stem, e.content);
      && PlacementOf(e).folder == "html/" + FolderName(category)
      && CategoryOfFolder(PlacementOf(e).folder[|"html/"|..]) == Some(category)
  {
    var category := Detect(e.stem, e.content);
    assert PlacementOf(e).folder[|"html/"|..] == FolderName(category);
    FolderNameRoundTrip(category, FolderName(category));
  }

  /** Any other file goes to the folder named by its lower-cased extension, and is listed under "E -> E". */
  lemma OtherFilesGoUnderExtension(e: DirEntry)
    requires !IsHtmlExtension(ExtensionOf(e.extension))
    ensures var extension := ExtensionOf(e.extension);
      && PlacementOf(e).folder == extension
      && PlacementOf(e).Key() == extension + " -> " + extension
  {
  }

  /**
   * For an extension without a path separator, the folder lies under "html/"
   * exactly when the extension is html or htm.
   */
  lemma HtmlFolderIffHtmlExtension(extension: string, stem: Option<string>, content: string)
    requires '/' !in extension
    ensures StartsWith(TargetFolder(extension, stem, content), "html/") <==> IsHtmlExtension(extension)
  {
    if !IsHtmlExtension(extension) && |extension| >= 5 {
      assert extension[4] in extension;
      assert extension[..5][4] != "html/"[4];
    }
  }

  /** A file without an extension takes the sentinel "no_extension" as its extension and as its folder. */
  lemma MissingExtensionFolder(stem: Option<string>, content: string)
    ensures ExtensionOf(None) == NoExtension
    ensures TargetFolder(NoExtension, stem, content) == NoExtension
  {
    NoExtensionIsLower();
    assert !IsHtmlExtension(NoExtension);
  }

  /** The sentinel is already lower case, so lower-casing keeps it. */
  lemma NoExtensionIsLower()
    ensures ToLower(NoExtension) == NoExtension
  {
    assert NoExtension == "no_" + "extension";
    assert IsLower("no_") && IsLower("extension");
    ToLowerKeepsLower(NoExtension);
  }

  /** The extension is compared without regard to case: "HTML" and "Htm" name HTML files. */
  lemma ExtensionIgnoresCase(extension: string)
    ensures ExtensionOf(Some(extension)) == ExtensionOf(Some(ToLower(extension)))
    ensures IsHtmlExtension(ExtensionOf(Some("HTML"))) && IsHtmlExtension(ExtensionOf(Some("Htm")))
  {
    ToLowerIdempotent(extension);
    assert ToLower("HTML") == "html";
    assert ToLower("Htm") == "htm";
  }

  /** The error, if any, with which placing a file fails. */
  function FileFault(e: DirEntry): Option<IoError> {
    match e.fate
    case Copies => None
    case CreateDirFails => Some(CreateDirFailed)
    case CopyFails => Some(CopyFailed)
  }

  /** The effects of placing a file: its folder is created, then it is copied there. */
  function FileEffects(e: DirEntry): seq<Effect> {
    var p := PlacementOf(e);
    match e.fate
    case Copies => [MadeDir(p.folder), Copied(p.folder, p.fileName)]
    case CreateDirFails => []
    case CopyFails => [MadeDir(p.folder)]
  }

  /** The error, if any, with which processing a listing item stops the run; entries that are not files are skipped. */
  function FaultAt(item: ListingItem): Option<IoError> {
    match item
    case ListingError => Some(EntryFailed)
    case Listed(e) => if e.isFile then FileFault(e) else None
  }

  /** The effects of processing a listing item. */
  function EffectsAt(item: ListingItem): seq<Effect> {
    match item
    case ListingError => []
    case Listed(e) => if e.isFile then FileEffects(e) else []
  }

  /** The position of the first item from `from` on that stops the run, or |listing| when none does. */
  function FirstFault(listing: seq<ListingItem>, from: nat): (i: nat)
    requires from <= |listing|
    ensures from <= i <= |listing|
    ensures forall j :: from <= j < i ==> FaultAt(listing[j]).None?
    ensures i < |listing| ==> FaultAt(listing[i]).Some?
    decreases |listing| - from
  {
    if from == |listing| then from
    else if FaultAt(listing[from]).Some? then from
    else FirstFault(listing, from + 1)
  }

  /** The regular-file entries of a listing, in listing order. */
  function FilesOf(listing: seq<ListingItem>): seq<DirEntry>
    decreases |listing|
  {
    if listing == [] then []
    else
      var item := listing[|listing| - 1];
      FilesOf(listing[..|listing| - 1]) + (if item.Listed? && item.entry.isFile then [item.entry] else [])
  }

  /** The placements of the regular files of a listing, in listing order. */
  function Placements(listing: seq<ListingItem>): seq<Moved>
    decreases |listing|
  {
    if listing == [] then []
    else
      var item := listing[|listing| - 1];
      Placements(listing[..|listing| - 1]) + (if item.Listed? && item.entry.isFile then [PlacementOf(item.entry)] else [])
  }

  /** There is one placement per regular file, and the k-th placement is that of the k-th file. */
  lemma {:induction false} PlacementsFollowFiles(listing: seq<ListingItem>)
    ensures |Placements(listing)| == |FilesOf(listing)|
    ensures forall k :: 0 <= k < |FilesOf(listing)| ==> Placements(listing)[k] == PlacementOf(FilesOf(listing)[k])
    decreases |listing|
  {
    if listing != [] {
      PlacementsFollowFiles(listing[..|listing| - 1]);
    }
  }

  /** Listing one more item adds its file and placement at the end when it is a regular file, and nothing otherwise. */
  lemma ListingSnoc(listing: seq<ListingItem>, item: ListingItem)
    ensures FilesOf(listing + [item]) == FilesOf(listing) + (if item.Listed? && item.entry.isFile then [item.entry] else [])
    ensures Placements(listing + [item]) ==
      Placements(listing) + (if item.Listed? && item.entry.isFile then [PlacementOf(item.entry)] else [])
    ensures EffectsOf(listing + [item]) == EffectsOf(listing) + EffectsAt(item)
  {
    assert (listing + [item])[..|listing|] == listing;
  }

  /** Every regular file is listed in the report, under the key of its extension and folder. */
  lemma EveryFileIsListed(listing: seq<ListingItem>, k: nat)
    requires k < |FilesOf(listing)|
    ensures var p := PlacementOf(FilesOf(listing)[k]);
      && p.Key() in Grouped(Placements(listing))
      && p.fileName in Grouped(Placements(listing))[p.Key()]
  {
    PlacementsFollowFiles(listing);
    var ms := Placements(listing);
    NamesUnderHas(ms, k);
    GroupedLists(ms, ms[k].Key());
  }

  /** The effects of processing the items of a listing in order. */
  function EffectsOf(listing: seq<ListingItem>): seq<Effect>
    decreases |listing|
  {
    if listing == [] then []
    else EffectsOf(listing[..|listing| - 1]) + EffectsAt(listing[|listing| - 1])
  }

  /**
   * Places one file: computes its extension and destination folder, creates
   * the folder, copies the file and records it in the report. A failure
   * leaves the report as it was.
   */
  method SortSingleFile(e: DirEntry, report: SortingReport) returns (error: Option<IoError>, effects: seq<Effect>)
    modifies report
    ensures error == FileFault(e)
    ensures effects == FileEffects(e)
    ensures error.None? ==> report.filesMoved == Appended(old(report.filesMoved), PlacementOf(e).Key(), PlacementOf(e).fileName)
    ensures error.None? ==> report.totalFiles == old(report.totalFiles) + 1
    ensures error.Some? ==> report.filesMoved == old(report.filesMoved) && report.totalFiles == old(report.totalFiles)
    ensures old(report.Valid()) ==> report.Valid()
  {
    var fileName := e.fileName.GetOr(UnknownName);
    var extension := ExtensionOf(e.extension);
    var targetFolder := TargetFolder(extension, e.stem, e.content);
    if e.fate == CreateDirFails {
      return Some(CreateDirFailed), [];
    }
    effects := [MadeDir(targetFolder)];
    if e.fate == CopyFails {
      return Some(CopyFailed), effects;
    }
    effects := effects + [Copied(targetFolder, fileName)];
    report.AddFileMoved(extension, targetFolder, fileName);
    error := None;
  }

  /** The listing after a successful processing of one listing item: a file's placement is recorded. */
  function Recorded(moved: map<string, seq<string>>, item: ListingItem): map<string, seq<string>> {
    if item.Listed? && item.entry.isFile then
      var p := PlacementOf(item.entry);
      Appended(moved, p.Key(), p.fileName)
    else moved
  }

  /** Processing the listing up to item i + 1 records item i on top of what the earlier items recorded. */
  lemma RecordedStep(listing: seq<ListingItem>, i: nat)
    requires i < |listing|
    ensures Grouped(Placements(listing[..i + 1])) == Recorded(Grouped(Placements(listing[..i])), listing[i])
    ensures |FilesOf(listing[..i + 1])| == |FilesOf(listing[..i])| + (if listing[i].Listed? && listing[i].entry.isFile then 1 else 0)
    ensures EffectsOf(listing[..i + 1]) == EffectsOf(listing[..i]) + EffectsAt(listing[i])
  {
    assert listing[..i + 1] == listing[..i] + [listing[i]];
    ListingSnoc(listing[..i], listing[i]);
    if listing[i].Listed? && listing[i].entry.isFile {
      GroupedSnoc(Placements(listing[..i]), PlacementOf(listing[i].entry));
    } else {
      assert Placements(listing[..i + 1]) == Placements(listing[..i]);
    }
  }

  /** What a run has built up so far: the report's listing and total, and the effects performed. */
  datatype Progress = Progress(moved: map<string, seq<string>>, total: nat, effects: seq<Effect>)

  /** The outcome of processing a listing: the error that stopped it, if any, and the progress made. */
  datatype RunOutcome = RunOutcome(error: Option<IoError>, progress: Progress)

  /**
   * Processes the listing from item `i` on, starting from `acc`: each item's
   * effects are added; a failing item stops the run; otherwise a regular
   * file is recorded and the run goes on with the next item.
   */
  function RunFrom(listing: seq<ListingItem>, i: nat, acc: Progress): (r: RunOutcome)
    requires i <= |listing|
    ensures var stop := FirstFault(listing, i);
      r.error == (if stop < |listing| then FaultAt(listing[stop]) else None)
    ensures acc.effects <= r.progress.effects
    ensures acc.total <= r.progress.total
    decreases |listing| - i
  {
    if i == |listing| then RunOutcome(None, acc)
    else
      var item := listing[i];
      var effects := acc.effects + EffectsAt(item);
      match FaultAt(item)
      case Some(error) => RunOutcome(Some(error), acc.(effects := effects))
      case None =>
        var total := acc.total + if item.Listed? && item.entry.isFile then 1 else 0;
        RunFrom(listing, i + 1, Progress(Recorded(acc.moved, item), total, effects))
  }

  /** The progress after the first `i` items of a listing went through without failure. */
  function ProgressAfter(listing: seq<ListingItem>, i: nat): Progress
    requires i <= |listing|
  {
    Progress(Grouped(Placements(listing[..i])), |FilesOf(listing[..i])|, EffectsOf(listing[..i]))
  }

  /**
   * The closed form of a run: it stops at the first failing item, after that
   * item's effects, and otherwise records the placements of all regular files
   * in listing order.
   */
  function Expected(listing: seq<ListingItem>): RunOutcome {
    var stop := FirstFault(listing, 0);
    if stop < |listing| then
      RunOutcome(FaultAt(listing[stop]), ProgressAfter(listing, stop).(effects := EffectsOf(listing[..stop + 1])))
    else RunOutcome(None, ProgressAfter(listing, |listing|))
  }

  /** After fault-free items, a fault-free item moves the run on to the progress after it. */
  lemma RunFromStep(listing: seq<ListingItem>, i: nat)
    requires i < |listing| && FaultAt(listing[i]).None?
    ensures RunFrom(listing, i, ProgressAfter(listing, i)) == RunFrom(listing, i + 1, ProgressAfter(listing, i + 1))
  {
    RecordedStep(listing, i);
    var item, acc := listing[i], ProgressAfter(listing, i);
    var total := acc.total + if item.Listed? && item.entry.isFile then 1 else 0;
    assert Progress(Recorded(acc.moved, item), total, acc.effects + EffectsAt(item)) == ProgressAfter(listing, i + 1);
  }

  /** A failing item stops the run, after its own effects. */
  lemma RunFromAtFault(listing: seq<ListingItem>, i: nat)
    requires i < |listing| && FaultAt(listing[i]).Some?
    ensures RunFrom(listing, i, ProgressAfter(listing, i)) ==
      RunOutcome(FaultAt(listing[i]), ProgressAfter(listing, i).(effects := EffectsOf(listing[..i + 1])))
  {
    RecordedStep(listing, i);
  }

  /** A run from a fresh report yields the closed form: whatever the failures, it agrees with Expected. */
  lemma {:induction false} RunFromMatchesExpected(listing: seq<ListingItem>, i: nat)
    requires i <= FirstFault(listing, 0)
    ensures RunFrom(listing, i, ProgressAfter(listing, i)) == Expected(listing)
    decreases |listing| - i
  {
    var stop := FirstFault(listing, 0);
    if i < stop {
      RunFromStep(listing, i);
      RunFromMatchesExpected(listing, i + 1);
    } else if i < |listing| {
      RunFromAtFault(listing, i);
    }
  }

  /** A run from an empty report, in the closed form the whole run states. */
  lemma FreshRun(listing: seq<ListingItem>)
    ensures var run, stop := RunFrom(listing, 0, Progress(map[], 0, [])), FirstFault(listing, 0);
      && (stop < |listing| ==>
            && run.error == FaultAt(listing[stop])
            && run.error.Some?
            && run.progress.effects == EffectsOf(listing[..stop + 1]))
      && (stop == |listing| ==>
            && run.error.None?
            && run.progress.moved == Grouped(Placements(listing))
            && run.progress.total == |FilesOf(listing)|
            && TotalListed(run.progress.moved) == run.progress.total
            && run.progress.effects == EffectsOf(listing))
  {
    assert listing[..0] == [];
    RunFromMatchesExpected(listing, 0);
    assert listing[..|listing|] == listing;
    PlacementsFollowFiles(listing);
    GroupedTotal(Placements(listing));
  }

  /**
   * Processes one listing item: a regular file is placed, anything else is
   * skipped, and an item that could not be read stops the run.
   */
  method SortItem(item: ListingItem, report: SortingReport) returns (error: Option<IoError>, effects: seq<Effect>)
    modifies report
    ensures error == FaultAt(item) && effects == EffectsAt(item)
    ensures error.None? ==> report.filesMoved == Recorded(old(report.filesMoved), item)
    ensures error.None? ==>
      report.totalFiles == old(report.totalFiles) + (if item.Listed? && item.entry.isFile then 1 else 0)
    ensures error.Some? ==> report.filesMoved == old(report.filesMoved) && report.totalFiles == old(report.totalFiles)
  {
    if item.ListingError? {
      return Some(EntryFailed), [];
    }
    var e := item.entry;
    if !e.isFile {
      return None, [];
    }
    error, effects := SortSingleFile(e, report);
  }

  /**
   * One step of a run, given what processing the item yielded: a failure
   * stops the run after the item's effects, otherwise the run goes on from
   * the next item with the item recorded.
   */
  lemma RunFromAdvance(listing: seq<ListingItem>, i: nat, acc: Progress, error: Option<IoError>, more: seq<Effect>,
                       moved: map<string, seq<string>>, total: nat)
    requires i < |listing|
    requires error == FaultAt(listing[i]) && more == EffectsAt(listing[i])
    requires error.None? ==>
      && moved == Recorded(acc.moved, listing[i])
      && total == acc.total + (if listing[i].Listed? && listing[i].entry.isFile then 1 else 0)
    ensures error.Some? ==> RunFrom(listing, i, acc) == RunOutcome(error, acc.(effects := acc.effects + more))
    ensures error.None? ==> RunFrom(listing, i, acc) == RunFrom(listing, i + 1, Progress(moved, total, acc.effects + more))
  {
  }

  /**
   * The loop over the listing: places every regular file in listing order and
   * skips everything else, stopping at the first failure.
   */
  method SortListing(listing: seq<ListingItem>, report: SortingReport) returns (error: Option<IoError>, effects: seq<Effect>)
    modifies report
    ensures var run := RunFrom(listing, 0, Progress(old(report.filesMoved), old(report.totalFiles), []));
      && error == run.error
      && effects == run.progress.effects
      && report.filesMoved == run.progress.moved
      && report.totalFiles == run.progress.total
  {
    ghost var run := RunFrom(listing, 0, Progress(report.filesMoved, report.totalFiles, []));
    effects := [];
    error := None;
    var i := 0;
    while i < |listing|
      invariant 0 <= i <= |listing|
      invariant error.None?
      invariant RunFrom(listing, i, Progress(report.filesMoved, report.totalFiles, effects)) == run
    {
      ghost var acc := Progress(report.filesMoved, report.totalFiles, effects);
      var more;
      error, more := SortItem(listing[i], report);
      RunFromAdvance(listing, i, acc, error, more, report.filesMoved, report.totalFiles);
      effects := effects + more;
      if error.Some? {
        return;
      }
      i := i + 1;
    }
  }

  /**
   * The whole run: creates the target root, reads the listing and sorts it
   * into a fresh report. The first failure stops the run and no report is
   * returned; the effects performed until then stay.
   */
  method SortFiles(dir: SourceDir) returns (result: Result<SortingReport, IoError>, effects: seq<Effect>)
    ensures !dir.targetCreatable ==> result == Failure(CreateTargetFailed) && effects == []
    ensures dir.targetCreatable && !dir.readable ==> result == Failure(ReadDirFailed) && effects == [MadeTargetDir]
    ensures dir.targetCreatable && dir.readable ==>
      var stop := FirstFault(dir.listing, 0);
      && (stop < |dir.listing| ==>
            && result == Failure(FaultAt(dir.listing[stop]).value)
            && effects == [MadeTargetDir] + EffectsOf(dir.listing[..stop + 1]))
      && (stop == |dir.listing| ==>
            && result.Success?
            && fresh(result.value)
            && result.value.filesMoved == Grouped(Placements(dir.listing))
            && result.value.totalFiles == |FilesOf(dir.listing)|
            && result.value.Valid()
            && effects == [MadeTargetDir] + EffectsOf(dir.listing))
  {
    var report := new SortingReport();
    if !dir.targetCreatable {
      return Failure(CreateTargetFailed), [];
    }
    if !dir.readable {
      return Failure(ReadDirFailed), [MadeTargetDir];
    }
    FreshRun(dir.listing);
    var error, more := SortListing(dir.listing, report);
    effects := [MadeTargetDir] + more;
    if error.Some? {
      return Failure(error.value), effects;
    }
    result := Success(report);
  }

  /** When every item of a listing is a regular file, the files are the listed entries themselves. */
  lemma {:induction false} AllFilesListed(listing: seq<ListingItem>)
    requires forall i :: 0 <= i < |listing| ==> listing[i].Listed? && listing[i].entry.isFile
    ensures |FilesOf(listing)| == |listing|
    ensures forall k :: 0 <= k < |listing| ==> FilesOf(listing)[k] == listing[k].entry
    decreases |listing|
  {
    if listing != [] {
      AllFilesListed(listing[..|listing| - 1]);
    }
  }

  /** The three files of the example: a full index page, a stylesheet and an empty component. */
  function ExampleIndex(): DirEntry {
    DirEntry(true, Some("index.html"), Some("index"), Some("html"), "<html><head></head><body>Home</body></html>", Copies)
  }

  function ExampleStyle(): DirEntry {
    DirEntry(true, Some("style.css"), Some("style"), Some("css"), "body {}", Copies)
  }

  function ExampleButton(): DirEntry {
    DirEntry(true, Some("comp_button.html"), Some("comp_button"), Some("html"), "", Copies)
  }

  lemma ExampleIndexPlacement()
    ensures PlacementOf(ExampleIndex()) == Moved("html", "html/" + FolderName(Index), "index.html")
  {
    ToLowerKeepsLower("html");
    ToLowerKeepsLower("index");
  }

  lemma ExampleStylePlacement()
    ensures PlacementOf(ExampleStyle()) == Moved("css", "css", "style.css")
  {
    ToLowerKeepsLower("css");
  }

  /** "comp_button" is a component name: it begins with "comp_" and, lacking an 'l', names no template or layout. */
  lemma ExampleButtonName()
    ensures CategoryOfName("comp_button") == Some(Component)
  {
    var name := "comp_button";
    assert name == "comp_" + "button";
    assert 'l' !in "comp_" && 'l' !in "button";
    AbsentCharExcludes(name, "template", 4);
    AbsentCharExcludes(name, "layout", 0);
    assert StartsWith(name, "comp_");
  }

  lemma ExampleButtonPlacement()
    ensures PlacementOf(ExampleButton()) == Moved("html", "html/" + FolderName(Component), "comp_button.html")
  {
    ToLowerKeepsLower("html");
    ToLowerKeepsLower("comp_button");
    ExampleButtonName();
  }

  /**
   * A source holding index.html, style.css and an empty comp_button.html:
   * nothing fails, the page goes to html/index, the stylesheet to css and the
   * component to html/components, and three files are counted.
   */
  lemma ThreeFileExample()
    ensures var listing := [Listed(ExampleIndex()), Listed(ExampleStyle()), Listed(ExampleButton())];
      && FirstFault(listing, 0) == |listing|
      && |FilesOf(listing)| == |Placements(listing)| == 3
      && Placements(listing)[0] == Moved("html", "html/" + FolderName(Index), "index.html")
      && Placements(listing)[1] == Moved("css", "css", "style.css")
      && Placements(listing)[2] == Moved("html", "html/" + FolderName(Component), "comp_button.html")
  {
    var listing := [Listed(ExampleIndex()), Listed(ExampleStyle()), Listed(ExampleButton())];
    assert forall j :: 0 <= j < |listing| ==> FaultAt(listing[j]).None?;
    AllFilesListed(listing);
    PlacementsFollowFiles(listing);
    ExampleIndexPlacement();
    ExampleStylePlacement();
    ExampleButtonPlacement();
  }
}
