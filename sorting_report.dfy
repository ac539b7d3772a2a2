/**
 * The sorting report: for every key "<extension> -> <folder>" the names of the
 * files placed there, in the order they were recorded, and the running total.
 */
module Reports {

  /** The report key under which a file with this extension placed in this folder is listed. */
  function ReportKey(extension: string, folder: string): (key: string)
    ensures |key| == |extension| + 4 + |folder|
    ensures key[..|extension|] == extension
    ensures key[|extension|..|extension| + 4] == " -> "
    ensures key[|extension| + 4..] == folder
  {
    extension + " -> " + folder
  }

  /** One recorded placement: the file's extension, its destination folder and its name. */
  datatype Moved = Moved(extension: string, folder: string, fileName: string) {
    function Key(): string {
      ReportKey(extension, folder)
    }
  }

  /**
   * The listing after `name` is recorded under `key`: the name goes at the end
   * of that key's list, which is created when absent; every other key keeps its list.
   */
  function Appended(moved: map<string, seq<string>>, key: string, name: string): (r: map<string, seq<string>>)
    ensures r.Keys == moved.Keys + {key}
    ensures key in moved ==> r[key] == moved[key] + [name]
    ensures key !in moved ==> r[key] == [name]
    ensures forall k :: k in moved && k != key ==> r[k] == moved[k]
  {
    moved[key := (if key in moved then moved[key] else []) + [name]]
  }

  /** The number of names listed under all keys together. */
  ghost function TotalListed(moved: map<string, seq<string>>): nat
    decreases |moved|
  {
    if moved == map[] then 0
    else
      var k :| k in moved;
      |moved[k]| + TotalListed(moved - {k})
  }

  /** Any key may be taken out first: the total does not depend on the order of the keys. */
  lemma {:induction false} TotalListedWithout(moved: map<string, seq<string>>, key: string)
    requires key in moved
    ensures TotalListed(moved) == |moved[key]| + TotalListed(moved - {key})
    decreases |moved|
  {
    var k :| k in moved && TotalListed(moved) == |moved[k]| + TotalListed(moved - {k});
    if k != key {
      assert moved - {k} - {key} == moved - {key} - {k};
      TotalListedWithout(moved - {k}, key);
      TotalListedWithout(moved - {key}, k);
    }
  }

  /** Recording one name adds exactly one to the total listed. */
  lemma TotalListedAppended(moved: map<string, seq<string>>, key: string, name: string)
    ensures TotalListed(Appended(moved, key, name)) == TotalListed(moved) + 1
  {
    var after := Appended(moved, key, name);
    TotalListedWithout(after, key);
    if key in moved {
      TotalListedWithout(moved, key);
      assert after - {key} == moved - {key};
    } else {
      assert after - {key} == moved;
    }
  }

  /** The listing built by recording `ms` in order, starting from an empty report. */
  function Grouped(ms: seq<Moved>): map<string, seq<string>>
    decreases |ms|
  {
    if ms == [] then map[]
    else
      var last := ms[|ms| - 1];
      Appended(Grouped(ms[..|ms| - 1]), last.Key(), last.fileName)
  }

  /** Recording one more placement appends its name under its key. */
  lemma GroupedSnoc(ms: seq<Moved>, m: Moved)
    ensures Grouped(ms + [m]) == Appended(Grouped(ms), m.Key(), m.fileName)
  {
    assert (ms + [m])[..|ms|] == ms;
  }

  /** The names, in recording order, of the placements in `ms` whose key is `key`. */
  function NamesUnder(ms: seq<Moved>, key: string): seq<string>
    decreases |ms|
  {
    if ms == [] then []
    else (if ms[0].Key() == key then [ms[0].fileName] else []) + NamesUnder(ms[1..], key)
  }

  /** Recording one more placement extends the names under its key only. */
  lemma {:induction false} NamesUnderSnoc(ms: seq<Moved>, m: Moved, key: string)
    ensures NamesUnder(ms + [m], key) == NamesUnder(ms, key) + (if m.Key() == key then [m.fileName] else [])
    decreases |ms|
  {
    if ms != [] {
      assert (ms + [m])[1..] == ms[1..] + [m];
      NamesUnderSnoc(ms[1..], m, key);
    }
  }

  /**
   * The listing records every placement under its own key, in order: a key is
   * present exactly when some placement has it, and its list holds the names
   * of those placements in the order they were recorded.
   */
  lemma {:induction false} GroupedLists(ms: seq<Moved>, key: string)
    ensures key in Grouped(ms) <==> NamesUnder(ms, key) != []
    ensures key in Grouped(ms) ==> Grouped(ms)[key] == NamesUnder(ms, key)
    decreases |ms|
  {
    if ms != [] {
      var init, last := ms[..|ms| - 1], ms[|ms| - 1];
      assert ms == init + [last];
      GroupedLists(init, key);
      NamesUnderSnoc(init, last, key);
    }
  }

  /** Each recorded placement's name is among the names under its key. */
  lemma {:induction false} NamesUnderHas(ms: seq<Moved>, i: nat)
    requires i < |ms|
    ensures ms[i].fileName in NamesUnder(ms, ms[i].Key())
    decreases |ms|
  {
    if i > 0 {
      NamesUnderHas(ms[1..], i - 1);
    }
  }

  /** Every name recorded from a fresh report is listed once: the total equals the number recorded. */
  lemma {:induction false} GroupedTotal(ms: seq<Moved>)
    ensures TotalListed(Grouped(ms)) == |ms|
    decreases |ms|
  {
    if ms != [] {
      var last := ms[|ms| - 1];
      GroupedTotal(ms[..|ms| - 1]);
      TotalListedAppended(Grouped(ms[..|ms| - 1]), last.Key(), last.fileName);
    }
  }

  /**
   * The report a sort run fills in. Valid() is the invariant that the total
   * equals the number of names listed; a report made by the constructor and
   * changed only by AddFileMoved keeps it.
   */
  class SortingReport {
    var filesMoved: map<string, seq<string>>
    var totalFiles: nat

    ghost predicate Valid()
      reads this
    {
      totalFiles == TotalListed(filesMoved)
    }

    /** An empty report. */
    constructor ()
      ensures filesMoved == map[] && totalFiles == 0
      ensures Valid()
    {
      filesMoved := map[];
      totalFiles := 0;
    }

    /** Records that `filename`, with this extension, was placed in `folder`. */
    method AddFileMoved(extension: string, folder: string, filename: string)
      modifies this
      ensures filesMoved == Appended(old(filesMoved), ReportKey(extension, folder), filename)
      ensures totalFiles == old(totalFiles) + 1
      ensures old(Valid()) ==> Valid()
    {
      var key := ReportKey(extension, folder);
      TotalListedAppended(filesMoved, key, filename);
      filesMoved := filesMoved[key := (if key in filesMoved then filesMoved[key] else []) + [filename]];
      totalFiles := totalFiles + 1;
    }
  }

  /** Recording one text file in a new report lists it, alone, under "txt -> txt" and counts it. */
  method RecordOneFile() returns (total: nat, listed: map<string, seq<string>>)
    ensures total == 1
    ensures listed == map["txt -> txt" := ["test.txt"]]
  {
    var report := new SortingReport();
    report.AddFileMoved("txt", "txt", "test.txt");
    assert ReportKey("txt", "txt") == "txt -> txt";
    total, listed := report.totalFiles, report.filesMoved;
  }
}
