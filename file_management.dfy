/**
 * The administrator's file-management page: the search over uploaded audio
 * files and the storage statistics shown above it.
 */
module FileManagement {
  import opened Wrappers
  import opened Text
  import opened Seqs
  import opened Counting

  /** An `AudioFile` record; every field may be missing. */
  datatype AudioFile = AudioFile(
    fileName: Option<string>,
    userEmail: Option<string>,
    fileType: Option<string>,
    fileSizeMb: Option<nat>)

  /** The search term occurs, ignoring case, in the file name or the uploader's address. */
  predicate MatchesSearch(f: AudioFile, term: string) {
    Contains(LowerStr(f.fileName.GetOr("")), LowerStr(term))
    || Contains(LowerStr(f.userEmail.GetOr("")), LowerStr(term))
  }

  /** The type filter: "all" passes everything, otherwise the type must be equal (a missing type never is). */
  predicate MatchesType(f: AudioFile, filterType: string) {
    filterType == "all" || f.fileType == Some(filterType)
  }

  predicate Passes(f: AudioFile, term: string, filterType: string) {
    MatchesSearch(f, term) && MatchesType(f, filterType)
  }

  /** `filteredFiles`. */
  function FilteredFiles(files: seq<AudioFile>, term: string, filterType: string): (r: seq<AudioFile>)
    ensures |r| <= |files|
    ensures forall i :: 0 <= i < |r| ==> Passes(r[i], term, filterType)
  {
    Filter(files, (f: AudioFile) => Passes(f, term, filterType))
  }

  /** A file is listed exactly when it passes both the search and the type filter. */
  lemma FilteredExactly(files: seq<AudioFile>, term: string, filterType: string, i: nat)
    requires i < |files|
    ensures files[i] in FilteredFiles(files, term, filterType) <==> Passes(files[i], term, filterType)
  {
    var r := FilteredFiles(files, term, filterType);
    if files[i] in r {
      var j :| 0 <= j < |r| && r[j] == files[i];
    }
  }

  /** The listed files appear in the order of the fetched list, at increasing positions. */
  lemma FilteredInOrder(files: seq<AudioFile>, term: string, filterType: string)
    ensures var idx := FilterIndices(files, (f: AudioFile) => Passes(f, term, filterType));
      var r := FilteredFiles(files, term, filterType);
      |idx| == |r|
      && (forall k :: 0 <= k < |idx| ==> idx[k] < |files| && files[idx[k]] == r[k])
      && (forall k, l :: 0 <= k < l < |idx| ==> idx[k] < idx[l])
  {
    FilterKeepsOrder(files, (f: AudioFile) => Passes(f, term, filterType));
  }

  /** With an empty search and type "all" the whole list is shown, unchanged. */
  lemma EmptySearchShowsAll(files: seq<AudioFile>)
    ensures FilteredFiles(files, "", "all") == files
  {
    forall i | 0 <= i < |files| ensures Passes(files[i], "", "all") {
      ContainsEmpty(LowerStr(files[i].fileName.GetOr("")));
    }
    FilterAll(files, (f: AudioFile) => Passes(f, "", "all"));
  }

  /** The key a file is counted under: a missing type becomes the key "undefined". */
  function TypeKey(f: AudioFile): (key: string)
    ensures f.fileType.Some? ==> key == f.fileType.value
    ensures f.fileType.None? ==> key == "undefined"
  {
    f.fileType.GetOr("undefined")
  }

  function TypeKeys(files: seq<AudioFile>): (keys: seq<string>)
    ensures |keys| == |files|
    ensures forall i :: 0 <= i < |files| ==> keys[i] == TypeKey(files[i])
  {
    seq(|files|, i requires 0 <= i < |files| => TypeKey(files[i]))
  }

  /** `filesByType`: how many files there are of each type. */
  function FilesByType(files: seq<AudioFile>): (counts: map<string, nat>)
    ensures forall t :: t in counts ==> 0 < counts[t] <= |files|
    ensures forall t :: Count(counts, t) == Occurrences(TypeKeys(files), t)
  {
    Tally(TypeKeys(files))
  }

  /** Each per-type count is the number of files of that type, and a type no file has is absent. */
  lemma FilesByTypeCounts(files: seq<AudioFile>, t: string)
    ensures Count(FilesByType(files), t) == Occurrences(TypeKeys(files), t)
    ensures t in FilesByType(files) <==> exists i :: 0 <= i < |files| && TypeKey(files[i]) == t
  {
  }

  /** The per-type counts add up to the number of files, for any list naming each type once. */
  lemma FilesByTypeTotal(files: seq<AudioFile>, types: seq<string>)
    requires Distinct(types)
    requires forall i :: 0 <= i < |files| ==> TypeKey(files[i]) in types
    ensures TotalOver(FilesByType(files), types) == |files|
  {
    TallyTotal(TypeKeys(files), types);
  }

  /** The "Processed Files" card: mixed, mastered and stem files, a missing type counting 0. */
  function ProcessedCount(files: seq<AudioFile>): (n: nat)
    ensures n == Occurrences(TypeKeys(files), "mixed") + Occurrences(TypeKeys(files), "mastered")
      + Occurrences(TypeKeys(files), "stem")
  {
    var byType := FilesByType(files);
    Count(byType, "mixed") + Count(byType, "mastered") + Count(byType, "stem")
  }

  /** Processed and original files together never exceed the number of files. */
  lemma ProcessedAndOriginalBounded(files: seq<AudioFile>)
    ensures ProcessedCount(files) + Count(FilesByType(files), "original") <= |files|
  {
    var byType := FilesByType(files);
    var named := ["mixed", "mastered", "stem", "original"];
    var others := OtherKeys(TypeKeys(files), named);
    EveryTypeListed(files, named);
    FilesByTypeTotal(files, named + others);
    TotalOverSplit(byType, named, others);
    NamedTotal(byType);
  }

  lemma NamedTotal(m: map<string, nat>)
    ensures TotalOver(m, ["mixed", "mastered", "stem", "original"])
      == Count(m, "mixed") + Count(m, "mastered") + Count(m, "stem") + Count(m, "original")
  {
    var n4 := ["mixed", "mastered", "stem", "original"];
    var n3, n2, n1 := n4[..3], n4[..2], n4[..1];
    assert n3[..2] == n2 && n2[..1] == n1 && n1[..0] == [];
    assert TotalOver(m, n1) == Count(m, "mixed");
    assert TotalOver(m, n2) == TotalOver(m, n1) + Count(m, "mastered");
    assert TotalOver(m, n3) == TotalOver(m, n2) + Count(m, "stem");
  }

  /** The named types followed by every other type that occurs: each once, all covered. */
  lemma EveryTypeListed(files: seq<AudioFile>, named: seq<string>)
    requires Distinct(named)
    ensures Distinct(named + OtherKeys(TypeKeys(files), named))
    ensures forall i :: 0 <= i < |files| ==> TypeKey(files[i]) in named + OtherKeys(TypeKeys(files), named)
  {
    var keys := TypeKeys(files);
    var others := OtherKeys(keys, named);
    var types := named + others;
    forall i, j | 0 <= i < j < |types| ensures types[i] != types[j] {
      if j >= |named| {
        assert types[j] == others[j - |named|];
        if i >= |named| {
          assert types[i] == others[i - |named|];
        } else {
          assert types[i] == named[i];
        }
      }
    }
    forall i | 0 <= i < |files| ensures TypeKey(files[i]) in types {
      assert keys[i] == TypeKey(files[i]);
      if TypeKey(files[i]) !in named {
        OtherKeysCover(keys, named, i);
      }
    }
  }

  /** The keys of `keys` outside `named`, each once. */
  function OtherKeys(keys: seq<string>, named: seq<string>): (r: seq<string>)
    ensures forall i :: 0 <= i < |r| ==> r[i] !in named
    ensures Distinct(r)
    decreases |keys|
  {
    if keys == [] then []
    else
      var rest := OtherKeys(keys[..|keys| - 1], named);
      var k := keys[|keys| - 1];
      if k in named || k in rest then rest else rest + [k]
  }

  lemma {:induction false} OtherKeysCover(keys: seq<string>, named: seq<string>, i: nat)
    requires i < |keys| && keys[i] !in named
    ensures keys[i] in OtherKeys(keys, named)
    decreases |keys|
  {
    if i < |keys| - 1 {
      OtherKeysCover(keys[..|keys| - 1], named, i);
    }
  }

  lemma {:induction false} TotalOverSplit(m: map<string, nat>, a: seq<string>, b: seq<string>)
    ensures TotalOver(m, a + b) == TotalOver(m, a) + TotalOver(m, b)
    decreases |b|
  {
    if b == [] {
      assert a + b == a;
    } else {
      assert (a + b)[..|a + b| - 1] == a + b[..|b| - 1];
      TotalOverSplit(m, a, b[..|b| - 1]);
    }
  }

  function SizeOf(f: AudioFile): int {
    f.fileSizeMb.GetOr(0)
  }

  /** "Total Storage": the sizes added up, a missing size counting 0. */
  function TotalSize(files: seq<AudioFile>): (total: int)
    ensures total >= 0
  {
    SumNonNegative(files, SizeOf);
    Sum(files, SizeOf)
  }

  /** Every file's size is part of the total, and the totals of two lists add up. */
  lemma TotalSizeProperties(files: seq<AudioFile>, more: seq<AudioFile>)
    ensures forall i :: 0 <= i < |files| ==> SizeOf(files[i]) <= TotalSize(files)
    ensures TotalSize(files + more) == TotalSize(files) + TotalSize(more)
  {
    forall i | 0 <= i < |files| ensures SizeOf(files[i]) <= TotalSize(files) {
      SumBounds(files, SizeOf, i);
    }
    SumAppend(files, more, SizeOf);
  }
}
