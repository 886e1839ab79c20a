/**
 * Data-path lists and the de-duplicated list of log files (src/utils/pathDiscovery.ts).
 * Directory walking and `statSync` are outside the model: each data path comes with the
 * files the recursive walk found under it, each with its size and modification time.
 */
module PathDiscovery {
  import opened Types
  import opened Text
  import opened StableSort

  // ------------------------------------------------------------ parsePathList

  /** `map(path => path.trim()).filter(path => path.length > 0)`. */
  function TrimParts(parts: seq<string>): (r: seq<string>)
    ensures |r| <= |parts|
    ensures forall p :: p in r ==> p != [] && Trimmed(p)
  {
    if parts == [] then []
    else
      var p := Trim(parts[|parts| - 1]);
      TrimParts(parts[..|parts| - 1]) + (if |p| > 0 then [p] else [])
  }

  /**
   * `parsePathList`. The separator is a single character here; no separator (or an empty one)
   * means: ':' when the string has ':' and no ',', else ',' when it has ',', else the whole
   * trimmed string is the one path.
   */
  function ParsePathList(pathString: string, separator: Option<char>): (r: seq<string>)
    ensures AllWhitespace(pathString) ==> r == []
    ensures forall p :: p in r ==> p != [] && Trimmed(p)
    ensures separator.Some? ==> forall p :: p in r ==> separator.value !in p
  {
    TrimEmptyIff(pathString);
    if pathString == [] || Trim(pathString) == [] then []
    else match separator
      case Some(sep) =>
        SplitTrimPartsFree(pathString, sep);
        TrimParts(Split(pathString, sep))
      case None =>
        if ':' in pathString && ',' !in pathString then TrimParts(Split(pathString, ':'))
        else if ',' in pathString then TrimParts(Split(pathString, ','))
        else [Trim(pathString)]
  }

  /** Trimming keeps a character out if it was out. */
  lemma {:induction false} TrimFree(s: string, c: char)
    requires c !in s
    ensures c !in Trim(s)
  {
    var r := Trim(s);
    var i, j :| 0 <= i <= j <= |s| && r == s[i..j] && AllWhitespace(s[..i]) && AllWhitespace(s[j..]);
    forall k | 0 <= k < |r| ensures r[k] != c {
      assert r[k] == s[i + k];
    }
  }

  lemma {:induction false} TrimPartsFree(parts: seq<string>, c: char)
    requires forall p :: p in parts ==> c !in p
    ensures forall p :: p in TrimParts(parts) ==> c !in p
  {
    if parts != [] {
      TrimPartsFree(parts[..|parts| - 1], c);
      TrimFree(parts[|parts| - 1], c);
    }
  }

  lemma {:induction false} SplitTrimPartsFree(s: string, c: char)
    ensures forall p :: p in TrimParts(Split(s, c)) ==> c !in p
  {
    TrimPartsFree(Split(s, c), c);
  }

  /** With no separator given, ',' wins whenever present; ':' is used only without ','. */
  lemma {:induction false} AutoSeparator(pathString: string)
    requires !AllWhitespace(pathString)
    ensures ',' in pathString ==> ParsePathList(pathString, None) == ParsePathList(pathString, Some(','))
    ensures ',' !in pathString && ':' in pathString ==> ParsePathList(pathString, None) == ParsePathList(pathString, Some(':'))
    ensures ',' !in pathString && ':' !in pathString ==> ParsePathList(pathString, None) == [Trim(pathString)]
  {
    TrimEmptyIff(pathString);
  }

  /** Parts that are already trimmed and non-empty pass through trimming unchanged. */
  lemma {:induction false} TrimPartsIdentity(parts: seq<string>)
    requires forall p :: p in parts ==> p != [] && Trimmed(p)
    ensures TrimParts(parts) == parts
  {
    if parts != [] {
      var init, last := parts[..|parts| - 1], parts[|parts| - 1];
      assert parts == init + [last];
      assert forall p :: p in init ==> p in parts;
      TrimPartsIdentity(init);
      TrimTrimmed(last);
    }
  }

  /** A join of non-empty trimmed parts has a character that is not whitespace. */
  lemma {:induction false} JoinNotWhitespace(parts: seq<string>, sep: char)
    requires |parts| >= 1 && parts[0] != [] && Trimmed(parts[0])
    ensures !AllWhitespace(Join(parts, sep))
  {
    var s := Join(parts, sep);
    if |parts| > 1 {
      assert s == parts[0] + ([sep] + Join(parts[1..], sep));
    }
    assert s[0] == parts[0][0];
  }

  /** Joining clean paths with a separator and parsing with that separator gives the paths back. */
  lemma {:induction false} ParsePathListJoin(parts: seq<string>, sep: char)
    requires |parts| >= 1
    requires forall p :: p in parts ==> p != [] && Trimmed(p) && sep !in p
    ensures ParsePathList(Join(parts, sep), Some(sep)) == parts
  {
    var s := Join(parts, sep);
    assert parts[0] in parts;
    JoinNotWhitespace(parts, sep);
    TrimEmptyIff(s);
    SplitJoin(parts, sep);
    TrimPartsIdentity(parts);
  }

  lemma {:induction false} JoinHasSeparator(parts: seq<string>, sep: char)
    requires |parts| >= 2
    ensures sep in Join(parts, sep)
  {
    var s := Join(parts, sep);
    assert s == parts[0] + [sep] + Join(parts[1..], sep);
    assert s[|parts[0]|] == sep;
  }

  /** The automatic choice picks ',' back out of a comma-joined list of two or more clean paths. */
  lemma {:induction false} ParsePathListCommaJoin(parts: seq<string>)
    requires |parts| >= 2
    requires forall p :: p in parts ==> p != [] && Trimmed(p) && ',' !in p
    ensures ParsePathList(Join(parts, ','), None) == parts
  {
    var s := Join(parts, ',');
    JoinHasSeparator(parts, ',');
    assert parts[0] in parts;
    JoinNotWhitespace(parts, ',');
    AutoSeparator(s);
    ParsePathListJoin(parts, ',');
  }

  // ------------------------------------------------------------ findJsonlFiles

  /** A log file found by the walk, with the two `stat` fields the source reads. */
  datatype FileInfo = FileInfo(path: string, size: int, mtimeMs: real)

  /** `file.split('/').pop()`. */
  function Basename(path: string): string
  {
    var parts := Split(path, '/');
    parts[|parts| - 1]
  }

  /** `${basename}-${size}-${Math.floor(mtimeMs)}`: copies of one file under two data paths share it. */
  function Signature(f: FileInfo): string
  {
    Basename(f.path) + "-" + IntToString(f.size) + "-" + IntToString(f.mtimeMs.Floor)
  }

  /** The signatures of `files` under `sig`. */
  function Signatures(files: seq<FileInfo>, sig: FileInfo -> string): set<string>
  {
    if files == [] then {} else Signatures(files[..|files| - 1], sig) + {sig(files[|files| - 1])}
  }

  /** The files whose signature under `sig` no earlier file has, in order. */
  function FirstOccurrences(files: seq<FileInfo>, sig: FileInfo -> string): seq<FileInfo>
  {
    if files == [] then []
    else
      var init := files[..|files| - 1];
      var f := files[|files| - 1];
      FirstOccurrences(init, sig) + (if sig(f) in Signatures(init, sig) then [] else [f])
  }

  /** The files of the data paths that exist, path after path. */
  function AllFiles(listings: seq<Option<seq<FileInfo>>>): seq<FileInfo>
  {
    if listings == [] then []
    else
      var l := listings[|listings| - 1];
      AllFiles(listings[..|listings| - 1]) + (if l.Some? then l.value else [])
  }

  function MtimeKey(f: FileInfo): real
  {
    f.mtimeMs
  }

  /**
   * `findJsonlFiles`: each data path's files (`None` for a path that does not exist), keeping
   * the first file of each signature, sorted by modification time.
   */
  method FindJsonlFiles(listings: seq<Option<seq<FileInfo>>>) returns (result: seq<FileInfo>)
    ensures result == SortBy(FirstOccurrences(AllFiles(listings), Signature), MtimeKey)
  {
    var allFiles := CollectFiles(listings, Signature);
    result := SortBy(allFiles, MtimeKey);
  }

  /** The loop of `findJsonlFiles` over the data paths, growing `seenFiles` and `allFiles`. */
  method CollectFiles(listings: seq<Option<seq<FileInfo>>>, signature: FileInfo -> string) returns (allFiles: seq<FileInfo>)
    ensures allFiles == FirstOccurrences(AllFiles(listings), signature)
  {
    allFiles := [];
    var seenFiles: set<string> := {};
    ghost var walked: seq<FileInfo> := [];
    for i := 0 to |listings|
      invariant walked == AllFiles(listings[..i])
      invariant allFiles == FirstOccurrences(walked, signature)
      invariant seenFiles == Signatures(walked, signature)
    {
      AllFilesSnoc(listings[..i], listings[i]);
      assert listings[..i + 1] == listings[..i] + [listings[i]];
      if listings[i].None? {
        assert walked + [] == walked;
        continue;
      }
      allFiles, seenFiles, walked := CollectListing(listings[i].value, signature, allFiles, seenFiles, walked);
    }
    assert listings[..|listings|] == listings;
  }

  /** The inner loop of `findJsonlFiles`, over the files of one data path. */
  method CollectListing(files: seq<FileInfo>, signature: FileInfo -> string, allFiles0: seq<FileInfo>,
                        seenFiles0: set<string>, ghost walked0: seq<FileInfo>)
    returns (allFiles: seq<FileInfo>, seenFiles: set<string>, ghost walked: seq<FileInfo>)
    requires allFiles0 == FirstOccurrences(walked0, signature)
    requires seenFiles0 == Signatures(walked0, signature)
    ensures walked == walked0 + files
    ensures allFiles == FirstOccurrences(walked, signature)
    ensures seenFiles == Signatures(walked, signature)
  {
    allFiles, seenFiles, walked := allFiles0, seenFiles0, walked0;
    for j := 0 to |files|
      invariant walked == walked0 + files[..j]
      invariant allFiles == FirstOccurrences(walked, signature)
      invariant seenFiles == Signatures(walked, signature)
    {
      var file := files[j];
      assert files[..j + 1] == files[..j] + [file];
      ConcatAssoc(walked0, files[..j], [file]);
      var fileSignature := signature(file);
      FirstOccurrencesSnoc(walked, file, signature);
      if fileSignature !in seenFiles {
        seenFiles := seenFiles + {fileSignature};
        allFiles := allFiles + [file];
      }
      walked := walked + [file];
    }
    assert files[..|files|] == files;
  }

  lemma {:induction false} AllFilesSnoc(listings: seq<Option<seq<FileInfo>>>, l: Option<seq<FileInfo>>)
    ensures AllFiles(listings + [l]) == AllFiles(listings) + (if l.Some? then l.value else [])
  {
    assert (listings + [l])[..|listings|] == listings;
  }

  lemma {:induction false} FirstOccurrencesSnoc(files: seq<FileInfo>, f: FileInfo, sig: FileInfo -> string)
    ensures FirstOccurrences(files + [f], sig) == FirstOccurrences(files, sig) + (if sig(f) in Signatures(files, sig) then [] else [f])
    ensures Signatures(files + [f], sig) == Signatures(files, sig) + {sig(f)}
  {
    assert (files + [f])[..|files|] == files;
  }

  /** Every signature found is kept. */
  lemma {:induction false} FirstOccurrencesCover(files: seq<FileInfo>, sig: FileInfo -> string)
    ensures Signatures(FirstOccurrences(files, sig), sig) == Signatures(files, sig)
  {
    if files != [] {
      var init := files[..|files| - 1];
      var f := files[|files| - 1];
      FirstOccurrencesCover(init, sig);
      assert files == init + [f];
      FirstOccurrencesSnoc(init, f, sig);
      var r := FirstOccurrences(init, sig);
      if sig(f) in Signatures(init, sig) {
        assert FirstOccurrences(files, sig) == r + [] == r;
      } else {
        FirstOccurrencesSnoc(r, f, sig);
      }
    }
  }

  /** Each signature is kept once, by the first file that has it. */
  lemma {:induction false} FirstOccurrencesDistinct(files: seq<FileInfo>, sig: FileInfo -> string)
    ensures forall i, j :: 0 <= i < j < |FirstOccurrences(files, sig)| ==>
              sig(FirstOccurrences(files, sig)[i]) != sig(FirstOccurrences(files, sig)[j])
  {
    if files != [] {
      var init := files[..|files| - 1];
      var f := files[|files| - 1];
      FirstOccurrencesDistinct(init, sig);
      FirstOccurrencesCover(init, sig);
      var r := FirstOccurrences(init, sig);
      assert files == init + [f];
      FirstOccurrencesSnoc(init, f, sig);
      if sig(f) !in Signatures(init, sig) {
        var r' := r + [f];
        forall i, j | 0 <= i < j < |r'| ensures sig(r'[i]) != sig(r'[j]) {
          if j == |r| {
            assert r'[i] == r[i];
            SignaturesMember(r, i, sig);
          } else {
            assert r'[i] == r[i] && r'[j] == r[j];
          }
        }
      }
    }
  }

  /** The files kept are files of the input. */
  lemma {:induction false} FirstOccurrencesSubset(files: seq<FileInfo>, sig: FileInfo -> string)
    ensures multiset(FirstOccurrences(files, sig)) <= multiset(files)
  {
    if files != [] {
      var init := files[..|files| - 1];
      var f := files[|files| - 1];
      FirstOccurrencesSubset(init, sig);
      assert files == init + [f];
      FirstOccurrencesSnoc(init, f, sig);
    }
  }

  lemma {:induction false} SignaturesMember(files: seq<FileInfo>, i: nat, sig: FileInfo -> string)
    requires i < |files|
    ensures sig(files[i]) in Signatures(files, sig)
  {
    if i < |files| - 1 {
      SignaturesMember(files[..|files| - 1], i, sig);
    }
  }

  /**
   * The result is ordered by modification time and is made of input files; the files kept
   * have distinct signatures and cover every signature found.
   */
  lemma {:induction false} FindJsonlFilesSpec(listings: seq<Option<seq<FileInfo>>>)
    ensures var kept := FirstOccurrences(AllFiles(listings), Signature);
      var r := SortBy(kept, MtimeKey);
      && SortedBy(r, MtimeKey)
      && multiset(r) <= multiset(AllFiles(listings))
      && Signatures(kept, Signature) == Signatures(AllFiles(listings), Signature)
      && forall i, j :: 0 <= i < j < |kept| ==> Signature(kept[i]) != Signature(kept[j])
  {
    FirstOccurrencesDistinct(AllFiles(listings), Signature);
    FirstOccurrencesCover(AllFiles(listings), Signature);
    FirstOccurrencesSubset(AllFiles(listings), Signature);
  }
}
