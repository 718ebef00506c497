/**
 * A folder's file list (app/components/FolderContents.tsx): five fixed
 * sample files, a case-insensitive search over their names, and the
 * session clock in the header.
 */
module FolderContentsView {
  import opened Text
  import opened TimeFormat

  datatype FileType = Pdf | Docx | Jpg | Xlsx

  /** `FileItem`: the name, the type that picks the icon, and when it was last opened. */
  datatype FileItem = FileItem(name: string, fileType: FileType, accessed: string)

  /** The sample files, in display order. */
  const Files: seq<FileItem> := [
    FileItem("Property Deed.pdf", Pdf, "2h ago"),
    FileItem("Employee NDAs.docx", Docx, "5d ago"),
    FileItem("Life Insurance Policy.pdf", Pdf, "1mo ago"),
    FileItem("Passport Scan.jpg", Jpg, "3mo ago"),
    FileItem("Tax Returns 2023.xlsx", Xlsx, "6mo ago")
  ]

  /**
   * The seconds shown by "Session expires in". The state is initialised
   * to this value and its setter is never called, so it is a constant.
   */
  const SessionSeconds: nat := 299

  /** `file.name.toLowerCase().includes(searchQuery.toLowerCase())`. */
  predicate Matches(f: FileItem, query: string) {
    Includes(ToLower(f.name), ToLower(query))
  }

  /** `files.filter(...)` over any list of files, in order. */
  function FilterFiles(files: seq<FileItem>, query: string): seq<FileItem> {
    if files == [] then []
    else (if Matches(files[0], query) then [files[0]] else []) + FilterFiles(files[1..], query)
  }

  /** `filteredFiles` for the search box's current text. */
  function FilteredFiles(query: string): seq<FileItem> {
    FilterFiles(Files, query)
  }

  /** The filter keeps exactly the matching files, each as often as it occurs. */
  lemma {:induction false} FilterFilesExact(files: seq<FileItem>, query: string)
    ensures var r := FilterFiles(files, query);
      && (forall x :: multiset(r)[x] == if Matches(x, query) then multiset(files)[x] else 0)
      && (forall x :: x in r <==> x in files && Matches(x, query))
      && |r| <= |files|
  {
    if files != [] {
      FilterFilesExact(files[1..], query);
      assert files == [files[0]] + files[1..];
    }
  }

  /** The filter keeps the order: filtering a concatenation concatenates the filtered parts. */
  lemma {:induction false} FilterFilesKeepsOrder(a: seq<FileItem>, b: seq<FileItem>, query: string)
    ensures FilterFiles(a + b, query) == FilterFiles(a, query) + FilterFiles(b, query)
  {
    if a != [] {
      var c := a + b;
      assert c != [] && c[0] == a[0] && c[1..] == a[1..] + b;
      FilterFilesKeepsOrder(a[1..], b, query);
    } else {
      assert a + b == b;
    }
  }

  /** Every name contains the empty string, so an empty query keeps every file. */
  lemma {:induction false} EmptyQueryKeepsAll(files: seq<FileItem>)
    ensures FilterFiles(files, "") == files
  {
    if files != [] {
      EmptyQueryKeepsAll(files[1..]);
      assert OccursAt(ToLower(files[0].name), ToLower(""), 0);
    }
  }

  /** An empty search box lists all five files in their order. */
  lemma EmptyQueryShowsAll()
    ensures FilteredFiles("") == Files && |FilteredFiles("")| == 5
  {
    EmptyQueryKeepsAll(Files);
  }

  /** Typing a file's full name, in any mix of letter case, always lists that file. */
  lemma FullNameFindsFile(f: FileItem, query: string)
    requires f in Files && ToLower(query) == ToLower(f.name)
    ensures f in FilteredFiles(query)
  {
    FilterFilesExact(Files, query);
    assert OccursAt(ToLower(f.name), ToLower(query), 0);
  }

  /** "No files found" is shown in place of the list. */
  function NoFilesFound(query: string): (shown: bool)
    ensures shown <==> FilteredFiles(query) == []
  {
    |FilteredFiles(query)| == 0
  }

  /** The message appears exactly when no file's name contains the query, ignoring case. */
  lemma NoFilesFoundIff(query: string)
    ensures NoFilesFound(query) <==> forall f :: f in Files ==> !Matches(f, query)
    ensures !NoFilesFound("")
  {
    FilterFilesExact(Files, query);
    EmptyQueryShowsAll();
  }

  /** Clicking a listed file hands its name to `onFileClick`. */
  function FileClickArgument(query: string, index: nat): (name: string)
    requires index < |FilteredFiles(query)|
    ensures exists f :: f in Files && Matches(f, query) && name == f.name
  {
    FilterFilesExact(Files, query);
    assert FilteredFiles(query)[index] in FilteredFiles(query);
    FilteredFiles(query)[index].name
  }

  /** The header clock: unpadded minutes, two-digit seconds; it always reads "4:59". */
  function SessionClock(): (r: string)
    ensures r == "4:59"
    ensures IsClock(r) && ClockMinutes(r) * 60 + ClockSeconds(r) == SessionSeconds
  {
    MinSecRoundTrip(SessionSeconds);
    MinSecSession();
    MinSec(SessionSeconds)
  }
}
