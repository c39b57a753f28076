/*
  The target path that `export` writes to: the root directory with its
  trailing separators removed, the date segment with its trailing
  separators removed, the file name with separators removed at both ends,
  and the lower-cased writer type as extension.  The date string and the
  file name are inputs here: the clock (`date`, `microtime`) and the
  callbacks that may produce them are outside the model, and so is the
  directory creation.  The directory separator is a parameter because it
  depends on the platform.
*/
module FileName {

  /** The writer type set by setXlsx, setXls and setCsv (Xlsx by default). */
  datatype FileType = Xlsx | Xls | Csv

  function TypeName(t: FileType): string
  {
    match t
    case Xlsx => "Xlsx"
    case Xls => "Xls"
    case Csv => "Csv"
  }

  /** The associative array that resolveFileName returns. */
  datatype FileInfo = FileInfo(root: string, date: string, file: string, fileType: string, full: string)

  predicate IsUpper(ch: char)
  {
    'A' <= ch <= 'Z'
  }

  function LowerChar(ch: char): (r: char)
    ensures !IsUpper(r)
    ensures IsUpper(ch) ==> r as int == ch as int + 32
    ensures !IsUpper(ch) ==> r == ch
  {
    if IsUpper(ch) then (ch as int + 32) as char else ch
  }

  /** strtolower on ASCII text: only 'A'..'Z' change. */
  function Lower(s: string): (r: string)
    ensures |r| == |s|
    ensures forall i :: 0 <= i < |s| ==> r[i] == LowerChar(s[i])
  {
    seq(|s|, i requires 0 <= i < |s| => LowerChar(s[i]))
  }

  lemma LowerHasNoUpper(s: string)
    ensures forall i :: 0 <= i < |Lower(s)| ==> !IsUpper(Lower(s)[i])
  {
  }

  lemma LowerIdempotent(s: string)
    ensures Lower(Lower(s)) == Lower(s)
  {
  }

  /** The extension strtolower gives for each writer type. */
  lemma ExtensionOfEachType()
    ensures Lower(TypeName(Xlsx)) == "xlsx"
    ensures Lower(TypeName(Xls)) == "xls"
    ensures Lower(TypeName(Csv)) == "csv"
  {
  }

  /** rtrim with a single-character list: drops every trailing `sep`. */
  function RTrim(s: string, sep: char): (r: string)
    ensures |r| <= |s| && r == s[..|r|]
    ensures forall i :: |r| <= i < |s| ==> s[i] == sep
    ensures |r| == 0 || r[|r| - 1] != sep
    decreases |s|
  {
    if |s| > 0 && s[|s| - 1] == sep then RTrim(s[..|s| - 1], sep) else s
  }

  /** ltrim with a single-character list: drops every leading `sep`. */
  function LTrim(s: string, sep: char): (r: string)
    ensures |r| <= |s| && r == s[|s| - |r|..]
    ensures forall i :: 0 <= i < |s| - |r| ==> s[i] == sep
    ensures |r| == 0 || r[0] != sep
    decreases |s|
  {
    if |s| > 0 && s[0] == sep then LTrim(s[1..], sep) else s
  }

  /** trim with a single-character list: both ends. */
  function Trim(s: string, sep: char): (r: string)
    ensures |r| == 0 || (r[0] != sep && r[|r| - 1] != sep)
  {
    LTrim(RTrim(s, sep), sep)
  }

  /** A string that already has no trailing separator is left as it is. */
  lemma {:induction false} RTrimKeeps(s: string, sep: char)
    requires |s| == 0 || s[|s| - 1] != sep
    ensures RTrim(s, sep) == s
  {
  }

  lemma {:induction false} RTrimIdempotent(s: string, sep: char)
    ensures RTrim(RTrim(s, sep), sep) == RTrim(s, sep)
  {
    RTrimKeeps(RTrim(s, sep), sep);
  }

  /** rtrim is characterised by its three properties: any prefix of `s` that
    drops only separators and does not end in one is RTrim(s). */
  lemma {:induction false} RTrimUnique(s: string, sep: char, t: string)
    requires |t| <= |s| && t == s[..|t|]
    requires forall i :: |t| <= i < |s| ==> s[i] == sep
    requires |t| == 0 || t[|t| - 1] != sep
    ensures RTrim(s, sep) == t
    decreases |s|
  {
    if |s| > |t| {
      assert s[|s| - 1] == sep;
      RTrimUnique(s[..|s| - 1], sep, t);
    }
  }

  lemma ConcatParts<T>(p: seq<T>, q: seq<T>)
    ensures p <= p + q && (p + q)[|p|..] == q
  {
  }

  lemma PrefixGrows<T>(p: seq<T>, q: seq<T>, t: seq<T>)
    requires p <= q
    ensures p <= q + t
  {
    assert (q + t)[..|p|] == q[..|p|];
  }

  /** The full path resolveFileName assembles: the root and the date with
    trailing separators trimmed, the file name trimmed at both ends, then a
    dot and the type. */
  function FullPath(rootPath: string, date: string, fileName: string, fileType: FileType, sep: char): string
  {
    RTrim(rootPath, sep) + [sep] + RTrim(date, sep) + [sep] + Trim(fileName, sep) + "." + Lower(TypeName(fileType))
  }

  /** The path string of resolveFileName once the date and the file name
    are known. */
  function ResolveFileName(rootPath: string, date: string, fileName: string, fileType: FileType, sep: char): (r: FileInfo)
    ensures r.root == rootPath && r.date == date && r.file == fileName
    ensures r.fileType == Lower(TypeName(fileType))
    ensures |r.full| > |r.fileType|
    ensures r.full[|r.full| - |r.fileType|..] == r.fileType && r.full[|r.full| - |r.fileType| - 1] == '.'
    ensures RTrim(rootPath, sep) + [sep] <= r.full
    ensures r.full == FullPath(rootPath, date, fileName, fileType, sep)
  {
    var fullPath := RTrim(rootPath, sep) + [sep] + RTrim(date, sep);
    var ext := Lower(TypeName(fileType));
    var stem := fullPath + [sep] + Trim(fileName, sep) + ".";
    ConcatParts(stem, ext);
    ConcatParts(RTrim(rootPath, sep) + [sep], RTrim(date, sep));
    var root := RTrim(rootPath, sep) + [sep];
    PrefixGrows(root, fullPath, [sep]);
    PrefixGrows(root, fullPath + [sep], Trim(fileName, sep));
    PrefixGrows(root, fullPath + [sep] + Trim(fileName, sep), ".");
    PrefixGrows(root, stem, ext);
    FileInfo(rootPath, date, fileName, ext, stem + ext)
  }

  /** With `datePath` false the date is "", which leaves two separators in a
    row between the root and the file name. */
  lemma EmptyDateDoublesSeparator(rootPath: string, fileName: string, fileType: FileType, sep: char)
    ensures ResolveFileName(rootPath, "", fileName, fileType, sep).full
         == RTrim(rootPath, sep) + [sep, sep] + Trim(fileName, sep) + "." + Lower(TypeName(fileType))
  {
    assert RTrim("", sep) == "";
    assert RTrim(rootPath, sep) + [sep] + RTrim("", sep) + [sep] == RTrim(rootPath, sep) + [sep, sep];
  }

  /** The full path splits into the directory, a separator and the file
    segment, and that segment has no separator at either end, whatever
    separators the caller's strings carried. */
  lemma FullPathSegments(rootPath: string, date: string, fileName: string, fileType: FileType, sep: char)
    ensures
      var dir := RTrim(rootPath, sep) + [sep] + RTrim(date, sep);
      var name := Trim(fileName, sep);
      var info := ResolveFileName(rootPath, date, fileName, fileType, sep);
      && info.full == dir + [sep] + name + "." + info.fileType
      && (|name| == 0 || (name[0] != sep && name[|name| - 1] != sep))
      && (|RTrim(date, sep)| == 0 || dir[|dir| - 1] != sep)
  {
  }

  /** The root and the date are trimmed once: passing an already trimmed
    root or date gives the same path. */
  lemma TrimmedInputsSamePath(rootPath: string, date: string, fileName: string, fileType: FileType, sep: char)
    ensures ResolveFileName(RTrim(rootPath, sep), RTrim(date, sep), fileName, fileType, sep).full
         == ResolveFileName(rootPath, date, fileName, fileType, sep).full
  {
    RTrimIdempotent(rootPath, sep);
    RTrimIdempotent(date, sep);
  }
}
