// How Texture, Shader and SkinnedMesh turn their `source` property into the
// name of the file they open: a case-insensitive `qrc:` prefix names a Qt
// resource, a case-insensitive `file:` prefix is a URL converted with
// QUrl::toLocalFile, and anything else is a file name as it stands.
module Paths {
  import opened Common

  /**
   * What the host provides for file access: the QUrl::toLocalFile mapping,
   * the contents QFile::readAll returns for a name (None when the file
   * cannot be opened) and QString::toLocal8Bit.
   */
  datatype FileSystem = FileSystem(
    toLocalFile: string -> string,
    read: string -> Option<seq<bv8>>,
    toLocal8Bit: string -> seq<bv8>)

  /** ASCII case folding, the part of Qt::CaseInsensitive the prefixes need. */
  function FoldCase(c: char): (r: char)
    ensures 'A' <= c <= 'Z' ==> r as int == c as int + 32
    ensures !('A' <= c <= 'Z') ==> r == c
  {
    if 'A' <= c <= 'Z' then (c as int + 32) as char else c
  }

  /** QString::startsWith(prefix, Qt::CaseInsensitive). */
  predicate StartsWithIgnoringCase(s: string, prefix: string)
  {
    |prefix| <= |s| && forall i :: 0 <= i < |prefix| ==> FoldCase(s[i]) == FoldCase(prefix[i])
  }

  const QrcScheme: string := "qrc:"
  const FileScheme: string := "file:"

  /** Which of the three branches a source string takes. */
  datatype Kind = Resource | LocalUrl | PlainName

  function KindOf(path: string): Kind
  {
    if StartsWithIgnoringCase(path, QrcScheme) then Resource
    else if StartsWithIgnoringCase(path, FileScheme) then LocalUrl
    else PlainName
  }

  /** The file name QFile is given for `path`. */
  function FileName(fs: FileSystem, path: string): string
  {
    match KindOf(path)
    case Resource => path[3..]
    case LocalUrl => fs.toLocalFile(path)
    case PlainName => path
  }

  /**
   * A resource path keeps its `:`: "qrc:/shaders/a.vert" opens
   * ":/shaders/a.vert", whatever the case of the scheme.
   */
  lemma ResourceKeepsColon(fs: FileSystem, path: string)
    requires KindOf(path) == Resource
    ensures FileName(fs, path) == ":" + path[4..]
  {
    assert FoldCase(path[3]) == FoldCase(QrcScheme[3]);
  }

  /**
   * The two schemes, recognised whatever their case: a source is a
   * resource exactly when its first four characters fold to "qrc:", and a
   * local URL exactly when its first five fold to "file:". A shorter
   * prefix such as "qr:" is neither.
   */
  lemma SchemePrefixes(path: string)
    ensures KindOf(path) == Resource <==> |path| >= 4 && forall i :: 0 <= i < 4 ==> FoldCase(path[i]) == QrcScheme[i]
    ensures KindOf(path) == LocalUrl <==> |path| >= 5 && forall i :: 0 <= i < 5 ==> FoldCase(path[i]) == FileScheme[i]
  {
    assert forall i :: 0 <= i < 4 ==> FoldCase(QrcScheme[i]) == QrcScheme[i];
    assert forall i :: 0 <= i < 5 ==> FoldCase(FileScheme[i]) == FileScheme[i];
    if |path| >= 5 && forall i :: 0 <= i < 5 ==> FoldCase(path[i]) == FileScheme[i] {
      assert FoldCase(path[0]) != FoldCase(QrcScheme[0]);
    }
  }

  /**
   * Case does not matter: two sources of the same length whose first five
   * characters agree once folded take the same branch.
   */
  lemma SchemeIgnoresCase(path: string, other: string)
    requires |path| == |other|
    requires forall i :: 0 <= i < 5 && i < |path| ==> FoldCase(path[i]) == FoldCase(other[i])
    ensures KindOf(path) == KindOf(other)
  {
    SchemePrefixes(path);
    SchemePrefixes(other);
  }

  /** A source without a scheme is used verbatim, and only then. */
  lemma PlainNameVerbatim(fs: FileSystem, path: string)
    requires !StartsWithIgnoringCase(path, QrcScheme) && !StartsWithIgnoringCase(path, FileScheme)
    ensures FileName(fs, path) == path
  {
  }
}
