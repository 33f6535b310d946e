/** The file-name functions the upload grouping relies on: FilenameUtils.getName,
    getBaseName and getExtension from commons-io, and String.toLowerCase on extensions.
    The functions carry only their range; what they compute is stated by the lemmas below them. */
module Filenames {

  /** String.lastIndexOf(c): the last position of c, or -1. */
  function LastIndexOf(s: string, c: char): (r: int)
    ensures -1 <= r < |s|
    decreases |s|
  {
    if |s| == 0 then -1
    else if s[|s| - 1] == c then |s| - 1
    else LastIndexOf(s[..|s| - 1], c)
  }

  /** LastIndexOf finds c, and no c follows it; -1 means c does not occur. */
  lemma {:induction false} LastIndexOfIsLast(s: string, c: char)
    ensures LastIndexOf(s, c) >= 0 ==> s[LastIndexOf(s, c)] == c
    ensures forall j | LastIndexOf(s, c) < j < |s| :: s[j] != c
    decreases |s|
  {
    if |s| > 0 && s[|s| - 1] != c {
      LastIndexOfIsLast(s[..|s| - 1], c);
    }
  }

  /** Dropping a prefix of k characters shifts the last occurrence by k, or loses it. */
  lemma LastIndexOfSuffix(s: string, c: char, k: nat)
    requires k <= |s|
    ensures LastIndexOf(s[k..], c) == if LastIndexOf(s, c) >= k then LastIndexOf(s, c) - k else -1
  {
    var r := LastIndexOf(s, c);
    var r' := LastIndexOf(s[k..], c);
    LastIndexOfIsLast(s, c);
    LastIndexOfIsLast(s[k..], c);
    assert forall j | 0 <= j < |s| - k :: s[k..][j] == s[j + k];
    if r >= k {
      assert s[k..][r - k] == c;
    }
  }

  /** The last Unix or Windows separator, or -1. */
  function LastSeparator(s: string): (r: int)
    ensures -1 <= r < |s|
  {
    var u := LastIndexOf(s, '/');
    var w := LastIndexOf(s, '\\');
    if u >= w then u else w
  }

  lemma LastSeparatorIsLast(s: string)
    ensures LastSeparator(s) >= 0 ==> s[LastSeparator(s)] == '/' || s[LastSeparator(s)] == '\\'
    ensures forall j | LastSeparator(s) < j < |s| :: s[j] != '/' && s[j] != '\\'
  {
    LastIndexOfIsLast(s, '/');
    LastIndexOfIsLast(s, '\\');
  }

  /** The position of the extension dot: the last '.', provided no separator follows it. */
  function IndexOfExtension(s: string): (r: int)
    ensures -1 <= r < |s|
  {
    var d := LastIndexOf(s, '.');
    if LastSeparator(s) > d then -1 else d
  }

  lemma IndexOfExtensionIsLastDot(s: string)
    ensures IndexOfExtension(s) >= 0 ==> IndexOfExtension(s) > LastSeparator(s) && s[IndexOfExtension(s)] == '.'
    ensures IndexOfExtension(s) >= 0 ==>
              forall j | IndexOfExtension(s) < j < |s| :: s[j] != '.' && s[j] != '/' && s[j] != '\\'
  {
    LastIndexOfIsLast(s, '.');
    LastSeparatorIsLast(s);
  }

  /** FilenameUtils.getName: what follows the last separator. */
  function GetName(s: string): string {
    s[LastSeparator(s) + 1..]
  }

  /** FilenameUtils.removeExtension */
  function RemoveExtension(s: string): string {
    var i := IndexOfExtension(s);
    if i == -1 then s else s[..i]
  }

  /** FilenameUtils.getBaseName */
  function BaseName(s: string): string {
    RemoveExtension(GetName(s))
  }

  /** FilenameUtils.getExtension: what follows the extension dot, or "" when there is none. */
  function Extension(s: string): string {
    var i := IndexOfExtension(s);
    if i == -1 then "" else s[i + 1..]
  }

  /** The name holds no separator. */
  lemma GetNameHasNoSeparator(s: string)
    ensures forall j | 0 <= j < |GetName(s)| :: GetName(s)[j] != '/' && GetName(s)[j] != '\\'
  {
    LastSeparatorIsLast(s);
    var p := LastSeparator(s) + 1;
    forall j | 0 <= j < |GetName(s)|
      ensures GetName(s)[j] != '/' && GetName(s)[j] != '\\'
    {
      assert GetName(s)[j] == s[p + j];
    }
  }

  /** Nor does the base name. */
  lemma BaseNameHasNoSeparator(s: string)
    ensures forall j | 0 <= j < |BaseName(s)| :: BaseName(s)[j] != '/' && BaseName(s)[j] != '\\'
  {
    GetNameHasNoSeparator(s);
    var n := GetName(s);
    forall j | 0 <= j < |BaseName(s)|
      ensures BaseName(s)[j] != '/' && BaseName(s)[j] != '\\'
    {
      assert BaseName(s)[j] == n[j];
    }
  }

  /** The extension holds neither a dot nor a separator. */
  lemma ExtensionHasNoDot(s: string)
    ensures forall j | 0 <= j < |Extension(s)| :: Extension(s)[j] != '.' && Extension(s)[j] != '/' && Extension(s)[j] != '\\'
  {
    IndexOfExtensionIsLastDot(s);
    var i := IndexOfExtension(s);
    forall j | 0 <= j < |Extension(s)|
      ensures Extension(s)[j] != '.' && Extension(s)[j] != '/' && Extension(s)[j] != '\\'
    {
      assert Extension(s)[j] == s[i + 1 + j];
    }
  }

  /** Within the name, there is no separator left and the extension dot keeps its place,
      shifted by what getName dropped. */
  lemma NamePositions(s: string)
    ensures LastSeparator(GetName(s)) == -1
    ensures IndexOfExtension(GetName(s)) ==
              if IndexOfExtension(s) == -1 then -1 else IndexOfExtension(s) - (LastSeparator(s) + 1)
  {
    var p := LastSeparator(s) + 1;
    LastIndexOfSuffix(s, '/', p);
    LastIndexOfSuffix(s, '\\', p);
    LastIndexOfSuffix(s, '.', p);
    LastIndexOfIsLast(s, '.');
    LastSeparatorIsLast(s);
  }

  /** A file name splits exactly into its base name, the dot, and its extension. */
  lemma {:induction false} NameSplits(s: string)
    ensures GetName(s) == BaseName(s) + (if IndexOfExtension(s) == -1 then "" else "." + Extension(s))
  {
    NamePositions(s);
    if IndexOfExtension(s) != -1 {
      IndexOfExtensionIsLastDot(s);
      var p := LastSeparator(s) + 1;
      var n := GetName(s);
      var d := IndexOfExtension(s);
      var e := d - p;
      assert n[e] == s[d] == '.';
      assert n[e + 1..] == s[d + 1..];
      assert n == n[..e] + [n[e]] + n[e + 1..];
    }
  }

  function LowerChar(c: char): char {
    if 'A' <= c <= 'Z' then (c as int - 'A' as int + 'a' as int) as char else c
  }

  /** String.toLowerCase restricted to ASCII letters. */
  function Lower(s: string): (r: string)
    ensures |r| == |s|
  {
    seq(|s|, i requires 0 <= i < |s| => LowerChar(s[i]))
  }

  /** What the upload switch does with a file, by its lower-cased extension. */
  datatype FileKind = ImageKind | JsonKind | YoloKind | OtherKind

  function KindOfExtension(ext: string): FileKind {
    if ext == "png" || ext == "jpg" || ext == "jpeg" then ImageKind
    else if ext == "json" then JsonKind
    else if ext == "txt" then YoloKind
    else OtherKind
  }

  /** The kind of a file name: the switch is on the lower-cased extension. */
  function KindOfName(name: string): FileKind {
    KindOfExtension(Lower(Extension(name)))
  }

  /** String.equalsIgnoreCase on ASCII letters: the same length, and equal characters once
      each is lower-cased. */
  predicate EqualsIgnoreCase(a: string, b: string) {
    |a| == |b| && forall i | 0 <= i < |a| :: LowerChar(a[i]) == LowerChar(b[i])
  }

  /** Lower-casing an extension yields a given lower-case word exactly when the extension is
      that word up to case. */
  lemma LowerIsWord(e: string, w: string)
    requires forall i | 0 <= i < |w| :: LowerChar(w[i]) == w[i]
    ensures Lower(e) == w <==> EqualsIgnoreCase(e, w)
  {
    if EqualsIgnoreCase(e, w) {
      assert forall i | 0 <= i < |w| :: Lower(e)[i] == w[i];
    }
    if Lower(e) == w {
      assert forall i | 0 <= i < |e| :: LowerChar(e[i]) == Lower(e)[i];
    }
  }

  /** The switch ignores case: two extensions that are equal up to case, such as "PNG" and
      "png", are sorted into the same kind. */
  lemma KindIgnoresCase(a: string, b: string)
    requires EqualsIgnoreCase(a, b)
    ensures KindOfExtension(Lower(a)) == KindOfExtension(Lower(b))
  {
    assert forall i | 0 <= i < |a| :: Lower(a)[i] == Lower(b)[i];
  }

  /** Which extensions are images, annotations and YOLO labels, for every extension: png, jpg
      and jpeg in any case are images, json is an annotation, txt a YOLO label, and every other
      extension is ignored. */
  lemma KindsOfExtensions(e: string)
    ensures KindOfExtension(Lower(e)) == ImageKind <==>
              EqualsIgnoreCase(e, "png") || EqualsIgnoreCase(e, "jpg") || EqualsIgnoreCase(e, "jpeg")
    ensures KindOfExtension(Lower(e)) == JsonKind <==> EqualsIgnoreCase(e, "json")
    ensures KindOfExtension(Lower(e)) == YoloKind <==> EqualsIgnoreCase(e, "txt")
    ensures KindOfExtension(Lower(e)) == OtherKind <==>
              !EqualsIgnoreCase(e, "png") && !EqualsIgnoreCase(e, "jpg") && !EqualsIgnoreCase(e, "jpeg")
              && !EqualsIgnoreCase(e, "json") && !EqualsIgnoreCase(e, "txt")
  {
    LowerIsWord(e, "png");
    LowerIsWord(e, "jpg");
    LowerIsWord(e, "jpeg");
    LowerIsWord(e, "json");
    LowerIsWord(e, "txt");
  }
}
