/** File names that selfsign derives from strings it is given: the name an
    embedded helper tool is extracted under, and the name of the signed copy
    of the target executable. Both derivations index the character four
    places from the end, so both need a string of at least four characters. */
module Naming {

  /** The executable to copy and sign: the first argument when there is one,
      otherwise the program's own path. */
  function Target(argv: seq<string>): (t: string)
    requires |argv| >= 1
    ensures |argv| >= 2 ==> t == argv[1]
    ensures |argv| == 1 ==> t == argv[0]
  {
    if |argv| < 2 then argv[0] else argv[1]
  }

  /** The file name of an embedded helper tool: the tag with an underscore
      four places from the end turned into a dot; every other character,
      and the length, are kept. */
  function ToolFileName(tag: string): (name: string)
    requires |tag| >= 4
    ensures |name| == |tag|
    ensures forall i :: 0 <= i < |tag| && i != |tag| - 4 ==> name[i] == tag[i]
    ensures tag[|tag| - 4] == '_' ==> name[|tag| - 4] == '.'
    ensures tag[|tag| - 4] != '_' ==> name == tag
  {
    var k := |tag| - 4;
    if tag[k] == '_' then tag[..k] + "." + tag[k + 1..] else tag
  }

  /** The path an embedded tool is written to: the working directory, a
      backslash, then the tool's file name. */
  function ExtractPath(cwd: string, tag: string): (path: string)
    requires |tag| >= 4
    ensures |path| == |cwd| + 1 + |tag|
    ensures path[..|cwd|] == cwd && path[|cwd|] == '\\'
    ensures path[|cwd| + 1..] == ToolFileName(tag)
  {
    cwd + "\\" + ToolFileName(tag)
  }

  const SignedSuffix: string := ".signed.exe"

  /** True when the guard in front of the truncation lets the name through
      whole: only a name of exactly four characters starting with a dot. */
  predicate KeepsWholeName(target: string)
    requires |target| >= 4
  {
    !(|target| > 4 || target[|target| - 4] != '.')
  }

  /** The name of the signed copy: the target with its last four characters
      cut off, unless the guard keeps it whole, followed by ".signed.exe". */
  function SignedName(target: string): (out: string)
    requires |target| >= 4
    ensures |out| == (if KeepsWholeName(target) then |target| else |target| - 4) + |SignedSuffix|
    ensures out[|out| - |SignedSuffix|..] == SignedSuffix
    ensures out[..|out| - |SignedSuffix|] == target[..|out| - |SignedSuffix|]
  {
    var n := |target|;
    var base := if n > 4 || target[n - 4] != '.' then target[..n - 4] else target;
    base + SignedSuffix
  }

  /** The labels of the three embedded tools, in the order they are extracted. */
  const Pvk2pfxTag: string := "pvk2pfx_exe"
  const MakecertTag: string := "makecert_exe"
  const SigntoolTag: string := "signtool_exe"

  /** The file names the three labels extract to. */
  lemma ToolFileNamesOfTags()
    ensures |Pvk2pfxTag| >= 4 && ToolFileName(Pvk2pfxTag) == "pvk2pfx.exe"
    ensures |MakecertTag| >= 4 && ToolFileName(MakecertTag) == "makecert.exe"
    ensures |SigntoolTag| >= 4 && ToolFileName(SigntoolTag) == "signtool.exe"
  {
    assert Pvk2pfxTag[..7] + "." + Pvk2pfxTag[8..] == "pvk2pfx.exe";
    assert MakecertTag[..8] + "." + MakecertTag[9..] == "makecert.exe";
    assert SigntoolTag[..8] + "." + SigntoolTag[9..] == "signtool.exe";
  }

  /** Above four characters the last four are always dropped, whatever they
      are: the guard never looks at the extension. */
  lemma SignedNameDropsLastFour(target: string)
    requires |target| > 4
    ensures SignedName(target) == target[..|target| - 4] + SignedSuffix
  {
  }

  /** At exactly four characters the guard is inverted: a name starting with
      a dot is kept whole, any other name is cut to nothing. */
  lemma SignedNameOfFourCharacters(target: string)
    requires |target| == 4
    ensures target[0] == '.' ==> SignedName(target) == target + SignedSuffix
    ensures target[0] != '.' ==> SignedName(target) == SignedSuffix
  {
  }

  /** A name with an extension: "app.exe" is signed as "app.signed.exe". */
  lemma SignedNameOfAppExe()
    ensures SignedName("app.exe") == "app.signed.exe"
  {
    SignedNameDropsLastFour("app.exe");
    assert "app.exe"[..3] == "app";
  }

  /** A name without an extension still loses four characters. */
  lemma SignedNameOfBareName()
    ensures SignedName("selfsign") == "self.signed.exe"
  {
    SignedNameDropsLastFour("selfsign");
    assert "selfsign"[..4] == "self";
  }

  /** A four-character name that does not start with a dot is cut to nothing. */
  lemma SignedNameOfAbcd()
    ensures SignedName("abcd") == ".signed.exe"
  {
    assert "abcd"[0] == 'a';
    SignedNameOfFourCharacters("abcd");
  }

  /** A four-character name that starts with a dot keeps its extension. */
  lemma SignedNameOfDotExe()
    ensures SignedName(".exe") == ".exe.signed.exe"
  {
    assert ".exe"[0] == '.';
    SignedNameOfFourCharacters(".exe");
    assert ".exe" + SignedSuffix == ".exe.signed.exe";
  }
}
