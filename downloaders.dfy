/** The download helpers of bt/helpers/downloaders.py whose results the
    bot's logic depends on: the cookie file header rule of save_cookies,
    the file lookup _find_downloaded_file, the part enumeration of
    split_file_p7zip and the result selection of extract_7z_parts.

    The filesystem is given as the set of paths that exist (or a directory
    listing in the order os.listdir returns it), and 7z as its outcome. */
module Downloaders {
  import opened Wrappers
  import opened Strings
  import Paths

  // ---------------------------------------------------------------------
  // save_cookies
  // ---------------------------------------------------------------------

  const NetscapeHeader := "# Netscape HTTP Cookie File"

  /** The two header lines and the blank line save_cookies writes first. */
  const GeneratedHeader := NetscapeHeader + "\n# This is a generated file! Do not edit.\n\n"

  /** What save_cookies writes to the cookie file: the text verbatim,
      preceded by the generated header exactly when the text does not
      already start with the Netscape header line. */
  function CookieFileContent(text: string): (c: string)
    ensures StartsWith(c, NetscapeHeader)
    ensures |text| <= |c| && c[|c| - |text|..] == text
    ensures c == text <==> StartsWith(text, NetscapeHeader)
    ensures c != text ==> c[..|c| - |text|] == GeneratedHeader
  {
    if StartsWith(text, NetscapeHeader) then text
    else
      var c := GeneratedHeader + text;
      assert c[..|NetscapeHeader|] == GeneratedHeader[..|NetscapeHeader|];
      assert c[|c| - |text|..] == text;
      c
  }

  /** Saving the saved file again writes it unchanged: the header is added
      at most once. */
  lemma CookiesIdempotent(text: string)
    ensures CookieFileContent(CookieFileContent(text)) == CookieFileContent(text)
  {
  }

  // ---------------------------------------------------------------------
  // _find_downloaded_file
  // ---------------------------------------------------------------------

  /** The index of the first name in the listing that starts with root, or
      |listing| when there is none. */
  function FirstWithPrefix(listing: seq<string>, root: string): (i: nat)
    ensures i <= |listing|
    ensures i < |listing| ==> StartsWith(listing[i], root)
    ensures forall k :: 0 <= k < i ==> !StartsWith(listing[k], root)
  {
    if listing == [] then 0
    else if StartsWith(listing[0], root) then 0
    else 1 + FirstWithPrefix(listing[1..], root)
  }

  /** _find_downloaded_file: the first entry of the directory listing whose
      name starts with base_name minus its extension, joined to the
      directory; None when no entry does. */
  method FindDownloadedFile(directory: string, baseName: string, listing: seq<string>) returns (r: Option<string>)
    ensures var i := FirstWithPrefix(listing, Paths.SplitExtRoot(baseName));
      r == if i < |listing| then Some(Paths.Join(directory, listing[i])) else None
  {
    var root := Paths.SplitExtRoot(baseName);
    var k := 0;
    while k < |listing|
      invariant 0 <= k <= |listing|
      invariant forall j :: 0 <= j < k ==> !StartsWith(listing[j], root)
    {
      if StartsWith(listing[k], root) {
        return Some(Paths.Join(directory, listing[k]));
      }
      k := k + 1;
    }
    return None;
  }

  /** The extension of a plain file name stem.ext is what splitext removes. */
  lemma SplitExtOfPlainName(stem: string, ext: string)
    requires stem != "" && '.' !in stem && '/' !in stem
    requires '.' !in ext && '/' !in ext
    ensures '/' !in stem + "." + ext
    ensures Paths.SplitExtRoot(stem + "." + ext) == stem
  {
    var p := stem + "." + ext;
    assert p[|stem|] == '.';
    assert forall k :: |stem| < k < |p| ==> p[k] == ext[k - |stem| - 1];
    assert forall k :: 0 <= k < |stem| ==> p[k] == stem[k];
    assert RFind(p, '/') == -1;
    assert RFind(p, '.') == |stem|;
    assert p[0] != '.';
    assert p[..|stem|] == stem;
  }

  /** A file saved under another extension than the one asked for is still
      found: this is what the lookup is for. */
  lemma RenamedDownloadFound(stem: string, asked: string, saved: string, listing: seq<string>)
    requires stem != "" && '.' !in stem && '/' !in stem
    requires '.' !in asked && '/' !in asked
    requires stem + "." + saved in listing
    ensures FirstWithPrefix(listing, Paths.SplitExtRoot(stem + "." + asked)) < |listing|
  {
    SplitExtOfPlainName(stem, asked);
    var i :| 0 <= i < |listing| && listing[i] == stem + "." + saved;
    assert StartsWith(listing[i], stem) by {
      assert listing[i][..|stem|] == stem;
    }
  }

  // ---------------------------------------------------------------------
  // split_file_p7zip
  // ---------------------------------------------------------------------

  /** An external command's outcome: cmd_exec raised, or the tool exited
      with a code. */
  datatype ToolRun = ToolRaised | ToolExited(code: int)

  /** os.path.join(dirname(file_path), f"{base_name}_part"), where
      base_name is the file name without its extension. */
  function OutputBase(filePath: string): string {
    Paths.Join(Paths.Dirname(filePath), Paths.SplitExtRoot(Paths.Basename(filePath)) + "_part")
  }

  /** The name of the parts of a file has no '/' when the file's has none. */
  lemma PartBaseName(name: string)
    requires '/' !in name
    ensures '/' !in Paths.SplitExtRoot(name) + "_part"
  {
    var root := Paths.SplitExtRoot(name);
    assert forall k :: 0 <= k < |root| ==> root[k] == name[k];
  }

  /** The parts of a file joined onto a directory go into that directory. */
  lemma OutputBaseOfJoin(dir: string, name: string)
    requires dir != "" && dir[|dir| - 1] != '/'
    requires '/' !in name && name != ""
    ensures OutputBase(dir + "/" + name) == dir + "/" + (Paths.SplitExtRoot(name) + "_part")
  {
    Paths.SplitJoined(dir, name);
    PartBaseName(name);
    Paths.SplitJoined(dir, Paths.SplitExtRoot(name) + "_part");
  }

  /** For a file dir/stem.ext the parts go next to it, as dir/stem_part.
      The directory is one that does not end in '/'. */
  lemma OutputBaseOfFile(dir: string, stem: string, ext: string)
    requires dir != "" && dir[|dir| - 1] != '/'
    requires stem != "" && '.' !in stem && '/' !in stem
    requires '.' !in ext && '/' !in ext
    ensures OutputBase(dir + "/" + stem + "." + ext) == dir + "/" + stem + "_part"
  {
    var name := stem + "." + ext;
    var file := dir + "/" + stem + "." + ext;
    assert file == dir + "/" + name;
    var parts := dir + "/" + stem + "_part";
    assert parts == dir + "/" + (stem + "_part");
    SplitExtOfPlainName(stem, ext);
    OutputBaseOfJoin(dir, name);
  }

  /** f"{output_base}.7z.{str(n).zfill(3)}" */
  function PartName(base: string, n: nat): string {
    base + ".7z." + ZFill(NatToDecimal(n), 3)
  }

  /** The single-volume archive f"{output_base}.7z". */
  function SingleVolume(base: string): string {
    base + ".7z"
  }

  /** Below 1000, str(n) has at most three digits. */
  lemma DecimalWidth(n: nat)
    requires n < 1000
    ensures |NatToDecimal(n)| <= 3
  {
    if n >= 10 {
      assert NatToDecimal(n) == NatToDecimal(n / 10) + [DigitChar(n % 10)];
      if n >= 100 {
        assert NatToDecimal(n / 10) == NatToDecimal(n / 10 / 10) + [DigitChar(n / 10 % 10)];
      }
    }
  }

  /** A part name ends in the part number, zero-padded to at least three
      digits, exactly three below 1000, and reads back as that number. */
  lemma PartNamePadding(base: string, n: nat)
    ensures var d := PartName(base, n)[|base| + 4..];
      && PartName(base, n) == base + ".7z." + d
      && AllDigits(d) && DigitsValue(d) == n
      && 3 <= |d| && (n < 1000 ==> |d| == 3)
  {
    var d := ZFill(NatToDecimal(n), 3);
    assert PartName(base, n) == (base + ".7z.") + d;
    assert PartName(base, n)[|base| + 4..] == d;
    PaddedDecimalValue(n, 3);
    if n < 1000 {
      DecimalWidth(n);
    }
  }

  /** Different numbers name different parts, and no part is the
      single-volume archive. */
  lemma PartNameInjective(base: string, n: nat, m: nat)
    ensures PartName(base, n) == PartName(base, m) ==> n == m
    ensures PartName(base, n) != SingleVolume(base)
  {
    PartNamePadding(base, n);
    PartNamePadding(base, m);
    assert |PartName(base, n)| > |SingleVolume(base)|;
  }

  /** The parts split_file_p7zip reports when 7z succeeded and `files`
      exist: if part 001 exists, the parts 001, 002, ... in order up to
      the first missing number; otherwise the single-volume archive when it
      exists, else nothing. */
  ghost predicate ContiguousParts(base: string, files: set<string>, parts: seq<string>) {
    if PartName(base, 1) in files then
      && |parts| >= 1
      && (forall i :: 0 <= i < |parts| ==> parts[i] == PartName(base, i + 1) && parts[i] in files)
      && PartName(base, |parts| + 1) !in files
    else
      parts == if SingleVolume(base) in files then [SingleVolume(base)] else []
  }

  /** The parts are existing files, without duplicates. */
  lemma PartsDistinct(base: string, files: set<string>, parts: seq<string>)
    requires ContiguousParts(base, files, parts)
    ensures forall i :: 0 <= i < |parts| ==> parts[i] in files
    ensures forall i, j :: 0 <= i < j < |parts| ==> parts[i] != parts[j]
  {
    if PartName(base, 1) in files {
      forall i, j | 0 <= i < j < |parts|
        ensures parts[i] != parts[j]
      {
        DistinctNumbers(base, parts[i], parts[j], i + 1, j + 1);
      }
    }
  }

  lemma DistinctNumbers(base: string, p: string, q: string, n: nat, m: nat)
    requires p == PartName(base, n) && q == PartName(base, m) && n != m
    ensures p != q
  {
    PartNameInjective(base, n, m);
  }

  /** The single-volume archive is reported only alone, and only when
      part 001 does not exist. */
  lemma SingleVolumeAlone(base: string, files: set<string>, parts: seq<string>)
    requires ContiguousParts(base, files, parts)
    ensures SingleVolume(base) in parts ==> PartName(base, 1) !in files && parts == [SingleVolume(base)]
  {
    if PartName(base, 1) in files {
      forall i | 0 <= i < |parts|
        ensures parts[i] != SingleVolume(base)
      {
        PartNameInjective(base, i + 1, i + 1);
      }
    }
  }

  /** Every part number up to the reported count exists. */
  lemma NumberedPartExists(base: string, files: set<string>, parts: seq<string>, k: nat)
    requires ContiguousParts(base, files, parts) && PartName(base, 1) in files
    requires k < |parts|
    ensures PartName(base, k + 1) in files
  {
    assert parts[k] == PartName(base, k + 1);
  }

  /** The enumeration determines its result: only one list of parts fits
      a given set of files. */
  lemma ContiguousPartsUnique(base: string, files: set<string>, p1: seq<string>, p2: seq<string>)
    requires ContiguousParts(base, files, p1) && ContiguousParts(base, files, p2)
    ensures p1 == p2
  {
    if PartName(base, 1) in files {
      if |p1| < |p2| {
        NumberedPartExists(base, files, p2, |p1|);
        assert false;
      }
      if |p2| < |p1| {
        NumberedPartExists(base, files, p1, |p2|);
        assert false;
      }
      assert forall i :: 0 <= i < |p1| ==> p1[i] == p2[i];
    }
  }

  /** There are no more numbered parts than files. */
  lemma {:induction false} PartsBound(base: string, files: set<string>, k: nat)
    requires forall i :: 1 <= i <= k ==> PartName(base, i) in files
    ensures k <= |files|
  {
    if k > 0 {
      var rest := files - {PartName(base, k)};
      forall i | 1 <= i < k
        ensures PartName(base, i) in rest
      {
        PartNameInjective(base, i, k);
      }
      PartsBound(base, rest, k - 1);
    }
  }

  /** A part found by the loop is one more existing file. */
  lemma NewPart(base: string, files: set<string>, parts: seq<string>)
    requires forall i :: 0 <= i < |parts| ==> parts[i] == PartName(base, i + 1) && parts[i] in files
    requires PartName(base, |parts| + 1) in files
    ensures |parts| + 1 <= |files|
  {
    forall i | 1 <= i <= |parts| + 1
      ensures PartName(base, i) in files
    {
      if i <= |parts| {
        assert parts[i - 1] == PartName(base, i);
      }
    }
    PartsBound(base, files, |parts| + 1);
  }

  /** The while True loop of split_file_p7zip over the files 7z left. */
  method CollectParts(base: string, files: set<string>) returns (parts: seq<string>)
    ensures ContiguousParts(base, files, parts)
  {
    parts := [];
    var partNum: nat := 1;
    while true
      invariant partNum == |parts| + 1 <= |files| + 1
      invariant forall i :: 0 <= i < |parts| ==> parts[i] == PartName(base, i + 1) && parts[i] in files
      decreases |files| - |parts|
    {
      var partFile := PartName(base, partNum);
      if partFile in files {
        NewPart(base, files, parts);
        parts := parts + [partFile];
        partNum := partNum + 1;
      } else {
        if partNum == 1 {
          if SingleVolume(base) in files {
            parts := parts + [SingleVolume(base)];
          }
        } else {
          assert parts[0] == PartName(base, 1);
        }
        break;
      }
    }
  }

  /** ["7z", "a", f"-v{max_size_mb}m", "-mx=0", f"{output_base}.7z", file_path] */
  function SplitCommand(filePath: string, maxSizeMb: int): seq<string> {
    ["7z", "a", "-v" + IntToDecimal(maxSizeMb) + "m", "-mx=0", SingleVolume(OutputBase(filePath)), filePath]
  }

  /** split_file_p7zip. `fileSize` is os.path.getsize (None: it raised),
      `tool` the outcome of running 7z, `files` the paths that exist
      afterwards. Returns the parts and the command run, if any. */
  method SplitFile(filePath: string, maxSizeMb: int, fileSize: Option<nat>, tool: ToolRun, files: set<string>)
    returns (parts: seq<string>, command: Option<seq<string>>)
    ensures command.Some? <==> fileSize.Some? && fileSize.value > maxSizeMb * 1024 * 1024
    ensures command.Some? ==> command.value == SplitCommand(filePath, maxSizeMb)
    ensures command.None? || tool != ToolExited(0) ==> parts == []
    ensures command.Some? && tool == ToolExited(0) ==> ContiguousParts(OutputBase(filePath), files, parts)
  {
    if fileSize.None? {
      return [], None;
    }
    if fileSize.value <= maxSizeMb * 1024 * 1024 {
      return [], None;
    }
    var base := OutputBase(filePath);
    command := Some(SplitCommand(filePath, maxSizeMb));
    if tool.ToolRaised? || tool.code != 0 {
      return [], command;
    }
    parts := CollectParts(base, files);
  }

  // ---------------------------------------------------------------------
  // extract_7z_parts
  // ---------------------------------------------------------------------

  /** The index of the first entry of the listing that is a regular file
      once joined to dir, or |listing| when there is none. */
  function FirstFile(listing: seq<string>, dir: string, isFile: string -> bool): (i: nat)
    ensures i <= |listing|
    ensures i < |listing| ==> isFile(Paths.Join(dir, listing[i]))
    ensures forall k :: 0 <= k < i ==> !isFile(Paths.Join(dir, listing[k]))
  {
    if listing == [] then 0
    else if isFile(Paths.Join(dir, listing[0])) then 0
    else 1 + FirstFile(listing[1..], dir, isFile)
  }

  /** extract_7z_parts. `tool` is the outcome of 7z x, `listing` the
      output directory's listing (None: os.listdir raised), `isFile`
      os.path.isfile. */
  method ExtractParts(outputDir: string, tool: ToolRun, listing: Option<seq<string>>, isFile: string -> bool)
    returns (r: Option<string>)
    ensures tool != ToolExited(0) || listing.None? ==> r == None
    ensures tool == ToolExited(0) && listing.Some? ==>
              var i := FirstFile(listing.value, outputDir, isFile);
              r == if i < |listing.value| then Some(Paths.Join(outputDir, listing.value[i])) else None
  {
    if tool.ToolRaised? || tool.code != 0 || listing.None? {
      return None;
    }
    var names := listing.value;
    var k := 0;
    while k < |names|
      invariant 0 <= k <= |names|
      invariant forall j :: 0 <= j < k ==> !isFile(Paths.Join(outputDir, names[j]))
    {
      var path := Paths.Join(outputDir, names[k]);
      if isFile(path) {
        return Some(path);
      }
      k := k + 1;
    }
    return None;
  }
}
