/** The naming rules of volumes on the names themselves: `x.part07.rar`, `x.rar`, `x.r07`, in any case. */
module VolumeNames {
  import opened Text
  import opened Jobs
  import opened Volumes

  /** The text up to upper and lower case. */
  predicate Spells(s: string, word: string) {
    |s| == |word| && forall i :: 0 <= i < |s| ==> s[i] == word[i] || ('A' <= s[i] <= 'Z' && s[i] - 'A' + 'a' == word[i])
  }

  lemma SpelledLower(s: string, word: string)
    requires Spells(s, word) && forall i :: 0 <= i < |word| ==> !('A' <= word[i] <= 'Z')
    ensures ToLower(s) == word
  {
  }

  lemma RarSuffix(stem: string, ext: string)
    requires Spells(ext, ".rar")
    ensures IsRar(stem + ext) && Stem(stem + ext) == stem
  {
    SpelledLower(ext, ".rar");
    ToLowerConcat(stem, ext);
  }

  /** A name with a part number: prefix, marker, digits and extension. */
  predicate IsPartName(prefix: string, marker: string, digits: string, ext: string) {
    Spells(marker, ".part") && AllDigits(digits) && Spells(ext, ".rar")
  }

  lemma PartReadOut(prefix: string, marker: string, digits: string, ext: string)
    requires IsPartName(prefix, marker, digits, ext)
    ensures PartOf(prefix + marker + digits + ext) == Some(Part(prefix, digits))
  {
    var stem := prefix + marker + digits;
    RarSuffix(stem, ext);
    SpelledLower(marker, ".part");
    ToLowerConcat(prefix + marker, digits);
    ToLowerConcat(prefix, marker);
    ToLowerDigits(digits);
    LastPartIndex(ToLower(prefix) + ".part", digits);
    assert stem[..|prefix|] == prefix && stem[|prefix| + 5..] == digits;
  }

  /** A bare name that ends like this may follow a directory. */
  lemma PartIsFileName(prefix: string, marker: string, digits: string, ext: string)
    requires IsPartName(prefix, marker, digits, ext) && NoSlash(prefix)
    ensures IsFileName(prefix + marker + digits + ext)
  {
    var name := prefix + marker + digits + ext;
    assert name[|name| - 1] == ext[3];
    assert forall i :: 0 <= i < |marker| ==> marker[i] != '/';
    assert forall i :: 0 <= i < |ext| ==> ext[i] != '/';
  }

  /** The first volume of a later part: part one, its number filled up with zeros to the same width. */
  lemma FirstOfPart(dir: string, prefix: string, marker: string, digits: string, ext: string)
    requires IsDirectory(dir) && NoSlash(prefix) && IsPartName(prefix, marker, digits, ext)
    ensures var path := Join(dir, prefix + marker + digits + ext);
            FirstVolume(path) == if 1 < DigitsValue(digits) <= 0x7FFF_FFFF_FFFF_FFFF
                                 then Join(dir, prefix + ".part" + seq(|digits| - 1, _ => '0') + "1" + ".rar") else path
  {
    PartReadOut(prefix, marker, digits, ext);
    PartIsFileName(prefix, marker, digits, ext);
    VolumeOfJoin(dir, prefix + marker + digits + ext);
    FirstOfParts(prefix + marker + digits + ext, prefix, digits);
  }

  lemma FirstOfParts(base: string, prefix: string, digits: string)
    requires AllDigits(digits) && PartOf(base) == Some(Part(prefix, digits))
    ensures FirstName(base) == if 1 < DigitsValue(digits) <= 0x7FFF_FFFF_FFFF_FFFF
                               then Some(prefix + ".part" + seq(|digits| - 1, _ => '0') + "1" + ".rar") else None
  {
    assert prefix + ".part" + (seq(|digits| - 1, _ => '0') + "1") + ".rar"
        == prefix + ".part" + seq(|digits| - 1, _ => '0') + "1" + ".rar";
  }

  /** All parts with one prefix, in any case, are one group within their directory. */
  lemma KeyOfPart(dir: string, prefix: string, marker: string, digits: string, ext: string)
    requires IsDirectory(dir) && NoSlash(prefix) && IsPartName(prefix, marker, digits, ext)
    ensures GroupKey(Join(dir, prefix + marker + digits + ext)).0 == ToLower(dir) + ("|partrar|" + ToLower(prefix))
  {
    PartReadOut(prefix, marker, digits, ext);
    PartIsFileName(prefix, marker, digits, ext);
    RarSuffix(prefix + marker + digits, ext);
    VolumeOfJoin(dir, prefix + marker + digits + ext);
  }

  /** An old-style extension: a dot, an r, and two digits. */
  predicate IsOldExtension(ext: string) {
    |ext| == 4 && ext[0] == '.' && (ext[1] == 'r' || ext[1] == 'R') && IsDigit(ext[2]) && IsDigit(ext[3])
  }

  /** The old-style volumes are the names with such an extension, and something before it. */
  lemma OldVolumeIff(base: string)
    ensures IsOldVolume(base) <==> 4 < |base| && IsOldExtension(base[|base| - 4..])
  {
    if 4 < |base| {
      var n := |base|;
      var ext, digits := base[n - 4..], base[n - 2..];
      assert ext[0] == base[n - 4] && ext[1] == base[n - 3] && ext[2] == base[n - 2] && ext[3] == base[n - 1];
      assert digits[0] == base[n - 2] && digits[1] == base[n - 1];
      RarEndsInLetter(base);
    }
  }

  lemma RarEndsInLetter(base: string)
    requires base != ""
    ensures IsRar(base) ==> !IsDigit(base[|base| - 1])
  {
    if IsRar(base) {
      var tail := ToLower(base)[|base| - 4..];
      assert tail[3] == LowerChar(base[|base| - 1]);
    }
  }

  lemma OldReadOut(stem: string, ext: string)
    requires stem != "" && NoSlash(stem) && IsOldExtension(ext)
    ensures IsOldVolume(stem + ext) && Stem(stem + ext) == stem && IsFileName(stem + ext)
  {
    var name := stem + ext;
    assert name[|name| - 4..] == ext && name[..|name| - 4] == stem;
    assert name[|name| - 1] == ext[3];
    OldVolumeIff(name);
  }

  /** Their first volume is the name with `.rar` in place of that extension, and their key is that of the stem. */
  lemma FirstOfOld(dir: string, stem: string, ext: string)
    requires IsDirectory(dir) && stem != "" && NoSlash(stem) && IsOldExtension(ext)
    ensures FirstVolume(Join(dir, stem + ext)) == Join(dir, stem + ".rar")
    ensures GroupKey(Join(dir, stem + ext)).0 == ToLower(dir) + ("|rstyle|" + ToLower(stem))
  {
    OldReadOut(stem, ext);
    VolumeOfJoin(dir, stem + ext);
  }

  /** A `.rar` file without a part number is its own first volume, in the group of its stem. */
  lemma PlainRar(dir: string, stem: string, ext: string)
    requires IsDirectory(dir) && NoSlash(stem) && Spells(ext, ".rar") && PartOf(stem + ext).None?
    ensures FirstVolume(Join(dir, stem + ext)) == Join(dir, stem + ext)
    ensures GroupKey(Join(dir, stem + ext)).0 == ToLower(dir) + ("|rstyle|" + ToLower(stem))
  {
    RarSuffix(stem, ext);
    RarIsFileName(stem, ext);
    VolumeOfJoin(dir, stem + ext);
  }

  lemma RarIsFileName(stem: string, ext: string)
    requires NoSlash(stem) && Spells(ext, ".rar")
    ensures IsFileName(stem + ext)
  {
    var name := stem + ext;
    assert name[|name| - 1] == ext[3];
    assert forall i :: 0 <= i < |ext| ==> ext[i] != '/';
  }

  /** Every other file stands alone. */
  lemma OtherFiles(dir: string, name: string)
    requires IsDirectory(dir) && IsFileName(name) && !IsRar(name) && !IsOldVolume(name)
    ensures FirstVolume(Join(dir, name)) == Join(dir, name) && GroupKey(Join(dir, name)).0 == ""
  {
    VolumeOfJoin(dir, name);
  }

  /** The names that count as archives, in any case. */
  lemma ArchiveIff(dir: string, name: string)
    requires IsDirectory(dir) && IsFileName(name)
    ensures IsArchiveFile(Join(dir, name)) <==> exists n :: 0 <= n <= |name| && IsArchiveExtension(name[n..])
  {
    JoinParts(dir, name);
    if IsArchiveFile(Join(dir, name)) {
      var i :| 0 <= i < |ARCHIVE_SUFFIXES| && HasSuffix(ToLower(name), ARCHIVE_SUFFIXES[i]);
      ExtensionOf(name, ARCHIVE_SUFFIXES[i]);
    }
    forall n | 0 <= n <= |name| && IsArchiveExtension(name[n..])
      ensures IsArchiveFile(Join(dir, name))
    {
      SuffixOf(name, n);
    }
  }

  predicate IsArchiveExtension(ext: string) {
    || Spells(ext, ".zip") || Spells(ext, ".7z") || Spells(ext, ".rar") || Spells(ext, ".tar")
    || Spells(ext, ".tar.gz") || Spells(ext, ".tgz") || Spells(ext, ".tar.bz2") || Spells(ext, ".tbz2")
    || Spells(ext, ".tar.xz") || Spells(ext, ".txz") || Spells(ext, ".gz") || Spells(ext, ".bz2") || Spells(ext, ".xz")
  }

  lemma ExtensionOf(name: string, suffix: string)
    requires HasSuffix(ToLower(name), suffix)
    ensures Spells(name[|name| - |suffix|..], suffix)
  {
    var n := |name| - |suffix|;
    assert forall i :: 0 <= i < |suffix| ==> ToLower(name)[n..][i] == LowerChar(name[n + i]);
  }

  lemma SuffixOf(name: string, n: nat)
    requires n <= |name| && IsArchiveExtension(name[n..])
    ensures exists i :: 0 <= i < |ARCHIVE_SUFFIXES| && HasSuffix(ToLower(name), ARCHIVE_SUFFIXES[i])
  {
    var i := WhichExtension(name[n..]);
    SpelledSuffix(name, n, ARCHIVE_SUFFIXES[i]);
  }

  lemma SpelledSuffix(name: string, n: nat, suffix: string)
    requires n <= |name| && Spells(name[n..], suffix) && forall i :: 0 <= i < |suffix| ==> !('A' <= suffix[i] <= 'Z')
    ensures HasSuffix(ToLower(name), suffix)
  {
    SpelledLower(name[n..], suffix);
    assert ToLower(name)[n..] == ToLower(name[n..]);
  }

  lemma WhichExtension(ext: string) returns (i: nat)
    requires IsArchiveExtension(ext)
    ensures i < |ARCHIVE_SUFFIXES| && Spells(ext, ARCHIVE_SUFFIXES[i])
    ensures forall j :: 0 <= j < |ARCHIVE_SUFFIXES[i]| ==> !('A' <= ARCHIVE_SUFFIXES[i][j] <= 'Z')
  {
    i := if Spells(ext, ".zip") then 0 else if Spells(ext, ".7z") then 1 else if Spells(ext, ".rar") then 2
         else if Spells(ext, ".tar") then 3 else if Spells(ext, ".tar.gz") then 4 else if Spells(ext, ".tgz") then 5
         else if Spells(ext, ".tar.bz2") then 6 else if Spells(ext, ".tbz2") then 7 else if Spells(ext, ".tar.xz") then 8
         else if Spells(ext, ".txz") then 9 else if Spells(ext, ".gz") then 10 else if Spells(ext, ".bz2") then 11 else 12;
  }
}
