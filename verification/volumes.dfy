/** Names of multi-volume archives: which file an extraction starts from, and which files belong together. */
module Volumes {
  import opened Text
  import opened Jobs

  const MAX_INT: nat := 0x7FFF_FFFF_FFFF_FFFF

  const ARCHIVE_SUFFIXES := [".zip", ".7z", ".rar", ".tar", ".tar.gz", ".tgz", ".tar.bz2", ".tbz2",
                             ".tar.xz", ".txz", ".gz", ".bz2", ".xz"]

  predicate IsArchiveFile(path: string) {
    exists i :: 0 <= i < |ARCHIVE_SUFFIXES| && HasSuffix(ToLower(Base(Trimmed(path))), ARCHIVE_SUFFIXES[i])
  }

  predicate IsRar(base: string) {
    HasSuffix(ToLower(base), ".rar")
  }

  function Stem(base: string): string
    requires 4 <= |base|
  {
    base[..|base| - 4]
  }

  datatype Part = Part(prefix: string, number: string)

  /** The prefix and the digits of a name like `x.part07.rar`. */
  function PartOf(base: string): (r: Option<Part>)
    ensures r.Some? ==> IsRar(base) && AllDigits(r.value.number) && |r.value.prefix| + 5 + |r.value.number| + 4 == |base|
  {
    if !IsRar(base) then None
    else
      var stem := Stem(base);
      var i := LastIndex(ToLower(stem), ".part");
      if 0 <= i && AllDigits(stem[i + 5..]) then Some(Part(stem[..i], stem[i + 5..])) else None
  }

  /** A name like `x.r07`. */
  predicate IsOldVolume(base: string) {
    && !IsRar(base) && 4 < |base|
    && base[|base| - 4] == '.' && LowerChar(base[|base| - 3]) == 'r'
    && AllDigits(base[|base| - 2..])
  }

  function FirstNumber(width: nat): string
    requires 0 < width
  {
    seq(width - 1, _ => '0') + "1"
  }

  function PartName(prefix: string, number: string): string {
    prefix + ".part" + number + ".rar"
  }

  /** Whether the part number is one that is replaced by the first: above one, and not too large. */
  predicate IsLaterPart(part: Part)
    requires AllDigits(part.number)
  {
    1 < DigitsValue(part.number) <= MAX_INT
  }

  /** The name of the first volume, if that is another file. */
  function FirstName(base: string): Option<string> {
    if IsRar(base) then
      var part := PartOf(base);
      if part.Some? && IsLaterPart(part.value)
      then Some(PartName(part.value.prefix, FirstNumber(|part.value.number|)))
      else None
    else if IsOldVolume(base) then Some(Stem(base) + ".rar")
    else None
  }

  function FirstVolume(path: string): string {
    var clean := Trimmed(path);
    if clean == "" then clean
    else
      match FirstName(Base(clean))
      case Some(first) => Join(Dir(clean), first)
      case None => clean
  }

  /** The part of a group key that depends on the name, and whether the name itself says "multi-volume". */
  function NameKey(base: string): (string, bool) {
    if IsRar(base) then
      match PartOf(base)
      case Some(part) => ("|partrar|" + ToLower(part.prefix), true)
      case None => ("|rstyle|" + ToLower(Stem(base)), false)
    else if IsOldVolume(base) then ("|rstyle|" + ToLower(Stem(base)), true)
    else ("", false)
  }

  /** The key shared by the volumes of one archive, empty for anything else. */
  function GroupKey(path: string): (string, bool) {
    var clean := Trimmed(path);
    if clean == "" then ("", false)
    else
      var (key, explicit) := NameKey(Base(clean));
      if key == "" then ("", false) else (ToLower(Dir(clean)) + key, explicit)
  }

  // ---------------------------------------------------------------------
  // Names put together are taken apart again

  lemma DigitEndsNoMarker(s: string)
    requires 5 <= |s| && IsDigit(s[|s| - 1])
    ensures s[|s| - 5..] != ".part"
  {
    var tail := s[|s| - 5..];
    assert tail[4] == s[|s| - 1];
  }

  lemma DropLastDigit(marked: string, digits: string)
    requires digits != ""
    ensures (marked + digits)[..|marked + digits| - 1] == marked + digits[..|digits| - 1]
    ensures (marked + digits)[|marked + digits| - 1] == digits[|digits| - 1]
  {
  }

  /** Digits after a marker do not hide it. */
  lemma {:induction false} LastPartIndex(marked: string, digits: string)
    requires HasSuffix(marked, ".part")
    requires forall i :: 0 <= i < |digits| ==> IsDigit(digits[i])
    ensures LastIndex(marked + digits, ".part") == |marked| - 5
    decreases |digits|
  {
    if digits == "" {
      assert marked + digits == marked;
    } else {
      DropLastDigit(marked, digits);
      DigitEndsNoMarker(marked + digits);
      LastPartIndex(marked, digits[..|digits| - 1]);
    }
  }

  lemma RarNameParts(stem: string)
    ensures IsRar(stem + ".rar") && Stem(stem + ".rar") == stem
  {
    ToLowerConcat(stem, ".rar");
    assert ToLower(".rar") == ".rar";
  }

  lemma PartNameParts(prefix: string, digits: string)
    requires AllDigits(digits)
    ensures PartOf(PartName(prefix, digits)) == Some(Part(prefix, digits))
  {
    var stem := prefix + ".part" + digits;
    RarNameParts(stem);
    ToLowerConcat(prefix + ".part", digits);
    ToLowerConcat(prefix, ".part");
    ToLowerDigits(digits);
    assert ToLower(".part") == ".part";
    LastPartIndex(ToLower(prefix) + ".part", digits);
    assert stem[..|prefix|] == prefix && stem[|prefix| + 5..] == digits;
  }

  lemma {:induction false} ZerosAreWorthNothing(n: nat)
    ensures DigitsValue(seq(n, _ => '0')) == 0
  {
    if n > 0 {
      assert seq(n, _ => '0')[..n - 1] == seq(n - 1, _ => '0');
      ZerosAreWorthNothing(n - 1);
    }
  }

  lemma FirstNumberIsOne(width: nat)
    requires 0 < width
    ensures AllDigits(FirstNumber(width)) && DigitsValue(FirstNumber(width)) == 1
  {
    var s := FirstNumber(width);
    assert s[..|s| - 1] == seq(width - 1, _ => '0');
    ZerosAreWorthNothing(width - 1);
  }

  // ---------------------------------------------------------------------
  // First volumes by name

  /** An old-style volume whose stem itself ends in a part number. */
  predicate IsPartNumberedOldVolume(base: string) {
    IsOldVolume(base) && PartOf(Stem(base) + ".rar").Some?
  }

  /** Such a volume: its first volume is itself a later part of another archive. */
  lemma PartNumberedOldVolumeExample()
    ensures IsPartNumberedOldVolume("x.part2.r00")
    ensures PartOf(Stem("x.part2.r00") + ".rar") == Some(Part("x", "2")) && IsLaterPart(Part("x", "2"))
  {
    var base := "x.part2.r00";
    assert ToLower(base)[|base| - 1] == '0';
    assert Stem(base) + ".rar" == PartName("x", "2");
    PartNameParts("x", "2");
    assert "2"[..0] == "";
  }

  /** Going to the first volume keeps the group key, except on old-style volumes of a numbered part. */
  lemma FirstNameKeepsKey(base: string)
    requires FirstName(base).Some?
    ensures NameKey(FirstName(base).value).0 == NameKey(base).0 <==> !IsPartNumberedOldVolume(base)
    ensures NameKey(FirstName(base).value).0 != "" && NameKey(base).0 != ""
  {
    if IsRar(base) {
      var part := PartOf(base).value;
      FirstNumberIsOne(|part.number|);
      PartNameParts(part.prefix, FirstNumber(|part.number|));
    } else {
      RarNameParts(Stem(base));
      assert "|partrar|"[1] != "|rstyle|"[1];
      assert NameKey(base).0[1] == 'r';
    }
  }

  /** The first volume of a first volume is itself, except where an old-style name hides a later part. */
  lemma FirstNameStable(base: string)
    requires FirstName(base).Some?
    ensures FirstName(FirstName(base).value).None?
       <==> !(IsPartNumberedOldVolume(base) && IsLaterPart(PartOf(Stem(base) + ".rar").value))
  {
    if IsRar(base) {
      var part := PartOf(base).value;
      FirstNumberIsOne(|part.number|);
      PartNameParts(part.prefix, FirstNumber(|part.number|));
    } else {
      RarNameParts(Stem(base));
    }
  }

  lemma RarNameIsFileName(stem: string)
    requires NoSlash(stem)
    ensures IsFileName(stem + ".rar")
  {
    var name := stem + ".rar";
    assert name[|name| - 1] == 'r';
  }

  lemma FirstNameShape(base: string)
    requires NoSlash(base) && FirstName(base).Some?
    ensures IsFileName(FirstName(base).value)
  {
    if IsRar(base) {
      var part := PartOf(base).value;
      RarNameIsFileName(part.prefix + ".part" + FirstNumber(|part.number|));
    } else {
      RarNameIsFileName(Stem(base));
    }
  }

  /** A name that may follow a directory. */
  predicate IsFileName(name: string) {
    4 <= |name| && NoSlash(name) && !IsSpace(name[|name| - 1])
  }

  /** On a directory joined with a name, everything depends on the name. */
  lemma VolumeOfJoin(dir: string, name: string)
    requires IsDirectory(dir) && IsFileName(name)
    ensures FirstVolume(Join(dir, name))
         == Join(dir, if FirstName(name).Some? then FirstName(name).value else name)
    ensures GroupKey(Join(dir, name)).0
         == if NameKey(name).0 == "" then "" else ToLower(dir) + NameKey(name).0
  {
    JoinParts(dir, name);
  }

  /** The first volume of a clean path lies in the same directory. */
  lemma FirstVolumeParts(path: string)
    requires CleanPath(path)
    ensures IsDirectory(Dir(path)) && NoSlash(Base(path))
    ensures FirstName(Base(path)).None? ==> FirstVolume(path) == path
    ensures FirstName(Base(path)).Some? ==>
              && IsFileName(FirstName(Base(path)).value)
              && FirstVolume(path) == Join(Dir(path), FirstName(Base(path)).value)
    ensures GroupKey(path).0 == if NameKey(Base(path)).0 == "" then "" else ToLower(Dir(path)) + NameKey(Base(path)).0
  {
    CleanPathParts(path);
    DirOfCleanPath(path);
    if FirstName(Base(path)).Some? {
      FirstNameShape(Base(path));
    }
  }

  // ---------------------------------------------------------------------
  // First volumes by path

  /** The first volume is in the same group as the volume, with one exact exception. */
  lemma FirstVolumeKeepsGroup(path: string)
    requires CleanPath(path)
    ensures GroupKey(FirstVolume(path)).0 == GroupKey(path).0 <==> !IsPartNumberedOldVolume(Base(path))
  {
    FirstVolumeParts(path);
    var base := Base(path);
    if FirstName(base).Some? {
      var first := FirstName(base).value;
      VolumeOfJoin(Dir(path), first);
      FirstNameKeepsKey(base);
      SamePrefix(ToLower(Dir(path)), NameKey(base).0, NameKey(first).0);
    }
  }

  lemma SamePrefix(a: string, b: string, c: string)
    ensures a + b == a + c <==> b == c
  {
    assert (a + b)[|a|..] == b && (a + c)[|a|..] == c;
  }

  /** Asking twice for the first volume is the same as asking once, with one exact exception. */
  lemma FirstVolumeIdempotent(path: string)
    requires CleanPath(path)
    ensures FirstVolume(FirstVolume(path)) == FirstVolume(path)
       <==> !(IsPartNumberedOldVolume(Base(path)) && IsLaterPart(PartOf(Stem(Base(path)) + ".rar").value))
  {
    FirstVolumeParts(path);
    var base := Base(path);
    if FirstName(base).Some? {
      var first := FirstName(base).value;
      FirstNameStable(base);
      VolumeOfJoin(Dir(path), first);
      if FirstName(first).Some? {
        FirstNameShape(first);
        PartIsNotFirst(first);
        JoinInjective(Dir(path), first, FirstName(first).value);
      }
    }
  }

  /** A later part is renamed to something else. */
  lemma PartIsNotFirst(base: string)
    requires IsRar(base) && FirstName(base).Some?
    ensures FirstName(base).value != base
  {
    var part := PartOf(base).value;
    FirstNumberIsOne(|part.number|);
    PartNameParts(part.prefix, FirstNumber(|part.number|));
  }

  /** All later parts of one archive lead to one first volume. */
  lemma LaterPartsAgree(p: string, q: string)
    requires CleanPath(p) && CleanPath(q) && Dir(p) == Dir(q)
    requires PartOf(Base(p)).Some? && PartOf(Base(q)).Some?
    requires IsLaterPart(PartOf(Base(p)).value) && IsLaterPart(PartOf(Base(q)).value)
    ensures FirstVolume(p) == FirstVolume(q) <==>
              && PartOf(Base(p)).value.prefix == PartOf(Base(q)).value.prefix
              && |PartOf(Base(p)).value.number| == |PartOf(Base(q)).value.number|
  {
    var a, b := PartOf(Base(p)).value, PartOf(Base(q)).value;
    LaterPartVolume(p, a);
    LaterPartVolume(q, b);
    LaterPartNames(a, b);
    JoinInjective(Dir(p), PartName(a.prefix, FirstNumber(|a.number|)), PartName(b.prefix, FirstNumber(|b.number|)));
  }

  lemma LaterPartVolume(path: string, part: Part)
    requires CleanPath(path) && PartOf(Base(path)) == Some(part) && IsLaterPart(part)
    ensures FirstVolume(path) == Join(Dir(path), PartName(part.prefix, FirstNumber(|part.number|)))
    ensures PartName(part.prefix, FirstNumber(|part.number|)) != ".."
  {
    FirstVolumeParts(path);
  }

  lemma LaterPartNames(a: Part, b: Part)
    requires 0 < |a.number| && 0 < |b.number|
    ensures PartName(a.prefix, FirstNumber(|a.number|)) == PartName(b.prefix, FirstNumber(|b.number|))
       <==> a.prefix == b.prefix && |a.number| == |b.number|
  {
    FirstNumberIsOne(|a.number|);
    FirstNumberIsOne(|b.number|);
    PartNameParts(a.prefix, FirstNumber(|a.number|));
    PartNameParts(b.prefix, FirstNumber(|b.number|));
  }
}
