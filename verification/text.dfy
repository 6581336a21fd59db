/** String functions on ASCII text and slash-separated paths. */
module Text {

  predicate IsSpace(c: char) {
    c == ' ' || c == '\t' || c == '\n' || c == '\r' || c == '\U{000B}' || c == '\U{000C}'
  }

  /** The text without surrounding white space. */
  function Trimmed(s: string): string
    decreases |s|
  {
    if s == "" then ""
    else if IsSpace(s[0]) then Trimmed(s[1..])
    else if IsSpace(s[|s| - 1]) then Trimmed(s[..|s| - 1])
    else s
  }

  /** What is cut off is white space, and what is left has none at its ends. */
  lemma {:induction false} TrimmedReadOut(s: string) returns (front: string, back: string)
    ensures s == front + Trimmed(s) + back
    ensures forall i :: 0 <= i < |front| ==> front[i] == ' ' || '\t' <= front[i] <= '\r'
    ensures forall i :: 0 <= i < |back| ==> back[i] == ' ' || '\t' <= back[i] <= '\r'
    decreases |s|
  {
    front, back := "", "";
    if s != "" && IsSpace(s[0]) {
      front, back := TrimmedReadOut(s[1..]);
      Prepended(s, front, Trimmed(s[1..]), back);
      front := [s[0]] + front;
    } else if s != "" && IsSpace(s[|s| - 1]) {
      front, back := TrimmedReadOut(s[..|s| - 1]);
      Appended(s, front, Trimmed(s[..|s| - 1]), back);
      back := back + [s[|s| - 1]];
    }
  }

  lemma Prepended(s: string, front: string, middle: string, back: string)
    requires s != "" && s[1..] == front + middle + back
    ensures s == ([s[0]] + front) + middle + back
  {
    assert s == [s[0]] + s[1..];
  }

  lemma Appended(s: string, front: string, middle: string, back: string)
    requires s != "" && s[..|s| - 1] == front + middle + back
    ensures s == front + middle + (back + [s[|s| - 1]])
  {
    assert s == s[..|s| - 1] + [s[|s| - 1]];
  }

  lemma {:induction false} TrimmedEnds(s: string)
    ensures Trimmed(s) != "" ==>
              var first, last := Trimmed(s)[0], Trimmed(s)[|Trimmed(s)| - 1];
              first != ' ' && !('\t' <= first <= '\r') && last != ' ' && !('\t' <= last <= '\r')
    decreases |s|
  {
    if s != "" && IsSpace(s[0]) {
      TrimmedEnds(s[1..]);
    } else if s != "" && IsSpace(s[|s| - 1]) {
      TrimmedEnds(s[..|s| - 1]);
    }
  }

  predicate Blank(s: string) {
    Trimmed(s) == ""
  }

  function LowerChar(c: char): char {
    if 'A' <= c <= 'Z' then c - 'A' + 'a' else c
  }

  function ToLower(s: string): (r: string)
    ensures |r| == |s|
  {
    seq(|s|, i requires 0 <= i < |s| => LowerChar(s[i]))
  }

  predicate HasSuffix(s: string, suffix: string) {
    |suffix| <= |s| && s[|s| - |suffix|..] == suffix
  }

  /** The last position at which `sub` occurs, or -1. */
  function LastIndex(s: string, sub: string): (i: int)
    ensures -1 <= i && (0 <= i ==> i + |sub| <= |s| && s[i..i + |sub|] == sub)
    decreases |s|
  {
    if |s| < |sub| then -1
    else if s[|s| - |sub|..] == sub then |s| - |sub|
    else if s == "" then -1
    else LastIndex(s[..|s| - 1], sub)
  }

  predicate IsDigit(c: char) {
    '0' <= c <= '9'
  }

  predicate AllDigits(s: string) {
    s != "" && forall i :: 0 <= i < |s| ==> IsDigit(s[i])
  }

  /** The number that a run of digits denotes. */
  function DigitsValue(s: string): nat
    requires forall i :: 0 <= i < |s| ==> IsDigit(s[i])
  {
    if s == "" then 0
    else
      assert IsDigit(s[|s| - 1]);
      DigitsValue(s[..|s| - 1]) * 10 + (s[|s| - 1] as int - '0' as int)
  }

  /** One more digit at the end. */
  lemma DigitsReadOut(s: string, d: char)
    requires (forall i :: 0 <= i < |s| ==> IsDigit(s[i])) && IsDigit(d)
    ensures DigitsValue("") == 0 && DigitsValue(s + [d]) == 10 * DigitsValue(s) + (d as int - '0' as int)
  {
    assert (s + [d])[..|s|] == s;
  }

  // ---------------------------------------------------------------------
  // Paths

  function StripSlashes(p: string): string {
    if p != "" && p[|p| - 1] == '/' then StripSlashes(p[..|p| - 1]) else p
  }

  /** The position of the last slash, or -1. */
  function LastSlash(p: string): (i: int)
    ensures -1 <= i < |p| && (0 <= i ==> p[i] == '/')
    ensures forall j :: i < j < |p| ==> p[j] != '/'
  {
    if p == "" then -1
    else if p[|p| - 1] == '/' then |p| - 1
    else LastSlash(p[..|p| - 1])
  }

  /** The last component of a path. */
  function Base(p: string): string {
    if p == "" then "."
    else
      var q := StripSlashes(p);
      if q == "" then "/" else q[LastSlash(q) + 1..]
  }

  /** The directory of a clean absolute path. */
  function Dir(p: string): string {
    if LastSlash(p) <= 0 then "/" else p[..LastSlash(p)]
  }

  /** An absolute directory, written without a slash at its end unless it is the root. */
  predicate IsDirectory(dir: string) {
    dir != "" && dir[0] == '/' && (dir == "/" || dir[|dir| - 1] != '/')
  }

  /** A file name appended to a clean absolute directory. */
  function Join(dir: string, name: string): string {
    if name == ".." then Dir(dir)
    else if dir == "/" then "/" + name
    else dir + "/" + name
  }

  predicate NoSlash(s: string) {
    forall i :: 0 <= i < |s| ==> s[i] != '/'
  }

  /** A clean absolute path to something below the root, without surrounding white space. */
  predicate CleanPath(p: string) {
    && 2 <= |p| && p[0] == '/' && p[|p| - 1] != '/' && !IsSpace(p[|p| - 1])
    && (forall i :: 0 <= i < |p| - 1 && p[i] == '/' ==> p[i + 1] != '/')
    && (forall i :: 0 <= i < |p| - 1 && p[i] == '/' && p[i + 1] == '.' ==>
          && i + 2 < |p| && p[i + 2] != '/'
          && (p[i + 2] == '.' ==> i + 3 < |p| && p[i + 3] != '/'))
  }

  /** A clean path is its directory joined with its last component. */
  lemma CleanPathParts(p: string)
    requires CleanPath(p)
    ensures Trimmed(p) == p && Base(p) != "" && NoSlash(Base(p))
    ensures Base(p) == p[LastSlash(p) + 1..] && 0 <= LastSlash(p)
  {
    assert p[0] == '/';
  }

  lemma LastSlashOf(head: string, name: string)
    requires head != "" && head[|head| - 1] == '/' && NoSlash(name)
    ensures LastSlash(head + name) == |head| - 1
  {
    var p := head + name;
    assert p[|head| - 1] == '/';
    assert forall j :: |head| <= j < |p| ==> p[j] == name[j - |head|];
  }

  lemma BaseOf(head: string, name: string)
    requires head != "" && head[|head| - 1] == '/' && name != "" && NoSlash(name)
    ensures Base(head + name) == name
  {
    LastSlashOf(head, name);
    assert (head + name)[|head + name| - 1] == name[|name| - 1];
  }

  /** Joining can be undone, for a directory that does not end in a slash unless it is the root. */
  lemma JoinParts(dir: string, name: string)
    requires IsDirectory(dir)
    requires name != "" && NoSlash(name) && name != ".." && !IsSpace(name[|name| - 1])
    ensures Trimmed(Join(dir, name)) == Join(dir, name)
    ensures Dir(Join(dir, name)) == dir && Base(Join(dir, name)) == name
  {
    var head := if dir == "/" then dir else dir + "/";
    assert Join(dir, name) == head + name;
    LastSlashOf(head, name);
    BaseOf(head, name);
    assert (head + name)[|head + name| - 1] == name[|name| - 1];
    assert (head + name)[..|head| - 1] == head[..|head| - 1];
  }

  /** Directory and name can be read off the joined path. */
  lemma JoinDetermines(dirA: string, nameA: string, dirB: string, nameB: string)
    requires IsDirectory(dirA) && IsDirectory(dirB)
    requires NoSlash(nameA) && NoSlash(nameB) && nameA != ".." && nameB != ".."
    requires Join(dirA, nameA) == Join(dirB, nameB)
    ensures dirA == dirB && nameA == nameB
  {
    JoinSplits(dirA, nameA);
    JoinSplits(dirB, nameB);
  }

  lemma JoinSplits(dir: string, name: string)
    requires IsDirectory(dir) && NoSlash(name) && name != ".."
    ensures Dir(Join(dir, name)) == dir && Join(dir, name)[LastSlash(Join(dir, name)) + 1..] == name
  {
    var head := if dir == "/" then dir else dir + "/";
    assert Join(dir, name) == head + name;
    LastSlashOf(head, name);
    assert (head + name)[..|head| - 1] == head[..|head| - 1];
    assert (head + name)[|head|..] == name;
  }

  lemma JoinInjective(dir: string, a: string, b: string)
    requires a != ".." && b != ".."
    ensures Join(dir, a) == Join(dir, b) <==> a == b
  {
    var head := if dir == "/" then "/" else dir + "/";
    assert Join(dir, a) == head + a && Join(dir, b) == head + b;
    assert (head + a)[|head|..] == a && (head + b)[|head|..] == b;
  }

  lemma DirOfCleanPath(p: string)
    requires CleanPath(p)
    ensures IsDirectory(Dir(p))
  {
    var i := LastSlash(p);
    if i > 0 {
      assert p[..i][i - 1] == p[i - 1];
    }
  }

  lemma ToLowerConcat(a: string, b: string)
    ensures ToLower(a + b) == ToLower(a) + ToLower(b)
  {
  }

  lemma ToLowerDigits(s: string)
    requires forall i :: 0 <= i < |s| ==> IsDigit(s[i])
    ensures ToLower(s) == s
  {
  }

  /** A name a user may give to a download; none at all is allowed. */
  predicate IsUserName(name: string) {
    name != "." && name != ".." && forall i :: 0 <= i < |name| ==> name[i] != '/' && name[i] != '\\'
  }

  /** What a job row stores as a file name, reduced to a bare name or nothing. */
  function Sanitize(name: string): string {
    if name == "" then ""
    else
      var base := Base(Trimmed(name));
      if base == "" || base == "." || base == "/" then ""
      else if (exists i :: 0 <= i < |base| && (base[i] == '/' || base[i] == '\\')) then ""
      else base
  }
}
