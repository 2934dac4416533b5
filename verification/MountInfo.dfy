/** Is a path a mount point, by the kernel's mount table (pkg/kubelet/src/csi.rs)? Text is
    bytes; a byte of a mount point is compared as it is, whatever it encodes. */
module MountInfo {
  import opened Common

  type Byte = n: int | 0 <= n < 256
  type Text = seq<Byte>

  const NEWLINE: Byte := 10
  const RETURN: Byte := 13
  const SPACE: Byte := 32
  const SLASH: Byte := 47
  const BACKSLASH: Byte := 92
  const ZERO: Byte := 48

  // ---------------------------------------------------------------- reading

  predicate IsOctal(b: Byte) { 48 <= b <= 55 }

  /** `s` begins with a backslash and three octal digits. */
  predicate StartsEscape(s: Text) {
    |s| > 3 && s[0] == BACKSLASH && IsOctal(s[1]) && IsOctal(s[2]) && IsOctal(s[3])
  }

  /** The byte three octal digits stand for, on eight bits. */
  function Value(a: Byte, b: Byte, c: Byte): Byte
    requires IsOctal(a) && IsOctal(b) && IsOctal(c)
  {
    ((a - ZERO) * 64 + (b - ZERO) * 8 + (c - ZERO)) % 256
  }

  function Unescape(s: Text): Text
    decreases |s|
  {
    if s == [] then []
    else if StartsEscape(s) then [Value(s[1], s[2], s[3])] + Unescape(s[4..])
    else [s[0]] + Unescape(s[1..])
  }

  /** What is left to read from `i`, and where reading goes on. */
  lemma UnescapeFrom(b: Text, i: nat)
    requires i < |b|
    ensures b[i] == BACKSLASH && i + 3 < |b| && IsOctal(b[i + 1]) && IsOctal(b[i + 2]) && IsOctal(b[i + 3])
            ==> Unescape(b[i..]) == [Value(b[i + 1], b[i + 2], b[i + 3])] + Unescape(b[i + 4..])
    ensures !(b[i] == BACKSLASH && i + 3 < |b| && IsOctal(b[i + 1]) && IsOctal(b[i + 2]) && IsOctal(b[i + 3]))
            ==> Unescape(b[i..]) == [b[i]] + Unescape(b[i + 1..])
  {
    var s := b[i..];
    assert i + 3 < |b| ==> s[1] == b[i + 1] && s[2] == b[i + 2] && s[3] == b[i + 3] && s[4..] == b[i + 4..];
    assert s[1..] == b[i + 1..];
  }

  lemma OneMore(out: Text, x: Byte, rest: Text)
    ensures (out + [x]) + rest == out + ([x] + rest)
  {
  }

  method UnescapeMountinfo(b: Text) returns (out: Text)
    ensures out == Unescape(b)
  {
    out := [];
    var i := 0;
    while i < |b|
      invariant 0 <= i <= |b|
      invariant out + Unescape(b[i..]) == Unescape(b)
    {
      UnescapeFrom(b, i);
      if b[i] == BACKSLASH && i + 3 < |b| && IsOctal(b[i + 1]) && IsOctal(b[i + 2]) && IsOctal(b[i + 3]) {
        OneMore(out, Value(b[i + 1], b[i + 2], b[i + 3]), Unescape(b[i + 4..]));
        out := out + [Value(b[i + 1], b[i + 2], b[i + 3])];
        i := i + 4;
      } else {
        OneMore(out, b[i], Unescape(b[i + 1..]));
        out := out + [b[i]];
        i := i + 1;
      }
    }
    assert b[|b|..] == [];
  }

  function StripReturn(line: Text): Text {
    if line != [] && line[|line| - 1] == RETURN then line[..|line| - 1] else line
  }

  function FindNewline(s: Text): (i: nat)
    ensures i <= |s| && NEWLINE !in s[..i] && (i < |s| ==> s[i] == NEWLINE)
  {
    if s == [] || s[0] == NEWLINE then 0 else 1 + FindNewline(s[1..])
  }

  /** The lines of a text: ended by a newline, or a return and a newline; the last may end
      with the text. */
  function Lines(s: Text): seq<Text>
    decreases |s|
  {
    if s == [] then []
    else
      var i := FindNewline(s);
      if i == |s| then [s] else [StripReturn(s[..i])] + Lines(s[i + 1..])
  }

  function TrimSlashes(path: Text): Text
    decreases |path|
  {
    if path != [] && path[|path| - 1] == SLASH then TrimSlashes(path[..|path| - 1]) else path
  }

  /** A line's fifth field names `path`. */
  predicate Names(line: Text, path: Text) {
    var fields := Split(line, SPACE);
    |fields| > 4 && Unescape(fields[4]) == path
  }

  predicate IsMountPoint(mountinfo: Text, path: Text) {
    exists line :: line in Lines(mountinfo) && Names(line, TrimSlashes(path))
  }

  // ---------------------------------------------------------------- printing, as the kernel does

  /** Space, tab, newline and backslash. */
  predicate IsEscaped(b: Byte) {
    b == 32 || b == 9 || b == 10 || b == 92
  }

  /** A backslash and the byte in three octal digits. */
  function Octal(b: Byte): Text {
    [92, 48 + b / 64, 48 + b / 8 % 8, 48 + b % 8]
  }

  function EscapeByte(b: Byte): Text {
    if IsEscaped(b) then Octal(b) else [b]
  }

  function Escape(s: Text): Text {
    if s == [] then [] else EscapeByte(s[0]) + Escape(s[1..])
  }

  /** One mount: the four fields before the mount point, the mount point as it is, and the
      rest of the line. */
  datatype Mount = Mount(id: Text, parent: Text, device: Text, root: Text, point: Text, rest: Text)

  predicate IsField(s: Text) { 32 !in s && 10 !in s }

  ghost predicate Printable(m: Mount) {
    IsField(m.id) && IsField(m.parent) && IsField(m.device) && IsField(m.root) && 10 !in m.rest
  }

  function Line(m: Mount): Text {
    m.id + [32] + (m.parent + [32] + (m.device + [32] + (m.root + [32] + (Escape(m.point) + [32] + m.rest))))
  }

  function Print(table: seq<Mount>): Text {
    if table == [] then [] else Line(table[0]) + [10] + Print(table[1..])
  }

  // ---------------------------------------------------------------- reading what was printed

  lemma InOctal(b: Byte)
    ensures b / 64 < 4 && b / 8 == 8 * (b / 64) + b / 8 % 8 && b == 8 * (b / 8) + b % 8
  {
    assert b / 64 == b / 8 / 8;
  }

  lemma ValueOf(x: nat, y: nat, z: nat, b: Byte)
    requires x < 4 && y < 8 && z < 8 && b == 64 * x + 8 * y + z
    ensures IsOctal(48 + x) && IsOctal(48 + y) && IsOctal(48 + z) && Value(48 + x, 48 + y, 48 + z) == b
  {
  }

  lemma OctalDigits(b: Byte)
    ensures IsOctal(48 + b / 64) && IsOctal(48 + b / 8 % 8) && IsOctal(48 + b % 8)
    ensures Value(48 + b / 64, 48 + b / 8 % 8, 48 + b % 8) == b
  {
    InOctal(b);
    ValueOf(b / 64, b / 8 % 8, b % 8, b);
  }

  lemma EscapeReads(x: Byte, y: Byte, z: Byte, rest: Text)
    requires IsOctal(x) && IsOctal(y) && IsOctal(z)
    ensures Unescape([92, x, y, z] + rest) == [Value(x, y, z)] + Unescape(rest)
  {
    var e := [92, x, y, z] + rest;
    assert e[4..] == rest;
  }

  /** Any byte written in octal is read back, whether it had to be written so or not. */
  lemma OctalReads(b: Byte, rest: Text)
    ensures Unescape(Octal(b) + rest) == [b] + Unescape(rest)
  {
    OctalDigits(b);
    EscapeReads(48 + b / 64, 48 + b / 8 % 8, 48 + b % 8, rest);
  }

  /** A byte that begins no escape is kept: a backslash followed by anything but three octal digits too. */
  lemma OthersRead(b: Byte, rest: Text)
    requires !(b == 92 && |rest| >= 3 && 48 <= rest[0] <= 55 && 48 <= rest[1] <= 55 && 48 <= rest[2] <= 55)
    ensures Unescape([b] + rest) == [b] + Unescape(rest)
  {
    var s := [b] + rest;
    assert s[0] == b && s[1..] == rest;
    assert |s| > 3 ==> s[1] == rest[0] && s[2] == rest[1] && s[3] == rest[2];
  }

  lemma EscapedByte(b: Byte, rest: Text)
    ensures Unescape(EscapeByte(b) + rest) == [b] + Unescape(rest)
    ensures IsField(EscapeByte(b))
  {
    if IsEscaped(b) {
      OctalReads(b, rest);
    } else {
      OthersRead(b, rest);
    }
  }

  lemma {:induction false} UnescapeUndoesEscape(s: Text)
    ensures Unescape(Escape(s)) == s
    ensures IsField(Escape(s))
    decreases |s|
  {
    if s != [] {
      EscapedByte(s[0], Escape(s[1..]));
      UnescapeUndoesEscape(s[1..]);
    }
  }

  /** Whatever ends the line, its fifth field is the escaped mount point. */
  lemma FifthField(m: Mount)
    requires Printable(m)
    ensures var fields := Split(Line(m), SPACE); |fields| > 4 && fields[4] == Escape(m.point)
  {
    UnescapeUndoesEscape(m.point);
    var l4 := Escape(m.point) + [SPACE] + m.rest;
    var l3 := m.root + [SPACE] + l4;
    var l2 := m.device + [SPACE] + l3;
    var l1 := m.parent + [SPACE] + l2;
    SplitFirst(Escape(m.point), SPACE, m.rest);
    SplitFirst(m.root, SPACE, l4);
    SplitFirst(m.device, SPACE, l3);
    SplitFirst(m.parent, SPACE, l2);
    SplitFirst(m.id, SPACE, l1);
  }

  /** Stripping the line's return only touches its rest. */
  lemma StrippedLine(m: Mount) returns (m': Mount)
    requires Printable(m)
    ensures Printable(m') && m'.point == m.point && StripReturn(Line(m)) == Line(m')
  {
    m' := m.(rest := StripReturn(m.rest));
    var head :=
      m.id + [SPACE] + (m.parent + [SPACE] + (m.device + [SPACE] + (m.root + [SPACE] + (Escape(m.point) + [SPACE]))));
    assert Line(m) == head + m.rest;
    assert Line(m') == head + m'.rest;
    assert head[|head| - 1] == SPACE;
  }

  lemma LineNamesItsPoint(m: Mount, path: Text)
    requires Printable(m)
    ensures Names(StripReturn(Line(m)), path) <==> m.point == path
  {
    var m' := StrippedLine(m);
    FifthField(m');
    UnescapeUndoesEscape(m.point);
  }

  lemma {:induction false} FindsTheFirst(line: Text, rest: Text)
    requires NEWLINE !in line
    ensures FindNewline(line + [NEWLINE] + rest) == |line|
    decreases |line|
  {
    if line != [] {
      assert (line + [NEWLINE] + rest)[1..] == line[1..] + [NEWLINE] + rest;
      FindsTheFirst(line[1..], rest);
    }
  }

  lemma FirstLine(line: Text, rest: Text)
    requires NEWLINE !in line
    ensures Lines(line + [NEWLINE] + rest) == [StripReturn(line)] + Lines(rest)
  {
    FindsTheFirst(line, rest);
    var s := line + [NEWLINE] + rest;
    assert s[..|line|] == line && s[|line| + 1..] == rest;
  }

  lemma InAppend(b: Byte, x: Text, y: Text)
    ensures b in x + y <==> b in x || b in y
  {
  }

  lemma LineHasNoNewline(m: Mount)
    requires Printable(m)
    ensures NEWLINE !in Line(m)
  {
    UnescapeUndoesEscape(m.point);
    var l4 := Escape(m.point) + [SPACE] + m.rest;
    var l3 := m.root + [SPACE] + l4;
    var l2 := m.device + [SPACE] + l3;
    var l1 := m.parent + [SPACE] + l2;
    InAppend(NEWLINE, Escape(m.point) + [SPACE], m.rest);
    InAppend(NEWLINE, m.root + [SPACE], l4);
    InAppend(NEWLINE, m.device + [SPACE], l3);
    InAppend(NEWLINE, m.parent + [SPACE], l2);
    InAppend(NEWLINE, m.id + [SPACE], l1);
  }

  ghost predicate Mounted(table: seq<Mount>, path: Text) {
    exists m :: m in table && m.point == path
  }

  ghost predicate SomeLineNames(mountinfo: Text, path: Text) {
    exists line :: line in Lines(mountinfo) && Names(line, path)
  }

  lemma {:induction false} ReadsWhatWasPrinted(table: seq<Mount>, path: Text)
    requires forall m :: m in table ==> Printable(m)
    ensures SomeLineNames(Print(table), path) <==> Mounted(table, path)
    decreases |table|
  {
    if table != [] {
      var m, rest := table[0], table[1..];
      var line := StripReturn(Line(m));
      LineHasNoNewline(m);
      FirstLine(Line(m), Print(rest));
      LineNamesItsPoint(m, path);
      ReadsWhatWasPrinted(rest, path);
      assert Lines(Print(table)) == [line] + Lines(Print(rest));
      assert forall l :: l in Lines(Print(table)) <==> l == line || l in Lines(Print(rest));
      assert forall n :: n in table <==> n == m || n in rest;
    }
  }

  /** On every table printed as the kernel does, a path is called a mount point exactly if the
      path less its trailing slashes is one. */
  lemma MountPointExactly(table: seq<Mount>, path: Text)
    requires forall m :: m in table ==> Printable(m)
    ensures IsMountPoint(Print(table), path) <==> Mounted(table, TrimSlashes(path))
  {
    ReadsWhatWasPrinted(table, TrimSlashes(path));
  }

  function Slashes(n: nat): Text {
    if n == 0 then [] else Slashes(n - 1) + [47]
  }

  lemma {:induction false} SlashesTrimmed(path: Text, n: nat)
    requires path != [] ==> path[|path| - 1] != 47
    ensures TrimSlashes(path + Slashes(n)) == path
    decreases n
  {
    var p := path + Slashes(n);
    if n == 0 {
      assert p == path;
    } else {
      assert p == path + Slashes(n - 1) + [47];
      assert p[|p| - 1] == 47 && p[..|p| - 1] == path + Slashes(n - 1);
      SlashesTrimmed(path, n - 1);
    }
  }

  /** So a path is judged by the table less its trailing slashes, however many. */
  lemma PathExactly(table: seq<Mount>, path: Text, n: nat)
    requires forall m :: m in table ==> Printable(m)
    requires path != [] ==> path[|path| - 1] != 47
    ensures IsMountPoint(Print(table), path + Slashes(n)) <==> Mounted(table, path)
  {
    MountPointExactly(table, path + Slashes(n));
    SlashesTrimmed(path, n);
  }

  /** The root is never found: it trims to the empty path, which no mount has. */
  lemma RootIsNeverFound(table: seq<Mount>)
    requires forall m :: m in table ==> Printable(m) && m.point != []
    ensures !IsMountPoint(Print(table), [47])
  {
    PathExactly(table, [], 1);
    assert [] + Slashes(1) == [47];
  }

  lemma {:induction false} NoNewlineFound(line: Text)
    requires 10 !in line
    ensures FindNewline(line) == |line|
    decreases |line|
  {
    if line != [] {
      NoNewlineFound(line[1..]);
    }
  }

  /** A line ends at a newline, or at a return and a newline; the last may end with the text. */
  lemma LinesEnd(line: Text, rest: Text)
    requires 10 !in line && (line != [] ==> line[|line| - 1] != 13)
    ensures Lines(line + [10] + rest) == [line] + Lines(rest)
    ensures Lines(line + [13] + [10] + rest) == [line] + Lines(rest)
    ensures Lines(line) == if line == [] then [] else [line]
  {
    FirstLine(line, rest);
    FirstLine(line + [13], rest);
    assert StripReturn(line + [13]) == line;
    NoNewlineFound(line);
  }

  /** A line of fewer than five fields names nothing. */
  lemma ShortLinesNameNothing(line: Text, path: Text)
    requires |Split(line, 32)| < 5
    ensures !Names(line, path)
  {
  }
}
