/** Which volume a container image's pallet path names (pkg/kubelet/src/container_roots.rs):
    the mount lists on the kernel command line, in the mounts file and in the carried file. */
module MountLists {
  import opened Common

  // ---------------------------------------------------------------- text

  /** A character of the Unicode property White_Space. */
  predicate IsSpace(c: char) {
    var n := c as int;
    || 9 <= n <= 13 || n == 0x20 || n == 0x85 || n == 0xA0 || n == 0x1680 || 0x2000 <= n <= 0x200A
    || n == 0x2028 || n == 0x2029 || n == 0x202F || n == 0x205F || n == 0x3000
  }

  ghost predicate NoSpace(s: string) { forall c :: c in s ==> !IsSpace(c) }

  /** How many characters of `s` come before its first space. */
  function WordEnd(s: string): (n: nat)
    ensures n <= |s| && NoSpace(s[..n]) && (n < |s| ==> IsSpace(s[n]))
  {
    if s == [] || IsSpace(s[0]) then 0 else 1 + WordEnd(s[1..])
  }

  /** The words of `s`, between spaces of any length. */
  function Words(s: string): seq<string>
    decreases |s|
  {
    if s == [] then []
    else if IsSpace(s[0]) then Words(s[1..])
    else [s[..WordEnd(s)]] + Words(s[WordEnd(s)..])
  }

  function TrimEnd(s: string): string
    decreases |s|
  {
    if s != [] && IsSpace(s[|s| - 1]) then TrimEnd(s[..|s| - 1]) else s
  }

  function TrimStart(s: string): string
    decreases |s|
  {
    if s != [] && IsSpace(s[0]) then TrimStart(s[1..]) else s
  }

  function Trim(s: string): string { TrimEnd(TrimStart(s)) }

  function DropLeading(s: string, c: char): string
    decreases |s|
  {
    if s != [] && s[0] == c then DropLeading(s[1..], c) else s
  }

  function Join(pieces: seq<string>, sep: char): string {
    if pieces == [] then []
    else if |pieces| == 1 then pieces[0]
    else pieces[0] + [sep] + Join(pieces[1..], sep)
  }

  /** Before and after the first separator, if there is one. */
  function SplitOnce(s: string, sep: char): Option<(string, string)>
    decreases |s|
  {
    if s == [] then None
    else if s[0] == sep then Some(([], s[1..]))
    else
      match SplitOnce(s[1..], sep)
      case None => None
      case Some((a, b)) => Some(([s[0]] + a, b))
  }

  function StripPrefix(s: string, prefix: string): Option<string> {
    if prefix <= s then Some(s[|prefix|..]) else None
  }

  // ---------------------------------------------------------------- lists

  const LIST: string := "rd.stormblock.mount="

  /** The entries a word of a line carries. */
  function EntriesOfWord(w: string): seq<string> {
    match StripPrefix(w, LIST)
    case None => []
    case Some(list) => Split(list, ',')
  }

  function EntriesOfWords(words: seq<string>): seq<string> {
    if words == [] then [] else EntriesOfWord(words[0]) + EntriesOfWords(words[1..])
  }

  /** Every entry of every mount list on a line, in order. */
  function EntriesOn(line: string): seq<string> {
    EntriesOfWords(Words(line))
  }

  predicate CarriesList(w: string) { LIST <= w }

  predicate HasList(line: string) {
    exists w :: w in Words(line) && CarriesList(w)
  }

  /** The volume an entry names for the pallet path. */
  function VolumeFor(entry: string, path: string): Option<string> {
    match SplitOnce(entry, ':')
    case None => None
    case Some((vol, at)) => if at == "/p/" + path || at == "/pallets/" + path then Some(vol) else None
  }

  function FirstMatch(entries: seq<string>, path: string): Option<string> {
    if entries == [] then None
    else if VolumeFor(entries[0], path).Some? then VolumeFor(entries[0], path)
    else FirstMatch(entries[1..], path)
  }

  function ListedVolume(line: string, path: string): Option<string> {
    FirstMatch(EntriesOn(line), path)
  }

  function EntriesOfLines(lines: seq<string>): seq<string> {
    if lines == [] then []
    else
      var e := DropLeading(Trim(Split(lines[0], '#')[0]), '?');
      (if ':' in e then [e] else []) + EntriesOfLines(lines[1..])
  }

  /** A list file's entries: comments and blanks gone, leading question marks dropped. A
      line's return is a space, and trimmed. */
  function ListEntries(file: string): seq<string> {
    EntriesOfLines(Split(file, '\n'))
  }

  function AppendList(line: string, file: Option<string>): string {
    var entries := ListEntries(if file.Some? then file.value else "");
    if entries == [] then line else TrimEnd(line) + " " + LIST + Join(entries, ',')
  }

  function WithMountList(cmdline: string, mounts: Option<string>): string {
    if HasList(cmdline) then cmdline else AppendList(cmdline, mounts)
  }

  function WithCarried(line: string, carried: Option<string>): string {
    AppendList(line, carried)
  }

  datatype Golden = Template(name: string) | Pallet(volume: string)

  function GoldenOf(image: string, cmdline: string): Option<Golden> {
    match StripPrefix(image, "template:")
    case Some(t) => if t == [] then None else Some(Template(t))
    case None =>
      match StripPrefix(image, "/pallets/")
      case None => None
      case Some(path) =>
        if path == [] || '/' in path then None
        else
          var listed := ListedVolume(cmdline, path);
          Some(Pallet(if listed.Some? then listed.value else path))
  }

  // ---------------------------------------------------------------- words of what was appended

  lemma {:induction false} WordEndStops(s: string, sp: char, rest: string)
    requires IsSpace(sp) && WordEnd(s) == |s|
    ensures WordEnd(s + [sp] + rest) == |s|
    decreases |s|
  {
    if s != [] {
      assert (s + [sp] + rest)[1..] == s[1..] + [sp] + rest;
      WordEndStops(s[1..], sp, rest);
    }
  }

  lemma {:induction false} WordEndKeeps(s: string, t: string)
    requires WordEnd(s) < |s|
    ensures WordEnd(s + t) == WordEnd(s)
    decreases |s|
  {
    if !IsSpace(s[0]) {
      assert (s + t)[1..] == s[1..] + t;
      WordEndKeeps(s[1..], t);
    }
  }

  lemma FirstWord(a: string, w: string, rest: string)
    requires a == w + rest && w != [] && !IsSpace(w[0]) && WordEnd(a) == |w|
    ensures Words(a) == [w] + Words(rest)
  {
    assert a[0] == w[0];
    assert a[..|w|] == w && a[|w|..] == rest;
  }

  lemma WordsStartAlike(a: string, sp: char, b: string)
    requires IsSpace(sp) && a != [] && !IsSpace(a[0])
    ensures var n := WordEnd(a);
      0 < n <= |a| && Words(a) == [a[..n]] + Words(a[n..])
      && Words(a + [sp] + b) == [a[..n]] + Words(a[n..] + [sp] + b)
  {
    var n := WordEnd(a);
    var w, rest := a[..n], a[n..];
    assert a == w + rest;
    assert a + [sp] + b == a + ([sp] + b);
    assert a + [sp] + b == w + (rest + [sp] + b);
    if n == |a| { WordEndStops(a, sp, b); } else { WordEndKeeps(a, [sp] + b); }
    FirstWord(a, w, rest);
    FirstWord(a + [sp] + b, w, rest + [sp] + b);
  }

  lemma OneMoreWord(w: string, a: seq<string>, b: seq<string>)
    ensures [w] + (a + b) == [w] + a + b
  {
  }

  /** A space separates the words before it from those after it. */
  lemma {:induction false} WordsAcrossSpace(a: string, sp: char, b: string)
    requires IsSpace(sp)
    ensures Words(a + [sp] + b) == Words(a) + Words(b)
    decreases |a|
  {
    var s := a + [sp] + b;
    if a == [] {
      assert s[1..] == b;
    } else if IsSpace(a[0]) {
      assert s[1..] == a[1..] + [sp] + b;
      WordsAcrossSpace(a[1..], sp, b);
    } else {
      var n := WordEnd(a);
      var w, rest := a[..n], a[n..];
      WordsStartAlike(a, sp, b);
      WordsAcrossSpace(rest, sp, b);
      OneMoreWord(w, Words(rest), Words(b));
    }
  }

  lemma {:induction false} WordsOfTrimmed(s: string)
    ensures Words(TrimEnd(s)) == Words(s)
    decreases |s|
  {
    if s != [] && IsSpace(s[|s| - 1]) {
      var t := s[..|s| - 1];
      assert s == t + [s[|s| - 1]] + [];
      WordsAcrossSpace(t, s[|s| - 1], []);
      WordsOfTrimmed(t);
    }
  }

  lemma {:induction false} NoSpaceIsOneWord(w: string)
    requires NoSpace(w)
    ensures WordEnd(w) == |w|
    decreases |w|
  {
    if w != [] {
      NoSpaceIsOneWord(w[1..]);
    }
  }

  lemma {:induction false} WordsHaveNoSpace(s: string)
    ensures forall w :: w in Words(s) ==> NoSpace(w)
    decreases |s|
  {
    if s != [] {
      if IsSpace(s[0]) { WordsHaveNoSpace(s[1..]); } else { WordsHaveNoSpace(s[WordEnd(s)..]); }
    }
  }

  // ---------------------------------------------------------------- entries of what was appended

  /** An entry the command line can carry. */
  ghost predicate Clean(entry: string) {
    NoSpace(entry) && ',' !in entry
  }

  ghost predicate AllClean(entries: seq<string>) {
    forall e :: e in entries ==> Clean(e)
  }

  lemma {:induction false} SplitHasNoSeparator(s: string, sep: char)
    ensures forall p :: p in Split(s, sep) ==> sep !in p && forall c :: c in p ==> c in s
    decreases |s|
  {
    if s != [] {
      SplitHasNoSeparator(s[1..], sep);
      var rest := Split(s[1..], sep);
      assert rest[0] in rest;
    }
  }

  lemma SuffixHasNoSpace(w: string, n: nat)
    requires NoSpace(w) && n <= |w|
    ensures NoSpace(w[n..])
  {
    assert forall c :: c in w[n..] ==> c in w;
  }

  lemma EntriesOfWordAreClean(w: string)
    requires NoSpace(w)
    ensures AllClean(EntriesOfWord(w))
  {
    var list := StripPrefix(w, LIST);
    if list.Some? {
      SuffixHasNoSpace(w, |LIST|);
      SplitHasNoSeparator(list.value, ',');
    }
  }

  lemma {:induction false} EntriesOfWordsAreClean(words: seq<string>)
    requires forall w :: w in words ==> NoSpace(w)
    ensures AllClean(EntriesOfWords(words))
    decreases |words|
  {
    if words != [] {
      EntriesOfWordsAreClean(words[1..]);
      EntriesOfWordAreClean(words[0]);
    }
  }

  lemma {:induction false} EntriesOfWordsAppend(a: seq<string>, b: seq<string>)
    ensures EntriesOfWords(a + b) == EntriesOfWords(a) + EntriesOfWords(b)
    decreases |a|
  {
    if a == [] {
      assert a + b == b;
    } else {
      assert (a + b)[1..] == a[1..] + b;
      EntriesOfWordsAppend(a[1..], b);
    }
  }

  lemma {:induction false} SplitUndoesJoin(pieces: seq<string>, sep: char)
    requires pieces != [] && forall p :: p in pieces ==> sep !in p
    ensures Split(Join(pieces, sep), sep) == pieces
    decreases |pieces|
  {
    if |pieces| == 1 {
      SplitNone(pieces[0], sep);
    } else {
      SplitFirst(pieces[0], sep, Join(pieces[1..], sep));
      SplitUndoesJoin(pieces[1..], sep);
    }
  }

  lemma {:induction false} JoinHasNoSpace(pieces: seq<string>)
    requires forall p :: p in pieces ==> NoSpace(p)
    ensures NoSpace(Join(pieces, ','))
    decreases |pieces|
  {
    if |pieces| > 1 {
      JoinHasNoSpace(pieces[1..]);
      assert NoSpace(pieces[0]) && NoSpace([',']);
      assert forall c :: c in Join(pieces, ',') ==> c in pieces[0] || c in [','] || c in Join(pieces[1..], ',');
    } else if |pieces| == 1 {
      assert pieces[0] in pieces;
    }
  }

  lemma ListHasNoSpace()
    ensures NoSpace(LIST)
  {
    assert forall i :: 0 <= i < |LIST| ==> !IsSpace(LIST[i]);
  }

  lemma AppendedWords(line: string, w: string)
    requires w != [] && NoSpace(w)
    ensures Words(TrimEnd(line) + " " + w) == Words(line) + [w]
  {
    WordsAcrossSpace(TrimEnd(line), ' ', w);
    WordsOfTrimmed(line);
    NoSpaceIsOneWord(w);
    assert w[..|w|] == w && w[|w|..] == [];
  }

  function EntriesIn(file: Option<string>): seq<string> {
    ListEntries(if file.Some? then file.value else "")
  }

  lemma ListWord(entries: seq<string>)
    requires entries != [] && AllClean(entries)
    ensures var w := LIST + Join(entries, ',');
      NoSpace(w) && EntriesOfWords([w]) == entries
  {
    var w := LIST + Join(entries, ',');
    JoinHasNoSpace(entries);
    ListHasNoSpace();
    SplitUndoesJoin(entries, ',');
    assert w[|LIST|..] == Join(entries, ',');
    assert EntriesOfWords([w]) == EntriesOfWord(w) + EntriesOfWords([]);
  }

  lemma AppendedEntries(line: string, file: Option<string>)
    requires AllClean(EntriesIn(file))
    ensures EntriesOn(AppendList(line, file)) == EntriesOn(line) + EntriesIn(file)
  {
    var entries := EntriesIn(file);
    if entries != [] {
      var w := LIST + Join(entries, ',');
      ListWord(entries);
      assert TrimEnd(line) + " " + LIST + Join(entries, ',') == TrimEnd(line) + " " + w;
      AppendedWords(line, w);
      EntriesOfWordsAppend(Words(line), [w]);
    }
  }

  /** Writing a list onto a line and reading it back gives the list exactly when no entry holds
      a space or a comma. */
  lemma AppendedExactlyIfClean(line: string, file: Option<string>)
    ensures EntriesOn(AppendList(line, file)) == EntriesOn(line) + EntriesIn(file) <==> AllClean(EntriesIn(file))
  {
    if AllClean(EntriesIn(file)) {
      AppendedEntries(line, file);
    } else {
      var e :| e in EntriesIn(file) && !Clean(e);
      WordsHaveNoSpace(AppendList(line, file));
      EntriesOfWordsAreClean(Words(AppendList(line, file)));
      assert e in EntriesOn(line) + EntriesIn(file);
    }
  }

  // ---------------------------------------------------------------- a list file, printed and read

  /** A line of a list file: an entry marked with any number of question marks, or none, and a
      comment. */
  datatype Line = Line(before: string, marks: string, entry: string, after: string, comment: Option<string>)

  ghost predicate AllSpace(s: string) { forall c :: c in s ==> IsSpace(c) }

  /** Nothing else that the reader would take for a mark, a comment or the line's end. An entry
      has a colon, starts with no mark and neither starts nor ends with a space. */
  ghost predicate Printable(l: Line) {
    && AllSpace(l.before) && AllSpace(l.after) && (forall c :: c in l.marks ==> c == '?')
    && (l.entry == [] ==> l.marks == [])
    && (l.entry != [] ==>
          ':' in l.entry && l.entry[0] != '?' && !IsSpace(l.entry[0]) && !IsSpace(l.entry[|l.entry| - 1]))
    && '#' !in l.entry && '\n' !in l.before + l.entry + l.after && (l.comment.Some? ==> '\n' !in l.comment.value)
  }

  function Body(l: Line): string { l.before + (l.marks + l.entry) + l.after }

  function LineText(l: Line): string {
    Body(l) + (if l.comment.Some? then "#" + l.comment.value else "")
  }

  function FileText(lines: seq<Line>): string {
    Join(seq(|lines|, i requires 0 <= i < |lines| => LineText(lines[i])), '\n')
  }

  function Entries(lines: seq<Line>): seq<string>
    decreases |lines|
  {
    if lines == [] then [] else (if lines[0].entry != [] then [lines[0].entry] else []) + Entries(lines[1..])
  }

  lemma {:induction false} TrimStartDrops(pad: string, s: string)
    requires AllSpace(pad) && (s == [] || !IsSpace(s[0]))
    ensures TrimStart(pad + s) == s
    decreases |pad|
  {
    if pad == [] {
      assert pad + s == s;
    } else {
      assert (pad + s)[1..] == pad[1..] + s;
      assert pad[0] in pad;
      TrimStartDrops(pad[1..], s);
    }
  }

  lemma {:induction false} TrimEndDrops(s: string, pad: string)
    requires AllSpace(pad) && (s == [] || !IsSpace(s[|s| - 1]))
    ensures TrimEnd(s + pad) == s
    decreases |pad|
  {
    if pad == [] {
      assert s + pad == s;
    } else {
      var front := pad[..|pad| - 1];
      assert (s + pad)[..|s + pad| - 1] == s + front;
      assert pad[|pad| - 1] in pad;
      TrimEndDrops(s, front);
    }
  }

  lemma TrimDrops(before: string, core: string, after: string)
    requires AllSpace(before) && AllSpace(after)
    requires core != [] ==> !IsSpace(core[0]) && !IsSpace(core[|core| - 1])
    ensures Trim(before + core + after) == core
  {
    if core == [] {
      assert before + core + after == (before + after) + [];
      assert AllSpace(before + after);
      TrimStartDrops(before + after, []);
    } else {
      assert before + core + after == before + (core + after);
      TrimStartDrops(before, core + after);
      TrimEndDrops(core, after);
    }
  }

  lemma {:induction false} MarksDropped(marks: string, entry: string)
    requires (forall c :: c in marks ==> c == '?') && (entry == [] || entry[0] != '?')
    ensures DropLeading(marks + entry, '?') == entry
    decreases |marks|
  {
    if marks == [] {
      assert marks + entry == entry;
    } else {
      assert (marks + entry)[1..] == marks[1..] + entry;
      assert marks[0] in marks;
      assert forall c :: c in marks[1..] ==> c in marks;
      MarksDropped(marks[1..], entry);
    }
  }

  lemma SpacesAreNoComment(s: string)
    requires AllSpace(s)
    ensures '#' !in s
  {
    assert !IsSpace('#');
  }

  lemma ReadLine(l: Line)
    requires Printable(l)
    ensures DropLeading(Trim(Split(LineText(l), '#')[0]), '?') == l.entry
    ensures '\n' !in LineText(l)
  {
    var body := Body(l);
    SpacesAreNoComment(l.before);
    SpacesAreNoComment(l.after);
    assert '#' !in body;
    if l.comment.Some? {
      assert LineText(l) == body + ['#'] + l.comment.value;
      SplitFirst(body, '#', l.comment.value);
    } else {
      assert LineText(l) == body;
      SplitNone(body, '#');
    }
    var core := l.marks + l.entry;
    if l.entry != [] {
      assert core[|core| - 1] == l.entry[|l.entry| - 1];
      assert l.marks != [] ==> core[0] == l.marks[0] && l.marks[0] in l.marks && !IsSpace('?');
    }
    TrimDrops(l.before, core, l.after);
    MarksDropped(l.marks, l.entry);
  }

  lemma {:induction false} ReadLines(lines: seq<Line>, texts: seq<string>)
    requires |lines| == |texts|
    requires forall i :: 0 <= i < |lines| ==> Printable(lines[i]) && texts[i] == LineText(lines[i])
    ensures EntriesOfLines(texts) == Entries(lines)
    decreases |lines|
  {
    if lines != [] {
      ReadLine(lines[0]);
      ReadLines(lines[1..], texts[1..]);
    }
  }

  /** A list file gives back its entries, in order: question marks, comments, blanks and the
      space around them gone. */
  lemma ListEntriesUndoesPrint(lines: seq<Line>)
    requires forall i :: 0 <= i < |lines| ==> Printable(lines[i])
    ensures ListEntries(FileText(lines)) == Entries(lines)
  {
    var texts := seq(|lines|, i requires 0 <= i < |lines| => LineText(lines[i]));
    forall i | 0 <= i < |lines|
      ensures '\n' !in texts[i]
    {
      ReadLine(lines[i]);
    }
    ReadLines(lines, texts);
    if lines == [] {
      assert EntriesOfLines([]) == [];
      assert Trim("") == "" && DropLeading("", '?') == "";
    } else {
      SplitUndoesJoin(texts, '\n');
    }
  }

  // ---------------------------------------------------------------- the lookup

  lemma {:induction false} SplitOnceFirst(a: string, sep: char, b: string)
    requires sep !in a
    ensures SplitOnce(a + [sep] + b, sep) == Some((a, b))
    decreases |a|
  {
    var s := a + [sep] + b;
    if a == [] {
      assert s[1..] == b;
    } else {
      assert s[1..] == a[1..] + [sep] + b;
      SplitOnceFirst(a[1..], sep, b);
      assert [a[0]] + a[1..] == a;
    }
  }

  /** The entry of a volume mounted at `at` names it for a pallet exactly if `at` is one of the
      two places a pallet of that path is mounted. */
  lemma EntryNamesVolume(volume: string, at: string, path: string)
    requires ':' !in volume
    ensures VolumeFor(volume + ":" + at, path)
         == if at == "/p/" + path || at == "/pallets/" + path then Some(volume) else None
  {
    SplitOnceFirst(volume, ':', at);
  }

  /** Some word of the line begins as a mount list does. */
  ghost predicate SaysList(line: string) {
    exists w :: w in Words(line) && "rd.stormblock.mount=" <= w
  }

  /** The entries in the order they are to be tried: the line's own lists, or the mounts file's
      if it has none, then the carried ones. */
  ghost function InOrder(cmdline: string, mounts: Option<string>, carried: Option<string>): seq<string> {
    (if SaysList(cmdline) then EntriesOn(cmdline) else EntriesIn(mounts)) + EntriesIn(carried)
  }

  lemma {:induction false} NoListNoEntries(words: seq<string>)
    requires forall w :: w in words ==> !CarriesList(w)
    ensures EntriesOfWords(words) == []
    decreases |words|
  {
    if words != [] {
      assert !CarriesList(words[0]);
      assert EntriesOfWord(words[0]) == [];
      NoListNoEntries(words[1..]);
    }
  }

  /** Through the text of the command line or directly, the same volume is found for every
      pallet path. */
  lemma TextAgreesWithLookup(cmdline: string, mounts: Option<string>, carried: Option<string>, path: string)
    requires AllClean(EntriesIn(mounts)) && AllClean(EntriesIn(carried))
    ensures var line := WithCarried(WithMountList(cmdline, mounts), carried);
            && EntriesOn(line) == InOrder(cmdline, mounts, carried)
            && ListedVolume(line, path) == FirstMatch(InOrder(cmdline, mounts, carried), path)
  {
    AppendedEntries(WithMountList(cmdline, mounts), carried);
    if !HasList(cmdline) {
      AppendedEntries(cmdline, mounts);
      NoListNoEntries(Words(cmdline));
      assert [] + EntriesIn(mounts) == EntriesIn(mounts);
    }
  }

  /** An entry without a colon names nothing. */
  lemma PlainEntryNamesNothing(entry: string, path: string)
    requires ':' !in entry
    ensures VolumeFor(entry, path) == None
  {
    NothingToSplit(entry, ':');
  }

  lemma {:induction false} NothingToSplit(s: string, sep: char)
    requires sep !in s
    ensures SplitOnce(s, sep) == None
    decreases |s|
  {
    if s != [] {
      NothingToSplit(s[1..], sep);
    }
  }

  /** A line's entries are those of its mount lists, in order, and nothing else: the words before, a
      list, and the words after. */
  lemma LineReads(before: string, entries: seq<string>, after: string)
    requires entries != [] && AllClean(entries)
    ensures EntriesOn(before + " " + ("rd.stormblock.mount=" + Join(entries, ',')) + " " + after)
         == EntriesOn(before) + entries + EntriesOn(after)
  {
    var w := "rd.stormblock.mount=" + Join(entries, ',');
    ListWord(entries);
    assert before + " " + w + " " + after == before + [' '] + (w + [' '] + after);
    WordsAcrossSpace(before, ' ', w + [' '] + after);
    WordsAcrossSpace(w, ' ', after);
    NoSpaceIsOneWord(w);
    assert w[..|w|] == w && w[|w|..] == [] && Words(w) == [w];
    assert Words(before) + ([w] + Words(after)) == Words(before) + [w] + Words(after);
    EntriesOfWordsAppend(Words(before) + [w], Words(after));
    EntriesOfWordsAppend(Words(before), [w]);
  }

  /** A line none of whose words begins as a mount list does has no entries. */
  lemma NoListReads(line: string)
    requires !SaysList(line)
    ensures EntriesOn(line) == []
  {
    forall w | w in Words(line) ensures !CarriesList(w) {
      assert !("rd.stormblock.mount=" <= w);
    }
    NoListNoEntries(Words(line));
  }

  /** Appending keeps the line's own words, and adds one word, or none for a file without entries. */
  lemma AppendedKeepsWords(line: string, file: Option<string>)
    requires AllClean(EntriesIn(file))
    ensures EntriesIn(file) == [] ==> AppendList(line, file) == line
    ensures EntriesIn(file) != [] ==>
      Words(AppendList(line, file)) == Words(line) + ["rd.stormblock.mount=" + Join(EntriesIn(file), ',')]
  {
    var entries := EntriesIn(file);
    if entries != [] {
      var w := LIST + Join(entries, ',');
      ListWord(entries);
      assert TrimEnd(line) + " " + LIST + Join(entries, ',') == TrimEnd(line) + " " + w;
      AppendedWords(line, w);
    }
  }

  /** What separates words is white space: the blank, the tab and the ends of a line, and no letter,
      digit or punctuation of ASCII. */
  lemma SpacesOfAscii(c: char)
    requires c as int < 128
    ensures IsSpace(c) <==> c == ' ' || c == '\t' || c == '\n' || c == '\r' || c as int == 11 || c as int == 12
  {
  }

  /** The first match is the first entry that names a volume for the path. */
  lemma {:induction false} FirstMatchIsFirst(entries: seq<string>, path: string)
    ensures FirstMatch(entries, path) == None
            <==> forall i :: 0 <= i < |entries| ==> VolumeFor(entries[i], path) == None
    ensures forall i :: 0 <= i < |entries| && VolumeFor(entries[i], path).Some?
                        && (forall j :: 0 <= j < i ==> VolumeFor(entries[j], path) == None)
                        ==> FirstMatch(entries, path) == VolumeFor(entries[i], path)
    decreases |entries|
  {
    if entries != [] {
      FirstMatchIsFirst(entries[1..], path);
      assert forall i :: 0 < i < |entries| ==> entries[i] == entries[1..][i - 1];
    }
  }

  lemma GoldenOfPallet(line: string, path: string)
    requires path != [] && '/' !in path
    ensures var listed := ListedVolume(line, path);
            GoldenOf("/pallets/" + path, line) == Some(Pallet(if listed.Some? then listed.value else path))
  {
    var image := "/pallets/" + path;
    assert image[0] == '/';
    assert !("template:" <= image);
    assert image[|"/pallets/"|..] == path;
  }

  /** What a pallet image is cloned from: the first volume listed for it, else its own name. */
  lemma PalletGolden(cmdline: string, mounts: Option<string>, carried: Option<string>, path: string)
    requires AllClean(EntriesIn(mounts)) && AllClean(EntriesIn(carried))
    requires path != [] && '/' !in path
    ensures var line := WithCarried(WithMountList(cmdline, mounts), carried);
            var listed := FirstMatch(InOrder(cmdline, mounts, carried), path);
            GoldenOf("/pallets/" + path, line) == Some(Pallet(if listed.Some? then listed.value else path))
  {
    TextAgreesWithLookup(cmdline, mounts, carried, path);
    GoldenOfPallet(WithCarried(WithMountList(cmdline, mounts), carried), path);
  }

  /** What every image is cloned from: a template its name says, unless it is empty; a pallet the volume
      listed for it or else its own name, unless that is empty or holds a slash; anything else nothing. */
  lemma GoldenExactly(image: string, line: string, name: string)
    ensures GoldenOf("template:" + name, line) == if name == "" then None else Some(Template(name))
    ensures GoldenOf("/pallets/" + name, line)
         == if name == "" || '/' in name then None
            else Some(Pallet(if ListedVolume(line, name).Some? then ListedVolume(line, name).value else name))
    ensures !("template:" <= image) && !("/pallets/" <= image) ==> GoldenOf(image, line) == None
  {
    var t, p := "template:" + name, "/pallets/" + name;
    assert t[|"template:"|..] == name;
    assert p[|"/pallets/"|..] == name && p[0] == '/';
    assert !("template:" <= p);
  }

  lemma SpacedOptionalLine(e: string)
    requires Clean(e) && ':' in e && '#' !in e
    ensures EntriesIn(Some("? " + e)) == [" " + e]
  {
    var line := "? " + e;
    assert forall c :: c in line ==> c in "? " || c in e;
    SplitNone(line, '\n');
    SplitNone(line, '#');
    assert line[0] == '?' && line[1] == ' ' && line[|line| - 1] == e[|e| - 1];
    assert TrimStart(line) == line && TrimEnd(line) == line;
    assert line[1..] == " " + e;
    assert DropLeading(" " + e, '?') == " " + e;
    var lines := [line];
    assert lines[1..] == [];
    assert EntriesOfLines([]) == [];
  }

  lemma {:induction false} FirstMatchSkips(entries: seq<string>, more: seq<string>, path: string)
    requires FirstMatch(more, path) == None
    ensures FirstMatch(entries + more, path) == FirstMatch(entries, path)
    decreases |entries|
  {
    if entries == [] {
      assert entries + more == more;
    } else {
      assert (entries + more)[1..] == entries[1..] + more;
      FirstMatchSkips(entries[1..], more, path);
    }
  }

  /** On the line the entry is a word of its own, after a list of nothing. */
  lemma SpacedOptionalWords(cmdline: string, e: string)
    requires Clean(e) && ':' in e && '#' !in e
    ensures Words(AppendList(cmdline, Some("? " + e))) == Words(cmdline) + [LIST] + [e]
  {
    SpacedOptionalLine(e);
    var before := TrimEnd(cmdline) + " " + LIST;
    assert Join([" " + e], ',') == " " + e;
    assert AppendList(cmdline, Some("? " + e)) == before + [' '] + e;
    ListHasNoSpace();
    AppendedWords(cmdline, LIST);
    WordsAcrossSpace(before, ' ', e);
    NoSpaceIsOneWord(e);
    assert !IsSpace(e[0]);
    FirstWord(e, e, []);
    assert [e] + Words([]) == [e];
  }

  lemma SpacedOptionalOnLine(cmdline: string, e: string)
    requires Clean(e) && ':' in e && '#' !in e && !CarriesList(e)
    ensures EntriesOn(AppendList(cmdline, Some("? " + e))) == EntriesOn(cmdline) + [""]
  {
    SpacedOptionalWords(cmdline, e);
    EntriesOfWordsAppend(Words(cmdline), [LIST]);
    EntriesOfWordsAppend(Words(cmdline) + [LIST], [e]);
    OneWordEntries(LIST);
    OneWordEntries(e);
  }

  lemma OneWordEntries(w: string)
    ensures EntriesOfWords([w]) == EntriesOfWord(w)
    ensures w == LIST ==> EntriesOfWord(w) == [""]
    ensures !CarriesList(w) ==> EntriesOfWord(w) == []
  {
    assert EntriesOfWords([w]) == EntriesOfWord(w) + EntriesOfWords([]);
  }

  /** So an optional entry written with a space after its question mark does not survive: the
      mark is dropped after trimming, and the entry starts with that space. The line then names
      for every path what it named without the file. */
  lemma SpacedOptionalEntryIsLost(cmdline: string, e: string, path: string)
    requires Clean(e) && ':' in e && '#' !in e
    ensures EntriesOn(AppendList(cmdline, Some("? " + e))) != EntriesOn(cmdline) + [" " + e]
    ensures !CarriesList(e) ==> ListedVolume(AppendList(cmdline, Some("? " + e)), path) == ListedVolume(cmdline, path)
  {
    SpacedOptionalLine(e);
    assert ' ' in " " + e && IsSpace(' ');
    assert !Clean(" " + e);
    assert " " + e in EntriesIn(Some("? " + e));
    AppendedExactlyIfClean(cmdline, Some("? " + e));
    if !CarriesList(e) {
      SpacedOptionalOnLine(cmdline, e);
      assert VolumeFor("", path) == None && FirstMatch([""], path) == None by { assert [""][1..] == []; }
      FirstMatchSkips(EntriesOn(cmdline), [""], path);
    }
  }
}
