/** The names of a container's log files (pkg/kubelet/src/container_logs.rs): which file a name
    is, as the string tests of the code decide it. */
module LogNames {
  import opened Common

  /** `<run>.log`, `<run>.log.<stamp>` with or without `.gz`, and `<run>.log.<stamp>.gz.tmp`. */
  datatype File =
    | Live(run: nat)
    | Rotated(run: nat, stamp: nat, gz: bool)
    | Temp(run: nat, stamp: nat)

  const RUN_LIMIT := 0x1_0000_0000

  predicate IsDigit(c: char) {
    '0' <= c <= '9'
  }

  function Decimal(n: nat): (s: string)
    ensures |s| > 0
    ensures forall i :: 0 <= i < |s| ==> IsDigit(s[i])
  {
    (if n < 10 then [] else Decimal(n / 10)) + [('0' as int + n % 10) as char]
  }

  function Value(s: string): nat
    requires forall i :: 0 <= i < |s| ==> IsDigit(s[i])
  {
    if s == [] then 0
    else
      assert IsDigit(s[|s| - 1]);
      10 * Value(s[..|s| - 1]) + (s[|s| - 1] as int - '0' as int)
  }

  lemma {:induction false} ValueOfDecimal(n: nat)
    ensures Value(Decimal(n)) == n
  {
    var s := Decimal(n);
    if n < 10 {
      assert s[..|s| - 1] == [];
    } else {
      assert s[..|s| - 1] == Decimal(n / 10);
      ValueOfDecimal(n / 10);
    }
  }

  predicate AllDigits(s: string) {
    s != [] && forall i :: 0 <= i < |s| ==> IsDigit(s[i])
  }

  function ParseDigits(s: string): Option<nat> {
    if AllDigits(s) && Value(s) < RUN_LIMIT then Some(Value(s)) else None
  }

  /** `str::parse::<u32>`. */
  function ParseRun(s: string): Option<nat> {
    ParseDigits(if |s| > 0 && s[0] == '+' then s[1..] else s)
  }

  predicate StartsWith(s: string, prefix: string) {
    |prefix| <= |s| && s[..|prefix|] == prefix
  }

  predicate EndsWith(s: string, suffix: string) {
    |suffix| <= |s| && s[|s| - |suffix|..] == suffix
  }

  function LiveName(run: nat): string {
    Decimal(run) + ".log"
  }

  /** How a time is written in a name: digits and a dash. */
  ghost predicate IsStampFormat(show: nat -> string) {
    forall t, i :: 0 <= i < |show(t)| ==> IsDigit(show(t)[i]) || show(t)[i] == '-'
  }

  function Tail(show: nat -> string, f: File): string {
    match f
    case Live(_) => []
    case Rotated(_, t, gz) => "." + show(t) + if gz then ".gz" else []
    case Temp(_, t) => "." + show(t) + ".gz.tmp"
  }

  function Name(show: nat -> string, f: File): string {
    LiveName(f.run) + Tail(show, f)
  }

  // The tests the code makes.

  function RunOfName(name: string): Option<nat> {
    if EndsWith(name, ".log") then ParseRun(name[..|name| - 4]) else None
  }

  predicate PrunedWith(name: string, run: nat) {
    name == LiveName(run) || StartsWith(name, LiveName(run) + ".")
  }

  predicate ListedAsRotation(name: string, run: nat) {
    StartsWith(name, LiveName(run) + ".") && !EndsWith(name, ".tmp")
  }

  lemma FirstDotDecides(m: nat, n: nat, rest: string, more: string)
    requires StartsWith(Decimal(n) + "." + rest, Decimal(m) + "." + more)
    ensures m == n
  {
    var a, b := Decimal(m), Decimal(n);
    var s := b + "." + rest;
    assert forall i :: 0 <= i < |a| ==> s[i] == (a + "." + more)[i] == a[i];
    assert s[|a|] == (a + "." + more)[|a|] == '.';
    assert s[|b|] == '.';
    assert forall i :: 0 <= i < |b| ==> IsDigit(s[i]);
    assert forall i :: 0 <= i < |a| ==> IsDigit(s[i]);
    assert |a| == |b|;
    assert a == s[..|a|] == b;
    ValueOfDecimal(m);
    ValueOfDecimal(n);
  }

  /** Pruning a run takes exactly that run's files: never those of a run whose number only begins
      or ends with the same digits. */
  lemma PruningTakesOneRun(show: nat -> string, f: File, run: nat)
    ensures PrunedWith(Name(show, f), run) <==> f.run == run
  {
    var name := Name(show, f);
    var rest := "log" + Tail(show, f);
    assert name == Decimal(f.run) + "." + rest;
    if name == LiveName(run) {
      assert LiveName(run) == Decimal(run) + "." + "log";
      FirstDotDecides(run, f.run, rest, "log");
    }
    if StartsWith(name, LiveName(run) + ".") {
      assert LiveName(run) + "." == Decimal(run) + "." + "log.";
      FirstDotDecides(run, f.run, rest, "log.");
    }
    if f.run == run {
      if !f.Live? {
        var tail := Tail(show, f);
        assert tail[0] == '.';
        assert name[..|LiveName(run)| + 1] == LiveName(run) + ".";
      }
    }
  }

  /** A name's last character tells a live file from the others and a leftover from a rotation. */
  lemma Endings(show: nat -> string, f: File)
    requires IsStampFormat(show)
    ensures EndsWith(Name(show, f), ".tmp") <==> f.Temp?
    ensures EndsWith(Name(show, f), ".log") <==> f.Live?
    ensures EndsWith(Name(show, f), ".gz") <==> f.Rotated? && f.gz
  {
    var name := Name(show, f);
    match f
    case Live(n) =>
      assert name[|name| - 4..] == ".log";
      assert name[|name| - 1] == 'g';
    case Rotated(n, t, true) =>
      assert name[|name| - 3..] == ".gz";
      assert name[|name| - 1] == 'z';
    case Rotated(n, t, false) =>
      var c := name[|name| - 1];
      assert c == if |show(t)| > 0 then show(t)[|show(t)| - 1] else '.';
      assert c != 'p' && c != 'g' && c != 'z';
    case Temp(n, t) =>
      assert name[|name| - 4..] == ".tmp";
      assert name[|name| - 1] == 'p';
  }

  /** The listing of a run's rotations takes exactly them. */
  lemma RotationsAreListed(show: nat -> string, f: File, run: nat)
    requires IsStampFormat(show)
    ensures ListedAsRotation(Name(show, f), run) <==> f.Rotated? && f.run == run
  {
    PruningTakesOneRun(show, f, run);
    Endings(show, f);
    if f.Live? && f.run == run {
      assert |Name(show, f)| < |LiveName(run) + "."|;
    }
  }

  /** A text is read as a run number exactly if it is digits, one at least, with or without a plus before
      them, and below 2^32. */
  lemma ParsesExactly(s: string)
    ensures AllDigits(s) ==>
      ParseRun(s) == ParseRun("+" + s) == if Value(s) < 0x1_0000_0000 then Some(Value(s)) else None
    ensures !AllDigits(s) ==> ParseRun("+" + s) == None && (!("+" <= s) ==> ParseRun(s) == None)
  {
    assert ("+" + s)[0] == '+' && ("+" + s)[1..] == s;
    assert AllDigits(s) ==> IsDigit(s[0]);
  }

  lemma ParseOfDecimal(n: nat)
    requires n < 0x1_0000_0000
    ensures ParseRun(Decimal(n)) == Some(n)
  {
    var s := Decimal(n);
    assert IsDigit(s[0]);
    ValueOfDecimal(n);
  }

  /** A name counts as a run exactly when it is that run's live file. */
  lemma RunsAreLiveFiles(show: nat -> string, f: File)
    requires IsStampFormat(show) && f.run < 0x1_0000_0000
    ensures RunOfName(Name(show, f)) == if f.Live? then Some(f.run) else None
  {
    Endings(show, f);
    ParseOfDecimal(f.run);
    var name, digits := Name(show, f), Decimal(f.run);
    assert f.Live? ==> name == digits + ".log" && name[..|name| - 4] == digits;
  }

  lemma MiddleDetermined(a: string, b: string, c: string, d: string)
    requires a + b + d == a + c + d
    ensures b == c
  {
    assert |b| == |c|;
    assert b == (a + b + d)[|a|..|a| + |b|];
    assert c == (a + c + d)[|a|..|a| + |c|];
  }

  lemma SameKind(show: nat -> string, f: File, g: File)
    requires IsStampFormat(show) && Name(show, f) == Name(show, g)
    ensures f.run == g.run && f.Live? == g.Live? && f.Temp? == g.Temp?
    ensures f.Rotated? && g.Rotated? ==> f.gz == g.gz
  {
    Endings(show, f);
    Endings(show, g);
    PruningTakesOneRun(show, f, f.run);
    PruningTakesOneRun(show, g, f.run);
  }

  lemma SameStamp(show: nat -> string, f: File, g: File)
    requires Name(show, f) == Name(show, g) && !f.Live? && !g.Live? && f.run == g.run && f.Temp? == g.Temp?
    requires f.Rotated? ==> f.gz == g.gz
    ensures show(f.stamp) == show(g.stamp)
  {
    var ending := if f.Temp? then ".gz.tmp" else if f.gz then ".gz" else [];
    var before := LiveName(f.run) + ".";
    NameInParts(show, f, ending);
    NameInParts(show, g, ending);
    MiddleDetermined(before, show(f.stamp), show(g.stamp), ending);
  }

  lemma NameInParts(show: nat -> string, f: File, ending: string)
    requires !f.Live? && ending == if f.Temp? then ".gz.tmp" else if f.gz then ".gz" else []
    ensures Name(show, f) == (LiveName(f.run) + ".") + show(f.stamp) + ending
  {
  }

  ghost predicate Injective(show: nat -> string) {
    forall t, u :: show(t) == show(u) ==> t == u
  }

  /** Files have different names, if stamps are written differently. */
  lemma NamesDiffer(show: nat -> string, f: File, g: File)
    requires IsStampFormat(show) && Injective(show)
    requires Name(show, f) == Name(show, g)
    ensures f == g
  {
    SameKind(show, f, g);
    if !f.Live? {
      SameStamp(show, f, g);
    }
  }
}
