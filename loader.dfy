/**
 * The program loader of the process manager: `trim`, the `stringstream >> int`
 * extraction used for integer arguments, the decoding of one program line, and
 * `createProgram` over the lines of a named program file.
 */
module Loader {
  import opened Wrappers

  /** One instruction of a simulated program; `intArg` and `stringArg` as in the source. */
  datatype Instruction =
    | Set(intArg: int)
    | Add(intArg: int)
    | Decrement(intArg: int)
    | Block
    | End
    | Fork(intArg: int)
    | Replace(stringArg: string)

  /** The opcode letter that names an instruction in a program file. */
  function Opcode(ins: Instruction): char
  {
    match ins
    case Set(_) => 'S'
    case Add(_) => 'A'
    case Decrement(_) => 'D'
    case Block => 'B'
    case End => 'E'
    case Fork(_) => 'F'
    case Replace(_) => 'R'
  }

  /** Why a program line was refused. */
  datatype Fault =
    | InvalidInteger(operation: char, argument: string)
    | MissingString
    | InvalidOperation(operation: char)

  /** Why loading a program file failed; `lineNum` counts every line from 0, blank ones included. */
  datatype LoadError = CannotOpen | LineError(lineNum: nat, fault: Fault)

  /**
   * What `createProgram` leaves behind: the instructions it appended (those of the
   * lines before the first refused line) and, if it returned false, why.
   */
  datatype Loaded = Loaded(program: seq<Instruction>, error: Option<LoadError>)

  /** The program files that can be opened, each as its sequence of lines. */
  type FileSystem = map<string, seq<string>>

  const IntMin: int := -0x8000_0000
  const IntMax: int := 0x7FFF_FFFF

  /* ---------------- trim ---------------- */

  function Spaces(n: nat): (r: string)
    ensures |r| == n && forall k | 0 <= k < n :: r[k] == ' '
  {
    seq(n, _ => ' ')
  }

  /** `find_first_not_of(' ')` searching from `from`; `|s|` stands for `npos`. */
  function FindFirstNotSpace(s: string, from: nat): (i: nat)
    requires from <= |s|
    ensures from <= i <= |s|
    decreases |s| - from
  {
    if from == |s| || s[from] != ' ' then from else FindFirstNotSpace(s, from + 1)
  }

  /**
   * One past `find_last_not_of(' ')`, searching `s[lo..upto]` from its end; `lo`
   * when that part is all spaces.
   */
  function FindLastNotSpace(s: string, lo: nat, upto: nat): (j: nat)
    requires lo <= upto <= |s|
    ensures lo <= j <= upto
  {
    if upto == lo || s[upto - 1] != ' ' then upto else FindLastNotSpace(s, lo, upto - 1)
  }

  /** `trim`: the part of `s` between its first and its last character that is not `' '`. */
  function Trim(s: string): (r: string)
    ensures |r| <= |s|
  {
    var first := FindFirstNotSpace(s, 0);
    if first == |s| then [] else s[first..FindLastNotSpace(s, first, |s|)]
  }

  lemma {:induction false} FirstNotSpaceFacts(s: string, from: nat)
    requires from <= |s|
    ensures var i := FindFirstNotSpace(s, from);
      (forall k | from <= k < i :: s[k] == ' ') && (i < |s| ==> s[i] != ' ')
    decreases |s| - from
  {
    if from < |s| && s[from] == ' ' {
      FirstNotSpaceFacts(s, from + 1);
    }
  }

  lemma {:induction false} LastNotSpaceFacts(s: string, lo: nat, upto: nat)
    requires lo <= upto <= |s|
    ensures var j := FindLastNotSpace(s, lo, upto);
      (forall k | j <= k < upto :: s[k] == ' ') && (j > lo ==> s[j - 1] != ' ')
  {
    if upto > lo && s[upto - 1] == ' ' {
      LastNotSpaceFacts(s, lo, upto - 1);
    }
  }

  /** `trim` yields "" exactly for a string of spaces; otherwise neither end of its result is a space. */
  lemma TrimEnds(s: string)
    ensures Trim(s) == [] <==> forall k | 0 <= k < |s| :: s[k] == ' '
    ensures Trim(s) != [] ==> Trim(s)[0] != ' ' && Trim(s)[|Trim(s)| - 1] != ' '
  {
    FirstNotSpaceFacts(s, 0);
    var first := FindFirstNotSpace(s, 0);
    if first < |s| {
      LastNotSpaceFacts(s, first, |s|);
    }
  }

  /** What `trim` removes is spaces at the two ends and nothing else. */
  lemma TrimSplit(s: string) returns (lead: nat, trail: nat)
    ensures s == Spaces(lead) + Trim(s) + Spaces(trail)
  {
    FirstNotSpaceFacts(s, 0);
    var first := FindFirstNotSpace(s, 0);
    if first == |s| {
      lead, trail := |s|, 0;
      assert s == Spaces(lead);
    } else {
      LastNotSpaceFacts(s, first, |s|);
      var last := FindLastNotSpace(s, first, |s|);
      lead, trail := first, |s| - last;
      assert s == s[..first] + s[first..last] + s[last..];
      assert s[..first] == Spaces(lead);
      assert s[last..] == Spaces(trail);
    }
  }

  /** Conversely, padding a string whose ends are not spaces with spaces is undone by `trim`. */
  lemma TrimPadded(lead: nat, core: string, trail: nat)
    requires core == [] || (core[0] != ' ' && core[|core| - 1] != ' ')
    ensures Trim(Spaces(lead) + core + Spaces(trail)) == core
  {
    var s := Spaces(lead) + core + Spaces(trail);
    FirstNotSpaceFacts(s, 0);
    var first := FindFirstNotSpace(s, 0);
    if core == [] {
      assert forall k | 0 <= k < |s| :: s[k] == ' ';
    } else {
      assert s[lead] == core[0];
      assert first == lead;
      LastNotSpaceFacts(s, first, |s|);
      assert s[lead + |core| - 1] == core[|core| - 1];
      assert FindLastNotSpace(s, first, |s|) == lead + |core|;
      assert s[lead..lead + |core|] == core;
    }
  }

  /** Trimming twice is trimming once. */
  lemma TrimIdempotent(s: string)
    ensures Trim(Trim(s)) == Trim(s)
  {
    TrimEnds(s);
    TrimPadded(0, Trim(s), 0);
    assert Spaces(0) + Trim(s) + Spaces(0) == Trim(s);
  }

  /* ---------------- stringstream >> int ---------------- */

  /** `isspace` in the "C" locale: the characters `>>` skips before a number. */
  predicate IsSpace(c: char)
  {
    c == ' ' || c == '\t' || c == '\n' || c == '\r' || c as int == 11 || c as int == 12
  }

  predicate IsDigit(c: char)
  {
    '0' <= c <= '9'
  }

  function DigitValue(c: char): (d: nat)
    requires IsDigit(c)
    ensures d < 10
  {
    c as int - '0' as int
  }

  function DigitChar(d: nat): (c: char)
    requires d < 10
    ensures IsDigit(c) && DigitValue(c) == d
  {
    ('0' as int + d) as char
  }

  function SkipSpace(s: string): (r: string)
    ensures |r| <= |s|
    ensures r == [] || !IsSpace(r[0])
  {
    if s != [] && IsSpace(s[0]) then SkipSpace(s[1..]) else s
  }

  /** The longest prefix of `s` made of decimal digits. */
  function LeadingDigits(s: string): (r: string)
    ensures |r| <= |s|
    ensures forall k | 0 <= k < |r| :: IsDigit(r[k])
  {
    if s != [] && IsDigit(s[0]) then [s[0]] + LeadingDigits(s[1..]) else []
  }

  /** The value of a string of decimal digits, most significant first. */
  function DigitsValue(ds: string): nat
    requires forall k | 0 <= k < |ds| :: IsDigit(ds[k])
  {
    if ds == [] then 0 else DigitsValue(ds[..|ds| - 1]) * 10 + DigitValue(ds[|ds| - 1])
  }

  /**
   * `argStream >> intArg` on a fresh stream: skip white space, read an optional
   * sign and the longest run of digits after it; fail when there is no digit or
   * the value does not fit an `int`. Whatever follows the digits is ignored.
   */
  function ParseInt(s: string): (r: Option<int>)
    ensures r.Some? ==> IntMin <= r.value <= IntMax
  {
    ParseSigned(SkipSpace(s))
  }

  /** The extraction once white space is skipped: an optional sign, then digits. */
  function ParseSigned(u: string): (r: Option<int>)
    ensures r.Some? ==> IntMin <= r.value <= IntMax
  {
    if u != [] && (u[0] == '-' || u[0] == '+') then DigitsToInt(u[0] == '-', LeadingDigits(u[1..]))
    else DigitsToInt(false, LeadingDigits(u))
  }

  /** The value of the digits read, negated after a minus sign; nothing without digits or out of range. */
  function DigitsToInt(negative: bool, ds: string): (r: Option<int>)
    requires forall k | 0 <= k < |ds| :: IsDigit(ds[k])
    ensures r.Some? ==> IntMin <= r.value <= IntMax
  {
    if ds == [] then None
    else if negative then InRange(-(DigitsValue(ds) as int))
    else InRange(DigitsValue(ds))
  }

  /** A value read, kept only when it fits an `int`. */
  function InRange(v: int): (r: Option<int>)
    ensures r.Some? ==> IntMin <= r.value <= IntMax
  {
    if IntMin <= v <= IntMax then Some(v) else None
  }

  /** Decimal digits of a natural number, without leading zeros. */
  function NatToDigits(n: nat): (ds: string)
    ensures ds != [] && forall k | 0 <= k < |ds| :: IsDigit(ds[k])
  {
    if n < 10 then [DigitChar(n)] else NatToDigits(n / 10) + [DigitChar(n % 10)]
  }

  /** The decimal text of an integer, as a program file would carry it. */
  function ShowInt(v: int): (s: string)
    ensures s != [] && s[0] != ' ' && s[|s| - 1] != ' '
  {
    if v < 0 then "-" + NatToDigits(-v) else NatToDigits(v)
  }

  lemma {:induction false} DigitsRoundTrip(n: nat)
    ensures DigitsValue(NatToDigits(n)) == n
  {
    if n >= 10 {
      DigitsRoundTrip(n / 10);
      var ds := NatToDigits(n);
      assert ds[..|ds| - 1] == NatToDigits(n / 10);
    }
  }

  lemma {:induction false} LeadingDigitsOf(ds: string, rest: string)
    requires forall k | 0 <= k < |ds| :: IsDigit(ds[k])
    requires rest == [] || !IsDigit(rest[0])
    ensures LeadingDigits(ds + rest) == ds
  {
    if ds != [] {
      assert (ds + rest)[1..] == ds[1..] + rest;
      LeadingDigitsOf(ds[1..], rest);
    }
  }

  lemma NothingToSkip(s: string)
    requires s == [] || !IsSpace(s[0])
    ensures SkipSpace(s) == s
  {
  }

  /** Digits whose signed value fits an `int` are read as that value. */
  lemma SignedValue(negative: bool, ds: string)
    requires ds != [] && forall k | 0 <= k < |ds| :: IsDigit(ds[k])
    requires if negative then DigitsValue(ds) <= -IntMin else DigitsValue(ds) <= IntMax
    ensures DigitsToInt(negative, ds) == Some(if negative then -(DigitsValue(ds) as int) else DigitsValue(ds))
  {
  }

  lemma ParseDigitsPrefix(ds: string, rest: string)
    requires ds != [] && forall k | 0 <= k < |ds| :: IsDigit(ds[k])
    requires rest == [] || !IsDigit(rest[0])
    requires DigitsValue(ds) <= IntMax
    ensures ParseInt(ds + rest) == Some(DigitsValue(ds))
  {
    var s := ds + rest;
    LeadingDigitsOf(ds, rest);
    assert IsDigit(s[0]);
    NothingToSkip(s);
    assert ParseSigned(s) == DigitsToInt(false, ds);
    SignedValue(false, ds);
    assert ParseInt(s) == ParseSigned(s);
  }

  lemma ParseNegativePrefix(ds: string, rest: string)
    requires ds != [] && forall k | 0 <= k < |ds| :: IsDigit(ds[k])
    requires rest == [] || !IsDigit(rest[0])
    requires DigitsValue(ds) <= -IntMin
    ensures ParseInt(['-'] + (ds + rest)) == Some(-(DigitsValue(ds) as int))
  {
    LeadingDigitsOf(ds, rest);
    var s := ['-'] + (ds + rest);
    NothingToSkip(s);
    assert s[1..] == ds + rest;
    assert ParseSigned(s) == DigitsToInt(true, ds);
    SignedValue(true, ds);
    assert ParseInt(s) == ParseSigned(s);
  }

  /**
   * Reading back the decimal text of any `int` gives that `int`, even with text
   * after it that does not start with a digit (the stream stops at the digits).
   */
  lemma ParseShowInt(v: int, rest: string)
    requires IntMin <= v <= IntMax
    requires rest == [] || !IsDigit(rest[0])
    ensures ParseInt(ShowInt(v) + rest) == Some(v)
  {
    if v < 0 {
      ParseShowNegative(v, rest);
    } else {
      ParseShowNonNegative(v, rest);
    }
  }

  lemma ParseShowNegative(v: int, rest: string)
    requires IntMin <= v < 0
    requires rest == [] || !IsDigit(rest[0])
    ensures ParseInt(ShowInt(v) + rest) == Some(v)
  {
    var n: nat := -v;
    var ds := NatToDigits(n);
    calc {
      ParseInt(ShowInt(v) + rest);
      { assert ShowInt(v) == "-" + ds;
        assert ShowInt(v) + rest == ['-'] + (ds + rest); }
      ParseInt(['-'] + (ds + rest));
      { DigitsRoundTrip(n);
        ParseNegativePrefix(ds, rest); }
      Some(-(DigitsValue(ds) as int));
      { DigitsRoundTrip(n); }
      Some(v);
    }
  }

  lemma ParseShowNonNegative(v: int, rest: string)
    requires 0 <= v <= IntMax
    requires rest == [] || !IsDigit(rest[0])
    ensures ParseInt(ShowInt(v) + rest) == Some(v)
  {
    DigitsRoundTrip(v);
    ParseDigitsPrefix(NatToDigits(v), rest);
  }

  /* ---------------- one program line ---------------- */

  /** What one line of a program file contributes. */
  datatype LineResult = Blank | Parsed(instruction: Instruction) | Bad(fault: Fault)

  predicate TakesInt(op: char)
  {
    op == 'S' || op == 'A' || op == 'D' || op == 'F'
  }

  /** `toupper` in the "C" locale. */
  function ToUpper(c: char): (u: char)
    ensures 'a' <= c <= 'z' ==> u as int == c as int - 32
    ensures !('a' <= c <= 'z') ==> u == c
  {
    if 'a' <= c <= 'z' then (c as int - 32) as char else c
  }
  const Lowercase: string := "abcdefghijklmnopqrstuvwxyz"
  const Uppercase: string := "ABCDEFGHIJKLMNOPQRSTUVWXYZ"

  /** `toupper` maps each of the 26 lower-case letters to its capital and leaves every other character alone. */
  lemma ToUpperTable(c: char)
    ensures forall k | 0 <= k < |Lowercase| :: ToUpper(Lowercase[k]) == Uppercase[k]
    ensures c !in Lowercase ==> ToUpper(c) == c
  {
    if 'a' <= c <= 'z' {
      assert Lowercase[c as int - 'a' as int] == c;
    }
  }


  /** The argument text of a trimmed non-empty line: the rest after its first character, trimmed. */
  function Operand(t: string): string
    requires t != []
  {
    Trim(t[1..])
  }

  /** The body of the `createProgram` loop for one line. */
  function ParseLine(line: string): (r: LineResult)
    ensures r.Blank? <==> Trim(line) == []
  {
    var t := Trim(line);
    if |t| == 0 then Blank else Classify(ToUpper(t[0]), Operand(t))
  }

  /** The `switch` on the upper-cased opcode letter `op` with argument text `arg`. */
  function Classify(op: char, arg: string): (r: LineResult)
    ensures !r.Blank?
  {
    if TakesInt(op) then
      match ParseInt(arg)
      case None => Bad(InvalidInteger(op, arg))
      case Some(v) =>
        Parsed(if op == 'S' then Set(v) else if op == 'A' then Add(v)
               else if op == 'D' then Decrement(v) else Fork(v))
    else if op == 'B' then Parsed(Block)
    else if op == 'E' then Parsed(End)
    else if op == 'R' then (if |arg| == 0 then Bad(MissingString) else Parsed(Replace(arg)))
    else Bad(InvalidOperation(op))
  }

  /**
   * A non-blank line names its opcode by its first character, upper-cased; S, A, D
   * and F need an integer operand, R a non-empty one, B and E ignore theirs, and
   * every other letter is refused.
   */
  lemma ParseLineMeaning(line: string)
    requires Trim(line) != []
    ensures
      var t := Trim(line);
      var op := ToUpper(t[0]);
      match ParseLine(line)
      case Blank => false
      case Parsed(ins) =>
        && Opcode(ins) == op
        && (TakesInt(op) ==> ParseInt(Operand(t)) == Some(ins.intArg))
        && (ins.Replace? ==> ins.stringArg == Operand(t) != [])
      case Bad(fault) =>
        match fault
        case InvalidInteger(o, a) => o == op && TakesInt(op) && a == Operand(t) && ParseInt(a).None?
        case MissingString => op == 'R' && Operand(t) == []
        case InvalidOperation(o) => o == op && !TakesInt(op) && op !in "BER"
  {
  }

  /** The canonical line for an instruction: opcode, a space, argument. */
  function Render(ins: Instruction): string
  {
    match ins
    case Block => "B"
    case End => "E"
    case Replace(name) => [Opcode(ins), ' '] + name
    case _ => [Opcode(ins), ' '] + ShowInt(ins.intArg)
  }

  /** An instruction a program file can express: an `int` argument, a non-empty file name with no space at either end. */
  predicate Expressible(ins: Instruction)
  {
    match ins
    case Replace(name) => name != [] && name[0] != ' ' && name[|name| - 1] != ' '
    case Block => true
    case End => true
    case _ => IntMin <= ins.intArg <= IntMax
  }

  lemma TrimRendered(op: char, arg: string)
    requires arg != [] && arg[0] != ' ' && arg[|arg| - 1] != ' '
    requires op != ' '
    ensures Trim([op, ' '] + arg) == [op, ' '] + arg
  {
    var line := [op, ' '] + arg;
    TrimPadded(0, line, 0);
    assert Spaces(0) + line + Spaces(0) == line;
  }

  lemma OperandRendered(op: char, arg: string)
    requires arg != [] && arg[0] != ' ' && arg[|arg| - 1] != ' '
    ensures Operand([op, ' '] + arg) == arg
  {
    var line := [op, ' '] + arg;
    TrimPadded(1, arg, 0);
    assert line[1..] == Spaces(1) + arg + Spaces(0);
  }

  lemma ParseOpArg(op: char, arg: string)
    requires arg != [] && arg[0] != ' ' && arg[|arg| - 1] != ' '
    requires 'A' <= op <= 'Z'
    ensures ParseLine([op, ' '] + arg) == Classify(op, arg)
  {
    TrimRendered(op, arg);
    OperandRendered(op, arg);
  }

  lemma ParseBare(line: string)
    requires |line| == 1 && 'A' <= line[0] <= 'Z'
    ensures ParseLine(line) == Classify(line[0], [])
  {
    TrimPadded(0, line, 0);
    assert Spaces(0) + line + Spaces(0) == line;
    assert Trim(line[1..]) == [];
  }

  lemma ClassifyInt(ins: Instruction)
    requires ins.Set? || ins.Add? || ins.Decrement? || ins.Fork?
    requires IntMin <= ins.intArg <= IntMax
    ensures Classify(Opcode(ins), ShowInt(ins.intArg)) == Parsed(ins)
  {
    ParseShowInt(ins.intArg, []);
    assert ShowInt(ins.intArg) + [] == ShowInt(ins.intArg);
  }

  /** Decoding the canonical line of an instruction gives the instruction back. */
  lemma ParseRender(ins: Instruction)
    requires Expressible(ins)
    ensures ParseLine(Render(ins)) == Parsed(ins)
  {
    match ins
    case Block => ParseBare("B");
    case End => ParseBare("E");
    case Replace(name) => ParseOpArg('R', name);
    case _ =>
      ParseOpArg(Opcode(ins), ShowInt(ins.intArg));
      ClassifyInt(ins);
  }

  /* ---------------- createProgram ---------------- */

  /** The decoding of every line of a file, in order. */
  function Decode(lines: seq<string>): (rs: seq<LineResult>)
    ensures |rs| == |lines|
    ensures forall k | 0 <= k < |lines| :: rs[k] == ParseLine(lines[k])
  {
    seq(|lines|, k requires 0 <= k < |lines| => ParseLine(lines[k]))
  }

  /**
   * The outcome of the `createProgram` loop over decoded lines, the first of which
   * is line `lineNum`: blank lines are skipped, every other line appends one
   * instruction, and the first refused line stops the loop with what was appended
   * so far kept.
   */
  function Collect(rs: seq<LineResult>, lineNum: nat): (r: Loaded)
    ensures |r.program| <= |rs|
    ensures r.error.Some? ==>
      r.error.value.LineError? && lineNum <= r.error.value.lineNum < lineNum + |rs|
  {
    if rs == [] then Loaded([], None)
    else
      match rs[0]
      case Blank => Collect(rs[1..], lineNum + 1)
      case Parsed(ins) =>
        var rest := Collect(rs[1..], lineNum + 1);
        Loaded([ins] + rest.program, rest.error)
      case Bad(f) => Loaded([], Some(LineError(lineNum, f)))
  }

  /** `createProgram(filename, program)` on an empty `program`. */
  function Load(files: FileSystem, filename: string): (r: Loaded)
    ensures filename !in files ==> r == Loaded([], Some(CannotOpen))
    ensures filename in files ==> |r.program| <= |files[filename]|
  {
    if filename in files then Collect(Decode(files[filename]), 0) else Loaded([], Some(CannotOpen))
  }

  /** Loading a concatenation: the second part is looked at only when the first one had no refused line. */
  lemma {:induction false} CollectAppend(a: seq<LineResult>, b: seq<LineResult>, lineNum: nat)
    ensures Collect(a + b, lineNum) ==
      var first := Collect(a, lineNum);
      if first.error.Some? then first
      else
        var second := Collect(b, lineNum + |a|);
        Loaded(first.program + second.program, second.error)
  {
    if a == [] {
      assert a + b == b;
    } else {
      assert (a + b)[0] == a[0];
      assert (a + b)[1..] == a[1..] + b;
      CollectAppend(a[1..], b, lineNum + 1);
    }
  }

  lemma DecodeAppend(a: seq<string>, b: seq<string>)
    ensures Decode(a + b) == Decode(a) + Decode(b)
  {
    assert forall k | 0 <= k < |a| :: (a + b)[k] == a[k];
    assert forall k | |a| <= k < |a| + |b| :: (a + b)[k] == b[k - |a|];
  }

  /** Fail fast: after the first refused line nothing is appended, whatever follows it. */
  lemma StopsAtFirstFault(good: seq<LineResult>, fault: Fault, rest: seq<LineResult>, lineNum: nat)
    requires Collect(good, lineNum).error.None?
    ensures Collect(good + [Bad(fault)] + rest, lineNum) ==
      Loaded(Collect(good, lineNum).program, Some(LineError(lineNum + |good|, fault)))
  {
    CollectAppend(good, [Bad(fault)] + rest, lineNum);
    assert good + [Bad(fault)] + rest == good + ([Bad(fault)] + rest);
  }

  /** A line that is neither refused nor blank appends exactly its one instruction, at the end. */
  lemma AppendsOne(rs: seq<LineResult>, ins: Instruction, lineNum: nat)
    requires Collect(rs, lineNum).error.None?
    ensures Collect(rs + [Parsed(ins)], lineNum) == Loaded(Collect(rs, lineNum).program + [ins], None)
  {
    CollectAppend(rs, [Parsed(ins)], lineNum);
    assert [Parsed(ins)][1..] == [];
  }

  /** Line numbers only label the error: they never change what is loaded. */
  lemma {:induction false} CollectRenumbered(rs: seq<LineResult>, m: nat, n: nat)
    ensures Collect(rs, m).program == Collect(rs, n).program
    ensures Collect(rs, m).error.Some? <==> Collect(rs, n).error.Some?
  {
    if rs != [] {
      CollectRenumbered(rs[1..], m + 1, n + 1);
    }
  }

  /** A blank line anywhere leaves the loaded program unchanged. */
  lemma BlankLineSkipped(a: seq<LineResult>, b: seq<LineResult>, lineNum: nat)
    ensures Collect(a + [Blank] + b, lineNum).program == Collect(a + b, lineNum).program
  {
    CollectAppend(a, [Blank] + b, lineNum);
    CollectAppend(a, b, lineNum);
    assert a + [Blank] + b == a + ([Blank] + b);
    assert ([Blank] + b)[1..] == b;
    CollectRenumbered(b, lineNum + |a| + 1, lineNum + |a|);
  }

  /** A program written one instruction per line. */
  function RenderAll(program: seq<Instruction>): (lines: seq<string>)
    ensures |lines| == |program|
    ensures forall k | 0 <= k < |program| :: lines[k] == Render(program[k])
  {
    seq(|program|, k requires 0 <= k < |program| => Render(program[k]))
  }

  lemma {:induction false} CollectParsed(rs: seq<LineResult>, program: seq<Instruction>, lineNum: nat)
    requires |rs| == |program|
    requires forall k | 0 <= k < |rs| :: rs[k] == Parsed(program[k])
    ensures Collect(rs, lineNum) == Loaded(program, None)
  {
    if rs != [] {
      CollectParsed(rs[1..], program[1..], lineNum + 1);
      assert [program[0]] + program[1..] == program;
    }
  }

  /** Writing a program one instruction per line and loading it gives back the program. */
  lemma LoadRendered(program: seq<Instruction>, lineNum: nat)
    requires forall k | 0 <= k < |program| :: Expressible(program[k])
    ensures Collect(Decode(RenderAll(program)), lineNum) == Loaded(program, None)
  {
    forall k | 0 <= k < |program|
      ensures Decode(RenderAll(program))[k] == Parsed(program[k])
    {
      ParseRender(program[k]);
    }
    CollectParsed(Decode(RenderAll(program)), program, lineNum);
  }

  /** What is still to come once the loop has appended `program` and reached line `lineNum`. */
  function Remaining(program: seq<Instruction>, rs: seq<LineResult>, lineNum: nat): Loaded
    requires lineNum <= |rs|
  {
    var rest := Collect(rs[lineNum..], lineNum);
    Loaded(program + rest.program, rest.error)
  }

  /** One turn of the `createProgram` loop on a line that is not refused. */
  lemma {:induction false} RemainingStep(program: seq<Instruction>, rs: seq<LineResult>, lineNum: nat)
    requires lineNum < |rs| && !rs[lineNum].Bad?
    ensures Remaining(program, rs, lineNum) ==
      Remaining(program + (if rs[lineNum].Parsed? then [rs[lineNum].instruction] else []), rs, lineNum + 1)
  {
    assert rs[lineNum..][0] == rs[lineNum];
    assert rs[lineNum..][1..] == rs[lineNum + 1..];
    var rest := Collect(rs[lineNum + 1..], lineNum + 1);
    if rs[lineNum].Parsed? {
      assert program + ([rs[lineNum].instruction] + rest.program)
          == (program + [rs[lineNum].instruction]) + rest.program;
    } else {
      assert program + [] == program;
    }
  }

  /** The `createProgram` loop reaching a refused line. */
  lemma RemainingFault(program: seq<Instruction>, rs: seq<LineResult>, lineNum: nat)
    requires lineNum < |rs| && rs[lineNum].Bad?
    ensures Remaining(program, rs, lineNum) == Loaded(program, Some(LineError(lineNum, rs[lineNum].fault)))
  {
    assert rs[lineNum..][0] == rs[lineNum];
    assert program + [] == program;
  }

  /**
   * `createProgram`: opens the file (a name missing from `files` cannot be opened) and
   * appends the instruction of each line to an empty `program`, returning false at the
   * first refused line.
   */
  method CreateProgram(files: FileSystem, filename: string) returns (ok: bool, program: seq<Instruction>)
    ensures ok <==> Load(files, filename).error.None?
    ensures program == Load(files, filename).program
  {
    program := [];
    if filename !in files {
      return false, program;
    }
    var lines := files[filename];
    ghost var rs := Decode(lines);
    var lineNum := 0;
    assert rs[0..] == rs;
    assert [] + Collect(rs, 0).program == Collect(rs, 0).program;
    while lineNum < |lines|
      invariant 0 <= lineNum <= |lines|
      invariant Collect(rs, 0) == Remaining(program, rs, lineNum)
    {
      var line := ParseLine(lines[lineNum]);
      assert rs[lineNum] == line;
      match line {
        case Blank =>
          RemainingStep(program, rs, lineNum);
        case Parsed(instruction) =>
          RemainingStep(program, rs, lineNum);
          program := program + [instruction];
        case Bad(_) =>
          RemainingFault(program, rs, lineNum);
          return false, program;
      }
      lineNum := lineNum + 1;
    }
    assert rs[lineNum..] == [];
    assert program + [] == program;
    ok := true;
  }
}
