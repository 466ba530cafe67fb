/** POSIX ACLs (deploy/execution_topology.py): `native_acl` decodes the binary
    attribute to text, `acl_safe` judges the text; together they judge the bytes. */
module AclText {
  import opened Effects
  import opened Text

  type byte = n: nat | n < 256

  const WHOLE := 0x1_0000_0000
  const NOBODY := 0xffff_ffff

  datatype Kind = User | Group | Mask | Other

  /** `principal` is the numeric id of a named entry; `rights` are the bits r=4, w=2, x=1. */
  datatype Entry = Entry(kind: Kind, principal: Option<nat>, rights: nat)

  predicate WellFormed(e: Entry) {
    && e.rights <= 7
    && (e.principal.Some? ==> e.kind in {User, Group} && e.principal.value < NOBODY)
  }

  predicate AllWellFormed(entries: seq<Entry>) {
    forall e <- entries :: WellFormed(e)
  }

  /** The entry grants nothing beyond the declared boundary. */
  predicate Bounded(e: Entry, users: set<nat>, groups: set<nat>) {
    && (e.kind == Other ==> e.rights == 0)
    && (e.principal.Some? && e.rights != 0 ==> e.principal.value in if e.kind == User then users else groups)
  }

  // ---- Bytes ----

  function TagOf(kind: Kind, named: bool): nat {
    match kind
    case User => if named then 2 else 1
    case Group => if named then 8 else 4
    case Mask => 16
    case Other => 32
  }

  function KindOf(tag: nat): Option<(Kind, bool)> {
    match tag
    case 1 => Some((User, false))
    case 2 => Some((User, true))
    case 4 => Some((Group, false))
    case 8 => Some((Group, true))
    case 16 => Some((Mask, false))
    case 32 => Some((Other, false))
    case _ => None
  }

  function Two(n: nat): (b: seq<byte>)
    requires n < 0x1_0000
    ensures |b| == 2
  {
    [n % 256, n / 256]
  }

  function Four(n: nat): (b: seq<byte>)
    requires n < WHOLE
    ensures |b| == 4
  {
    Two(n % 0x1_0000) + Two(n / 0x1_0000)
  }

  function ReadTwo(b: seq<byte>, at: nat): (n: nat)
    requires at + 2 <= |b|
    ensures n < 0x1_0000
  {
    b[at] as int + 256 * (b[at + 1] as int)
  }

  function ReadFour(b: seq<byte>, at: nat): (n: nat)
    requires at + 4 <= |b|
    ensures n < WHOLE
  {
    ReadTwo(b, at) + 0x1_0000 * ReadTwo(b, at + 2)
  }

  function EncodeEntry(e: Entry): (b: seq<byte>)
    requires WellFormed(e)
    ensures |b| == 8
  {
    Two(TagOf(e.kind, e.principal.Some?)) + Two(e.rights)
    + Four(if e.principal.Some? then e.principal.value else NOBODY)
  }

  function EncodeAll(entries: seq<Entry>): (b: seq<byte>)
    requires AllWellFormed(entries)
    ensures |b| == 8 * |entries|
  {
    if entries == [] then [] else EncodeAll(entries[..|entries| - 1]) + EncodeEntry(entries[|entries| - 1])
  }

  /** The attribute format: version 2, then the entries, little-endian. */
  function Encode(entries: seq<Entry>): (b: seq<byte>)
    requires AllWellFormed(entries)
  {
    Four(2) + EncodeAll(entries)
  }

  function DecodeEntry(b: seq<byte>, at: nat): Option<Entry>
    requires at + 8 <= |b|
  {
    var kind, rights, identity := KindOf(ReadTwo(b, at)), ReadTwo(b, at + 2), ReadFour(b, at + 4);
    if kind.None? || rights > 7 || (identity != NOBODY) != kind.value.1 then None
    else Some(Entry(kind.value.0, if kind.value.1 then Some(identity) else None, rights))
  }

  lemma EntryRoundTrip(e: Entry, b: seq<byte>, at: nat)
    requires WellFormed(e) && at + 8 <= |b| && b[at..at + 8] == EncodeEntry(e)
    ensures DecodeEntry(b, at) == Some(e)
  {
    var w := EncodeEntry(e);
    assert forall k :: 0 <= k < 8 ==> b[at + k] == w[k];
  }

  lemma TwoBytes(b: seq<byte>, at: nat)
    requires at + 2 <= |b|
    ensures Two(ReadTwo(b, at)) == b[at..at + 2]
  {
  }

  lemma FourBytes(b: seq<byte>, at: nat)
    requires at + 4 <= |b|
    ensures Four(ReadFour(b, at)) == b[at..at + 4]
  {
    TwoBytes(b, at);
    TwoBytes(b, at + 2);
    var n := ReadFour(b, at);
    assert n % 0x1_0000 == ReadTwo(b, at) && n / 0x1_0000 == ReadTwo(b, at + 2);
    assert b[at..at + 4] == b[at..at + 2] + b[at + 2..at + 4];
  }

  lemma DecodedEntry(b: seq<byte>, at: nat)
    requires at + 8 <= |b| && DecodeEntry(b, at).Some?
    ensures WellFormed(DecodeEntry(b, at).value) && b[at..at + 8] == EncodeEntry(DecodeEntry(b, at).value)
  {
    var e := DecodeEntry(b, at).value;
    var kind := KindOf(ReadTwo(b, at)).value;
    assert TagOf(kind.0, kind.1) == ReadTwo(b, at);
    TwoBytes(b, at);
    TwoBytes(b, at + 2);
    FourBytes(b, at + 4);
    assert b[at..at + 8] == b[at..at + 2] + b[at + 2..at + 4] + b[at + 4..at + 8];
  }

  // ---- native_acl ----

  predicate HeaderOk(raw: seq<byte>) {
    4 <= |raw| <= 65536 && (|raw| - 4) % 8 == 0 && ReadFour(raw, 0) == 2
  }

  /** The first n entries, unless one of them is malformed. */
  function DecodeFirst(raw: seq<byte>, n: nat): Option<seq<Entry>>
    requires 4 + 8 * n <= |raw|
  {
    if n == 0 then Some([])
    else
      var before, last := DecodeFirst(raw, n - 1), DecodeEntry(raw, 8 * n - 4);
      if before.Some? && last.Some? then Some(before.value + [last.value]) else None
  }

  function Decode(raw: seq<byte>): Option<seq<Entry>> {
    if HeaderOk(raw) then DecodeFirst(raw, (|raw| - 4) / 8) else None
  }

  lemma {:induction false} DecodedFirst(raw: seq<byte>, n: nat)
    requires 4 + 8 * n <= |raw| && DecodeFirst(raw, n).Some?
    ensures var entries := DecodeFirst(raw, n).value;
            |entries| == n && AllWellFormed(entries) && raw[4..4 + 8 * n] == EncodeAll(entries)
  {
    hide DecodeEntry, EncodeEntry, WellFormed;
    if n > 0 {
      DecodedFirst(raw, n - 1);
      DecodedEntry(raw, 8 * n - 4);
      var entries := DecodeFirst(raw, n).value;
      assert entries[..n - 1] == DecodeFirst(raw, n - 1).value;
      assert raw[4..4 + 8 * n] == raw[4..8 * n - 4] + raw[8 * n - 4..8 * n + 4];
    }
  }

  lemma {:induction false} EncodedFirst(raw: seq<byte>, entries: seq<Entry>)
    requires AllWellFormed(entries)
    requires 4 + 8 * |entries| <= |raw| && raw[4..4 + 8 * |entries|] == EncodeAll(entries)
    ensures DecodeFirst(raw, |entries|) == Some(entries)
  {
    hide DecodeEntry, EncodeEntry, WellFormed;
    var n := |entries|;
    if n > 0 {
      var init, e, all := entries[..n - 1], entries[n - 1], raw[4..4 + 8 * n];
      assert all == EncodeAll(init) + EncodeEntry(e);
      assert raw[4..8 * n - 4] == all[..8 * n - 8] == EncodeAll(init);
      assert raw[8 * n - 4..8 * n + 4] == all[8 * n - 8..] == EncodeEntry(e);
      EncodedFirst(raw, init);
      EntryRoundTrip(e, raw, 8 * n - 4);
      assert init + [e] == entries;
    }
  }

  /** Decoding inverts encoding, and accepts nothing else: an attribute value has
      these entries exactly when it is their encoding. */
  lemma DecodeExact(raw: seq<byte>, entries: seq<Entry>)
    ensures Decode(raw) == Some(entries)
            <==> |raw| <= 65536 && AllWellFormed(entries) && raw == Encode(entries)
  {
    hide WellFormed, EncodeAll, DecodeFirst, ReadFour, Four;
    if Decode(raw) == Some(entries) {
      DecodedFirst(raw, (|raw| - 4) / 8);
      assert raw == raw[..4] + raw[4..];
      HeaderBytes(raw);
    }
    if |raw| <= 65536 && AllWellFormed(entries) && raw == Encode(entries) {
      assert raw[..4] == Four(2) && raw[4..4 + 8 * |entries|] == EncodeAll(entries);
      HeaderBytes(raw);
      EncodedFirst(raw, entries);
    }
  }

  lemma HeaderBytes(raw: seq<byte>)
    requires |raw| >= 4
    ensures raw[..4] == Four(2) <==> ReadFour(raw, 0) == 2
  {
    assert Four(2) == [2, 0, 0, 0];
    assert raw[..4] == [raw[0], raw[1], raw[2], raw[3]];
  }

  // ---- Text ----

  function Rights(bits: nat): (s: string)
    requires bits <= 7
    ensures |s| == 3 && (forall c <- s :: c in "rwx-") && (s == "---" <==> bits == 0)
  {
    [if bits / 4 == 1 then 'r' else '-', if bits / 2 % 2 == 1 then 'w' else '-', if bits % 2 == 1 then 'x' else '-']
  }

  function Word(kind: Kind): string {
    match kind
    case User => "user"
    case Group => "group"
    case Mask => "mask"
    case Other => "other"
  }

  function Principal(e: Entry): string {
    if e.principal.Some? then Decimal(e.principal.value) else ""
  }

  function Bare(e: Entry): string
    requires WellFormed(e)
  {
    Word(e.kind) + ":" + Principal(e) + ":" + Rights(e.rights)
  }

  function Line(prefix: string, e: Entry): string
    requires WellFormed(e)
  {
    prefix + Bare(e)
  }

  function LinesOf(prefix: string, entries: seq<Entry>): (lines: seq<string>)
    requires AllWellFormed(entries)
    ensures |lines| == |entries| && forall i :: 0 <= i < |lines| ==> lines[i] == Line(prefix, entries[i])
  {
    seq(|entries|, i requires 0 <= i < |entries| => Line(prefix, entries[i]))
  }

  const DEFAULT := "default:"

  /** An attribute that is not there has no entries. */
  function EntriesOf(raw: Option<seq<byte>>): Option<seq<Entry>> {
    if raw.None? then Some([]) else Decode(raw.value)
  }

  lemma NoLines(prefix: string)
    ensures LinesOf(prefix, []) == []
  {
  }

  lemma NextLine(prefix: string, entries: seq<Entry>, e: Entry)
    requires AllWellFormed(entries) && WellFormed(e)
    ensures LinesOf(prefix, entries + [e]) == LinesOf(prefix, entries) + [Line(prefix, e)]
  {
  }

  /** One attribute: its lines, or None where the source refuses it. */
  method ReadAttribute(raw: seq<byte>, prefix: string) returns (lines: Option<seq<string>>)
    ensures lines.Some? <==> Decode(raw).Some?
    ensures lines.Some? ==> AllWellFormed(Decode(raw).value) && lines.value == LinesOf(prefix, Decode(raw).value)
  {
    if !(4 <= |raw| <= 65536) || (|raw| - 4) % 8 != 0 || ReadFour(raw, 0) != 2 {
      return None;
    }
    lines := ReadEntries(raw, (|raw| - 4) / 8, prefix);
  }

  /** The inner loop. */
  method ReadEntries(raw: seq<byte>, n: nat, prefix: string) returns (lines: Option<seq<string>>)
    requires 4 + 8 * n <= |raw|
    ensures lines.Some? <==> DecodeFirst(raw, n).Some?
    ensures lines.Some? ==>
              AllWellFormed(DecodeFirst(raw, n).value) && lines.value == LinesOf(prefix, DecodeFirst(raw, n).value)
  {
    var text: seq<string> := [];
    ghost var entries: seq<Entry> := [];
    NoLines(prefix);
    assert DecodeFirst(raw, 0) == Some(entries);
    hide LinesOf, DecodeEntry, DecodeFirst, WellFormed;
    for i := 0 to n
      invariant DecodeFirst(raw, i) == Some(entries) && AllWellFormed(entries)
      invariant text == LinesOf(prefix, entries)
    {
      var line := ReadEntry(raw, 4 + 8 * i, prefix);
      NextEntry(raw, i);
      if line.None? {
        FailsForGood(raw, i + 1, n);
        return None;
      }
      ghost var e := DecodeEntry(raw, 4 + 8 * i).value;
      NextLine(prefix, entries, e);
      text, entries := text + [line.value], entries + [e];
    }
    return Some(text);
  }

  lemma NextEntry(raw: seq<byte>, i: nat)
    requires 12 + 8 * i <= |raw| && DecodeFirst(raw, i).Some?
    ensures var e := DecodeEntry(raw, 4 + 8 * i);
            DecodeFirst(raw, i + 1) == if e.Some? then Some(DecodeFirst(raw, i).value + [e.value]) else None
  {
  }

  /** The body of the inner loop. */
  method ReadEntry(raw: seq<byte>, offset: nat, prefix: string) returns (line: Option<string>)
    requires offset + 8 <= |raw|
    ensures line.Some? <==> DecodeEntry(raw, offset).Some?
    ensures line.Some? ==>
              WellFormed(DecodeEntry(raw, offset).value) && line.value == Line(prefix, DecodeEntry(raw, offset).value)
  {
    var tag, permissions, identity := ReadTwo(raw, offset), ReadTwo(raw, offset + 2), ReadFour(raw, offset + 4);
    var kind := KindOf(tag);
    if kind.None? || permissions > 7 || (identity != NOBODY) != kind.value.1 {
      return None;
    }
    hide Decimal, Rights, ReadTwo, ReadFour;
    return Some(prefix
        + (Word(kind.value.0) + ":" + (if kind.value.1 then Decimal(identity) else "") + ":" + Rights(permissions)));
  }

  lemma {:induction false} FailsForGood(raw: seq<byte>, m: nat, n: nat)
    requires m <= n && 4 + 8 * n <= |raw| && DecodeFirst(raw, m).None?
    ensures DecodeFirst(raw, n).None?
  {
    if m < n {
      FailsForGood(raw, m, n - 1);
    }
  }

  /** `native_acl`. */
  method NativeAcl(access: Option<seq<byte>>, inherited: Option<seq<byte>>) returns (text: Option<string>)
    ensures text.Some? <==> EntriesOf(access).Some? && EntriesOf(inherited).Some?
    ensures text.Some? ==>
              var a, d := EntriesOf(access).value, EntriesOf(inherited).value;
              && AllWellFormed(a) && AllWellFormed(d)
              && text.value == Join(LinesOf("", a) + LinesOf(DEFAULT, d), '\n')
  {
    var lines: seq<string> := [];
    assert LinesOf("", []) == [] && LinesOf(DEFAULT, []) == [];
    if access.Some? {
      var read := ReadAttribute(access.value, "");
      if read.None? {
        return None;
      }
      lines := read.value;
    }
    if inherited.Some? {
      var read := ReadAttribute(inherited.value, DEFAULT);
      if read.None? {
        return None;
      }
      lines := lines + read.value;
    }
    assert inherited.None? ==> lines == lines + LinesOf(DEFAULT, []);
    return Some(Join(lines, '\n'));
  }

  // ---- acl_safe ----

  predicate IsBreak(c: char) {
    var n := c as int;
    10 <= n <= 13 || 28 <= n <= 30 || n == 0x85 || n == 0x2028 || n == 0x2029
  }

  predicate IsSpace(c: char) {
    var n := c as int;
    || 9 <= n <= 13 || 28 <= n <= 32 || n == 0x85 || n == 0xA0 || n == 0x1680 || 0x2000 <= n <= 0x200A
    || n == 0x2028 || n == 0x2029 || n == 0x202F || n == 0x205F || n == 0x3000
  }

  /** How many characters come before the first line break. */
  function UntilBreak(s: string): (n: nat)
    ensures n <= |s| && (forall i :: 0 <= i < n ==> !IsBreak(s[i])) && (n < |s| ==> IsBreak(s[n]))
  {
    if s == "" || IsBreak(s[0]) then 0 else 1 + UntilBreak(s[1..])
  }

  /** `splitlines`. */
  function SplitLines(s: string): seq<string>
    decreases |s|
  {
    if s == "" then []
    else
      var n := UntilBreak(s);
      if n == |s| then [s]
      else
        var next := if s[n] == '\r' && n + 1 < |s| && s[n + 1] == '\n' then n + 2 else n + 1;
        [s[..n]] + SplitLines(s[next..])
  }

  function Fields(s: string): seq<string> {
    Split(s, ':')
  }

  function Strip(s: string): string
    decreases |s|
  {
    if s == "" then ""
    else if IsSpace(s[0]) then Strip(s[1..])
    else if IsSpace(s[|s| - 1]) then Strip(s[..|s| - 1])
    else s
  }

  /** A line without its comment, outer blanks and `default:` mark. */
  function Content(line: string): string {
    var text := Stripped(line);
    if DEFAULT <= text then text[|DEFAULT|..] else text
  }

  predicate IsRights(s: string) {
    |s| == 3 && forall c <- s :: c in "rwx-"
  }

  predicate IsKind(s: string) {
    s == "user" || s == "group" || s == "mask" || s == "other"
  }

  predicate FieldsSafe(fields: seq<string>, users: set<nat>, groups: set<nat>) {
    && |fields| == 3 && IsKind(fields[0]) && IsRights(fields[2])
    && (fields[0] == "other" ==> fields[2] == "---")
    && (fields[0] != "other" && fields[1] != "" && fields[2] != "---" ==>
          IsDecimal(fields[1]) && Value(fields[1]) in if fields[0] == "user" then users else groups)
  }

  function Stripped(line: string): string {
    Strip(line[..Until(line, '#')])
  }

  /** One line of the text passes. */
  predicate LineSafe(line: string, users: set<nat>, groups: set<nat>) {
    Stripped(line) == "" || FieldsSafe(Fields(Content(line)), users, groups)
  }

  // ---- What the text check accepts ----

  /** An entry as written gives nobody more than the declared users and groups. */
  ghost predicate Granted(kind: string, principal: string, rights: string, users: set<nat>, groups: set<nat>) {
    && kind in {"user", "group", "mask", "other"} && |rights| == 3 && (forall c <- rights :: c in {'r', 'w', 'x', '-'})
    && (rights == "---" || (kind != "other" && (principal == ""
        || (IsDecimal(principal) && Value(principal) in (if kind == "user" then users else groups)))))
  }

  /** Three fields and no fourth, of the words and letters there are. */
  lemma FieldsMean(content: string, users: set<nat>, groups: set<nat>)
    ensures FieldsSafe(Fields(content), users, groups)
            <==> exists kind, principal, rights ::
                   && content == kind + ":" + principal + ":" + rights
                   && ':' !in kind && ':' !in principal && ':' !in rights
                   && Granted(kind, principal, rights, users, groups)
  {
    hide Fields, Granted, IsDecimal, Value;
    if FieldsSafe(Fields(content), users, groups) {
      var parts := Fields(content);
      ThreeFields(content);
      GrantedFields(parts, users, groups);
    }
    forall kind, principal, rights | content == kind + ":" + principal + ":" + rights
        && ':' !in kind && ':' !in principal && ':' !in rights && Granted(kind, principal, rights, users, groups)
      ensures FieldsSafe(Fields(content), users, groups)
    {
      FieldsOfThree(kind, principal, rights);
      GrantedFields(Fields(content), users, groups);
    }
  }

  lemma GrantedFields(fields: seq<string>, users: set<nat>, groups: set<nat>)
    ensures FieldsSafe(fields, users, groups)
            <==> |fields| == 3 && Granted(fields[0], fields[1], fields[2], users, groups)
  {
    hide IsDecimal, Value;
  }

  lemma ThreeFields(content: string)
    requires |Fields(content)| == 3
    ensures var parts := Fields(content);
            && content == parts[0] + ":" + parts[1] + ":" + parts[2]
            && ':' !in parts[0] && ':' !in parts[1] && ':' !in parts[2]
  {
    JoinSplit(content, ':');
    PartsPlain(content, ':');
    var parts := Fields(content);
    hide Split;
    JoinThree(parts[0], parts[1], parts[2], ':');
    assert parts == [parts[0], parts[1], parts[2]];
  }

  lemma JoinThree(a: string, b: string, c: string, at: char)
    ensures Join([a, b, c], at) == a + [at] + b + [at] + c
  {
    assert [a, b, c][1..] == [b, c] && [b, c][1..] == [c];
    assert Join([b, c], at) == b + [at] + c;
    assert a + [at] + (b + [at] + c) == a + [at] + b + [at] + c;
  }

  predicate AllBlank(s: string) {
    forall c <- s :: IsSpace(c)
  }

  /** Stripping takes the blanks off both ends, and nothing else. */
  lemma {:induction false} StripMeans(s: string) returns (before: string, after: string)
    ensures s == before + Strip(s) + after && AllBlank(before) && AllBlank(after)
    ensures Strip(s) != "" ==> !IsSpace(Strip(s)[0]) && !IsSpace(Strip(s)[|Strip(s)| - 1])
    decreases |s|
  {
    hide IsSpace;
    before, after := "", "";
    if s != "" && IsSpace(s[0]) {
      before, after := StripMeans(s[1..]);
      before := [s[0]] + before;
      assert s == [s[0]] + s[1..];
    } else if s != "" && IsSpace(s[|s| - 1]) {
      var n := |s| - 1;
      before, after := StripMeans(s[..n]);
      after := after + [s[n]];
      assert s == s[..n] + [s[n]];
    }
  }

  ghost predicate NoBreak(line: string) {
    forall c <- line :: !IsBreak(c)
  }

  lemma BreakAt(line: string, c: char, rest: string)
    requires NoBreak(line) && IsBreak(c)
    ensures UntilBreak(line + [c] + rest) == |line| && UntilBreak(line) == |line|
  {
    hide IsBreak;
    var s := line + [c] + rest;
    assert s[|line|] == c;
    assert forall i :: 0 <= i < |line| ==> s[i] == line[i] && line[i] in line;
  }

  /** A text is its first line, a line break, and the lines of the rest; a carriage return and
      a line feed together are one break. */
  lemma LinesMean(line: string, c: char, rest: string)
    requires NoBreak(line) && IsBreak(c)
    ensures !(c == '\r' && rest != "" && rest[0] == '\n') ==> SplitLines(line + [c] + rest) == [line] + SplitLines(rest)
    ensures c == '\r' ==> SplitLines(line + [c] + (['\n'] + rest)) == [line] + SplitLines(rest)
    ensures SplitLines(line) == if line == "" then [] else [line]
  {
    hide IsBreak, UntilBreak, NoBreak;
    BreakAt(line, c, rest);
    BreakAt(line, c, ['\n'] + rest);
    var s, t := line + [c] + rest, line + [c] + (['\n'] + rest);
    assert s[..|line|] == line && s[|line|] == c && s[|line| + 1..] == rest;
    assert t[..|line|] == line && t[|line|] == c && t[|line| + 1] == '\n' && t[|line| + 2..] == rest;
  }

  /** `acl_safe`: false where the source raises. */
  method AclSafe(raw: string, users: set<nat>, groups: set<nat>) returns (ok: bool)
    ensures ok <==> forall line <- SplitLines(raw) :: LineSafe(line, users, groups)
  {
    var lines := SplitLines(raw);
    for i := 0 to |lines|
      invariant forall line <- lines[..i] :: LineSafe(line, users, groups)
    {
      var line := Stripped(lines[i]);
      assert lines[..i + 1] == lines[..i] + [lines[i]] && lines[i] in lines;
      if line == "" {
        continue;
      }
      if DEFAULT <= line {
        line := line[|DEFAULT|..];
      }
      assert line == Content(lines[i]);
      var fields := Fields(line);
      if |fields| != 3 || !IsKind(fields[0]) || !IsRights(fields[2]) {
        assert !LineSafe(lines[i], users, groups);
        return false;
      }
      var kind, principal, rights := fields[0], fields[1], fields[2];
      if kind == "other" {
        if rights != "---" {
          return false;
        }
      } else if principal != "" && rights != "---" {
        if !IsDecimal(principal) || Value(principal) !in (if kind == "user" then users else groups) {
          return false;
        }
      }
    }
    assert lines[..|lines|] == lines;
    return true;
  }

  // ---- Text and bytes agree ----

  predicate Plain(s: string) {
    s != "" && forall c <- s :: !IsSpace(c) && c != '#'
  }

  lemma NoBreakIn(s: string)
    requires Plain(s)
    ensures UntilBreak(s) == |s| && forall i :: 0 <= i < |s| ==> !IsBreak(s[i])
  {
    assert forall i :: 0 <= i < |s| ==> s[i] in s;
  }

  lemma {:induction false} SplitJoined(lines: seq<string>)
    requires forall line <- lines :: Plain(line)
    ensures SplitLines(Join(lines, '\n')) == lines
  {
    if lines == [] {
    } else if |lines| == 1 {
      assert lines[0] in lines;
      NoBreakIn(lines[0]);
    } else {
      var s, n := Join(lines, '\n'), |lines[0]|;
      assert lines[0] in lines;
      NoBreakIn(lines[0]);
      assert forall i :: 0 <= i < n ==> s[i] == lines[0][i];
      assert s[n] == '\n' && s[..n] == lines[0] && s[n + 1..] == Join(lines[1..], '\n');
      assert UntilBreak(s) == n;
      SplitJoined(lines[1..]);
    }
  }

  lemma FieldsOfThree(a: string, b: string, c: string)
    requires ':' !in a && ':' !in b && ':' !in c
    ensures Fields(a + ":" + b + ":" + c) == [a, b, c]
  {
    FirstPart(a, b + ":" + c, ':');
    assert a + ":" + (b + ":" + c) == a + ":" + b + ":" + c;
    FirstPart(b, c, ':');
    assert Until(c, ':') == |c|;
  }

  predicate Ordinary(s: string) {
    forall c <- s :: 'a' <= c <= 'z' || '0' <= c <= ':' || c == '-'
  }

  lemma LineIsOrdinary(prefix: string, e: Entry)
    requires WellFormed(e) && prefix in {"", DEFAULT}
    ensures Ordinary(Line(prefix, e))
  {
    assert Ordinary(prefix) && Ordinary(Word(e.kind)) && Ordinary(Principal(e)) && Ordinary(Rights(e.rights));
    hide Rights, Principal, Word;
  }

  lemma OrdinaryIsPlain(s: string)
    requires Ordinary(s) && s != ""
    ensures Plain(s) && Until(s, '#') == |s| && Strip(s[..Until(s, '#')]) == s
  {
    assert forall i :: 0 <= i < |s| ==> s[i] in s;
    assert s[..|s|] == s;
    assert s[0] in s && s[|s| - 1] in s;
  }

  lemma LineShape(prefix: string, e: Entry)
    requires WellFormed(e) && prefix in {"", DEFAULT}
    ensures Plain(Line(prefix, e)) && Content(Line(prefix, e)) == Bare(e)
    ensures Stripped(Line(prefix, e)) == Line(prefix, e) != ""
  {
    var line := Line(prefix, e);
    LineIsOrdinary(prefix, e);
    OrdinaryIsPlain(line);
    if prefix == "" {
      assert line == Bare(e) && line[0] == Word(e.kind)[0] != DEFAULT[0];
    } else {
      assert line[|DEFAULT|..] == Bare(e);
    }
  }

  /** A rendered entry passes the text check exactly when the entry is bounded. */
  lemma LineSafeExact(prefix: string, e: Entry, users: set<nat>, groups: set<nat>)
    requires WellFormed(e) && prefix in {"", DEFAULT}
    ensures LineSafe(Line(prefix, e), users, groups) <==> Bounded(e, users, groups)
  {
    hide Line, Stripped, Content, Fields, FieldsSafe, Bounded, Word, Principal, Rights, LineSafe;
    LineFields(prefix, e);
    LineByFields(Line(prefix, e), [Word(e.kind), Principal(e), Rights(e.rights)], users, groups);
    EntryFieldsSafe(e, users, groups);
  }

  lemma LineFields(prefix: string, e: Entry)
    requires WellFormed(e) && prefix in {"", DEFAULT}
    ensures Stripped(Line(prefix, e)) != ""
    ensures Fields(Content(Line(prefix, e))) == [Word(e.kind), Principal(e), Rights(e.rights)]
  {
    hide Line, Stripped, Content, Fields, Word, Principal, Rights;
    LineShape(prefix, e);
    NoColon(e);
    FieldsOfThree(Word(e.kind), Principal(e), Rights(e.rights));
  }

  lemma NoColon(e: Entry)
    requires WellFormed(e)
    ensures ':' !in Word(e.kind) && ':' !in Principal(e) && ':' !in Rights(e.rights)
  {
  }

  lemma LineByFields(line: string, fields: seq<string>, users: set<nat>, groups: set<nat>)
    requires Stripped(line) != "" && Fields(Content(line)) == fields
    ensures LineSafe(line, users, groups) <==> FieldsSafe(fields, users, groups)
  {
  }

  lemma EntryFieldsSafe(e: Entry, users: set<nat>, groups: set<nat>)
    requires WellFormed(e)
    ensures FieldsSafe([Word(e.kind), Principal(e), Rights(e.rights)], users, groups) <==> Bounded(e, users, groups)
  {
    var principal, rights := Principal(e), Rights(e.rights);
    if e.principal.Some? {
      DecimalRoundTrip(e.principal.value);
    }
    hide Rights, Decimal, Value;
  }

  /** For every pair of attribute values: the text check of the decoded text accepts
      exactly the values whose entries are all bounded. */
  lemma TextCheckIsByteCheck(a: seq<Entry>, d: seq<Entry>, users: set<nat>, groups: set<nat>)
    requires AllWellFormed(a) && AllWellFormed(d)
    ensures (forall line <- SplitLines(Join(LinesOf("", a) + LinesOf(DEFAULT, d), '\n')) ::
               LineSafe(line, users, groups))
            <==> forall e <- a + d :: Bounded(e, users, groups)
  {
    var lines := LinesOf("", a) + LinesOf(DEFAULT, d);
    forall i | 0 <= i < |lines|
      ensures Plain(lines[i]) && (LineSafe(lines[i], users, groups) <==> Bounded((a + d)[i], users, groups))
    {
      var prefix := if i < |a| then "" else DEFAULT;
      assert lines[i] == Line(prefix, (a + d)[i]);
      LineShape(prefix, (a + d)[i]);
      LineSafeExact(prefix, (a + d)[i], users, groups);
    }
    hide LineSafe, Bounded, LinesOf, Plain, Join, SplitLines;
    SplitJoined(lines);
  }

  /** Both attribute values are well formed and every entry is bounded. */
  predicate Accepts(access: Option<seq<byte>>, inherited: Option<seq<byte>>, users: set<nat>, groups: set<nat>) {
    && EntriesOf(access).Some? && EntriesOf(inherited).Some?
    && forall e <- EntriesOf(access).value + EntriesOf(inherited).value :: Bounded(e, users, groups)
  }

  /** `acl_safe(native_acl(...))`: the text check of the decoded text is a direct
      check of the bytes. */
  method Judge(access: Option<seq<byte>>, inherited: Option<seq<byte>>, users: set<nat>, groups: set<nat>)
      returns (ok: bool)
    ensures ok <==> Accepts(access, inherited, users, groups)
  {
    var text := NativeAcl(access, inherited);
    if text.None? {
      return false;
    }
    TextCheckIsByteCheck(EntriesOf(access).value, EntriesOf(inherited).value, users, groups);
    ok := AclSafe(text.value, users, groups);
  }
}
