/** The Debian `ar` archive reader, when its loop ends, and the archives it reads back exactly. */
module Archive {
  // A byte is a char below 256; the fields the reader looks at are text.
  const MAGIC := "!<arch>\n"
  const HEADER := 60

  /** `NeverEnds` is no error of the source: its loop then runs forever. */
  datatype Error = NoHeader | MalformedSize | Truncated | NeverEnds

  datatype Result = Ok(members: map<string, string>) | Err(error: Error)

  // ---------------------------------------------------------------- text fields

  predicate IsSpace(c: char) {
    c == ' ' || c == '\t' || c == '\n' || c == '\r' || c as int == 11 || c as int == 12 || 28 <= c as int <= 31
  }

  function StripLeft(s: string): string {
    if s != "" && IsSpace(s[0]) then StripLeft(s[1..]) else s
  }

  function StripRight(s: string): string {
    if s != "" && IsSpace(s[|s| - 1]) then StripRight(s[..|s| - 1]) else s
  }

  function Strip(s: string): string { StripRight(StripLeft(s)) }

  function StripSlashes(s: string): string {
    if s != "" && s[|s| - 1] == '/' then StripSlashes(s[..|s| - 1]) else s
  }

  predicate IsDigit(c: char) { '0' <= c <= '9' }

  function DigitValue(c: char): nat
    requires IsDigit(c)
  {
    c as int - '0' as int
  }

  predicate AllDigits(s: string) { s != "" && forall c :: c in s ==> IsDigit(c) }

  function Value(s: string): nat
    requires forall c :: c in s ==> IsDigit(c)
  {
    if s == "" then 0
    else
      assert s[|s| - 1] in s;
      Value(s[..|s| - 1]) * 10 + DigitValue(s[|s| - 1])
  }

  datatype Size = NotANumber | Number(size: int)

  /** The decimal number of a stripped field, with an optional sign. */
  function ParseSize(s: string): Size {
    var digits := if s != "" && (s[0] == '+' || s[0] == '-') then s[1..] else s;
    if !AllDigits(digits) then NotANumber
    else
      var n: int := Value(digits);
      Number(if s[0] == '-' then -n else n)
  }

  /** Bytes as text: one outside ASCII is replaced. */
  function Decoded(s: string): string {
    seq(|s|, i requires 0 <= i < |s| => if s[i] as int < 128 then s[i] else '\U{FFFD}')
  }

  // ---------------------------------------------------------------- the loop, turn by turn

  /** A slice with bounds that may be negative, counted from the end, or past it. */
  function Slice(data: string, from: int, to: int): string {
    var lo := if from < 0 then (if |data| + from < 0 then 0 else |data| + from) else if from > |data| then |data| else from;
    var hi := if to < 0 then (if |data| + to < 0 then 0 else |data| + to) else if to > |data| then |data| else to;
    if lo < hi then data[lo..hi] else ""
  }

  datatype Loop = Running(offset: int, members: map<string, string>) | Left(result: Result)

  function SizeField(header: string): Size { ParseSize(Strip(Slice(header, 48, 58))) }

  function NameField(header: string): string { StripSlashes(Strip(Decoded(Slice(header, 0, 16)))) }

  /** One turn, from any offset the loop may come to: a size may be negative, and an offset too. */
  function Turned(data: string, l: Loop): Loop {
    if l.Left? then l
    else if l.offset + HEADER > |data| then Left(Ok(l.members))
    else
      var header := Slice(data, l.offset, l.offset + HEADER);
      var size := SizeField(header);
      var start := l.offset + HEADER;
      if size.NotANumber? then Left(Err(MalformedSize))
      else if start + size.size > |data| then Left(Err(Truncated))
      else Running(start + size.size + size.size % 2, l.members[NameField(header) := Slice(data, start, start + size.size)])
  }

  function Turns(data: string, l: Loop, n: nat): Loop {
    if n == 0 then l else Turned(data, Turns(data, l, n - 1))
  }

  const FIRST: Loop := Running(|MAGIC|, map[])

  predicate HasMagic(data: string) { |MAGIC| <= |data| && data[..|MAGIC|] == MAGIC }

  /** What the reader returns: what its loop is left with, if it is left after any number of turns. */
  ghost function ReadArchive(data: string): Result {
    if !HasMagic(data) then Err(NoHeader)
    else if n: nat :| Turns(data, FIRST, n).Left? then Turns(data, FIRST, n).result
    else Err(NeverEnds)
  }

  lemma {:induction false} LeftStays(data: string, l: Loop, n: nat, m: nat)
    requires n <= m && Turns(data, l, n).Left?
    ensures Turns(data, l, m) == Turns(data, l, n)
  {
    if n < m {
      LeftStays(data, l, n, m - 1);
      hide Slice, SizeField, NameField;
    }
  }

  lemma {:induction false} RunningBefore(data: string, l: Loop, n: nat, m: nat)
    requires n <= m && Turns(data, l, m).Running?
    ensures Turns(data, l, n).Running?
  {
    if Turns(data, l, n).Left? {
      LeftStays(data, l, n, m);
    }
  }

  lemma LeftIsOutcome(data: string, n: nat)
    requires HasMagic(data) && Turns(data, FIRST, n).Left?
    ensures ReadArchive(data) == Turns(data, FIRST, n).result
  {
    var m: nat :| Turns(data, FIRST, m).Left? && ReadArchive(data) == Turns(data, FIRST, m).result;
    LeftStays(data, FIRST, if n <= m then n else m, if n <= m then m else n);
    hide Turned;
  }

  // ---------------------------------------------------------------- when the loop ends

  predicate SizeIs(data: string, offset: int, size: int) {
    offset + HEADER <= |data| && SizeField(Slice(data, offset, offset + HEADER)) == Number(size)
  }

  /** One turn at a member whose size is a number and fits: the loop advances if and only if the size is
      above -60, stays where it is for -60 and -61, and else goes back. */
  lemma AdvancesExactlyWhen(data: string, l: Loop, size: int)
    requires l.Running? && SizeIs(data, l.offset, size) && l.offset + HEADER + size <= |data|
    ensures var n := Turned(data, l);
            && n.Running? && (n.offset > l.offset <==> size > -HEADER)
            && (n.offset == l.offset <==> size == -HEADER || size == -HEADER - 1)
  {
    hide SizeField, NameField, Slice;
  }

  // Where a turn leads does not depend on the members read so far.
  lemma SameTurn(data: string, a: Loop, b: Loop)
    requires a.Running? && b.Running? && a.offset == b.offset
    ensures Turned(data, a).Running? == Turned(data, b).Running?
    ensures Turned(data, a).Running? ==> Turned(data, a).offset == Turned(data, b).offset
  {
    hide SizeField, NameField, Slice;
  }

  // From two turns at one offset the loop goes on alike.
  lemma {:induction false} SameTurns(data: string, l: Loop, i: nat, j: nat, k: nat)
    requires Turns(data, l, i).Running? && Turns(data, l, j).Running? && Turns(data, l, i).offset == Turns(data, l, j).offset
    ensures Turns(data, l, i + k).Running? == Turns(data, l, j + k).Running?
    ensures Turns(data, l, i + k).Running? ==> Turns(data, l, i + k).offset == Turns(data, l, j + k).offset
  {
    hide Turned;
    if k > 0 {
      SameTurns(data, l, i, j, k - 1);
      if Turns(data, l, i + k - 1).Running? {
        SameTurn(data, Turns(data, l, i + k - 1), Turns(data, l, j + k - 1));
      } else {
        LeftTurn(data, Turns(data, l, i + k - 1));
        LeftTurn(data, Turns(data, l, j + k - 1));
      }
    }
  }

  lemma LeftTurn(data: string, l: Loop)
    ensures l.Left? ==> Turned(data, l) == l
  {
    hide SizeField, NameField, Slice;
  }

  /** Turns `i` and `j` begin at the same offset. */
  predicate MeetsAgain(data: string, l: Loop, i: nat, j: nat) {
    i < j && Turns(data, l, i).Running? && Turns(data, l, j).Running? && Turns(data, l, i).offset == Turns(data, l, j).offset
  }

  lemma {:induction false} MeetingNeverEnds(data: string, l: Loop, i: nat, j: nat, n: nat)
    requires MeetsAgain(data, l, i, j)
    ensures Turns(data, l, n).Running?
    decreases n
  {
    hide Turns;
    if n <= j {
      RunningBefore(data, l, n, j);
    } else {
      MeetingNeverEnds(data, l, i, j, n - (j - i));
      SameTurns(data, l, i, j, n - j);
    }
  }

  // Far before the data there is no header.
  lemma FarOffsets(data: string, l: Loop)
    requires l.Running?
    ensures l.offset <= -|data| - HEADER ==> Turned(data, l).Left?
  {
    if l.offset <= -|data| - HEADER {
      assert Slice(data, l.offset, l.offset + HEADER) == "";
      assert SizeField("").NotANumber?;
      hide SizeField, NameField, Slice;
    }
  }

  lemma MeetingRuns(data: string, l: Loop, n: nat)
    ensures (exists i, j :: MeetsAgain(data, l, i, j)) ==> Turns(data, l, n).Running?
  {
    if i, j :| MeetsAgain(data, l, i, j) {
      MeetingNeverEnds(data, l, i, j, n);
    }
  }

  // The offsets from which a turn can go on.
  lemma ReachableOffsets(data: string, l: Loop)
    requires l.Running? && Turned(data, l).Running?
    ensures -|data| - HEADER < l.offset <= |data| - HEADER
  {
    hide SizeField, NameField, Slice;
    FarOffsets(data, l);
  }

  lemma {:induction false} DistinctSize(s: seq<int>)
    requires forall i, j :: 0 <= i < j < |s| ==> s[i] != s[j]
    ensures |set x | x in s| == |s|
  {
    if s != [] {
      var front, last := s[..|s| - 1], s[|s| - 1];
      DistinctSize(front);
      assert s == front + [last];
      assert (set x | x in s) == (set x | x in front) + {last};
    }
  }

  function Range(low: int, n: nat): set<int> {
    if n == 0 then {} else Range(low, n - 1) + {low + n - 1}
  }

  lemma {:induction false} RangeSize(low: int, n: nat)
    ensures |Range(low, n)| == n && forall x :: x in Range(low, n) <==> low <= x < low + n
  {
    if n > 0 {
      RangeSize(low, n - 1);
    }
  }

  lemma SubsetSize(a: set<int>, b: set<int>)
    requires a <= b
    ensures |a| <= |b|
  {
    assert b == a + (b - a);
  }

  lemma DistinctFits(s: seq<int>, low: int, n: nat)
    requires forall x :: x in s ==> low <= x < low + n
    ensures (forall i, j :: 0 <= i < j < |s| ==> s[i] != s[j]) ==> |s| <= n
  {
    if forall i, j :: 0 <= i < j < |s| ==> s[i] != s[j] {
      DistinctSize(s);
      RangeSize(low, n);
      SubsetSize((set x | x in s), Range(low, n));
    }
  }

  // Of more integers than a range holds, two are equal.
  lemma Pigeonhole(s: seq<int>, low: int, n: nat) returns (i: nat, j: nat)
    requires |s| > n && forall x :: x in s ==> low <= x < low + n
    ensures i < j < |s| && s[i] == s[j]
  {
    DistinctFits(s, low, n);
    i, j :| 0 <= i < j < |s| && s[i] == s[j];
  }

  /** As many turns as there are offsets to go on from, and one more. */
  function Limit(data: string): nat { 2 * |data| + 1 }

  lemma LongRunMeets(data: string, l: Loop) returns (i: nat, j: nat)
    requires Turns(data, l, Limit(data)).Running?
    ensures MeetsAgain(data, l, i, j)
  {
    var n := Limit(data);
    forall k: nat | k < n
      ensures Turns(data, l, k).Running? && -|data| - HEADER < Turns(data, l, k).offset <= |data| - HEADER
    {
      RunningBefore(data, l, k, n);
      RunningBefore(data, l, k + 1, n);
      ReachableOffsets(data, Turns(data, l, k));
      hide Turned;
    }
    var offsets := seq(n, k requires 0 <= k < n => Turns(data, l, k).offset);
    i, j := Pigeonhole(offsets, -|data| - HEADER + 1, 2 * |data|);
    assert offsets[i] == Turns(data, l, i).offset && offsets[j] == Turns(data, l, j).offset;
  }

  /** When reading ends, exactly: the loop runs forever if and only if it comes to some offset twice, and
      this shows within 2n + 1 turns of n bytes. */
  lemma NeverEndsExactlyWhen(data: string)
    requires HasMagic(data)
    ensures ReadArchive(data) == Err(NeverEnds) <==> exists i, j :: MeetsAgain(data, FIRST, i, j)
    ensures ReadArchive(data) == Err(NeverEnds) <==> Turns(data, FIRST, Limit(data)).Running?
  {
    hide Turned, Limit;
    MeetingRuns(data, FIRST, Limit(data));
    if Turns(data, FIRST, Limit(data)).Left? {
      LeftIsOutcome(data, Limit(data));
      NoSuchError(data, FIRST, Limit(data));
    } else {
      var i, j := LongRunMeets(data, FIRST);
      forall n: nat ensures Turns(data, FIRST, n).Running? {
        MeetingNeverEnds(data, FIRST, i, j, n);
      }
    }
  }

  lemma {:induction false} NoSuchError(data: string, l: Loop, n: nat)
    requires l.Running?
    ensures Turns(data, l, n).Left? ==> Turns(data, l, n).result != Err(NeverEnds)
  {
    if n > 0 {
      NoSuchError(data, l, n - 1);
      hide SizeField, NameField, Slice;
    }
  }

  /** At a member of size -60 or -61 the loop is at the same member after any number of turns. */
  lemma {:induction false} StaysForever(data: string, l: Loop, size: int, n: nat)
    requires l.Running? && SizeIs(data, l.offset, size) && (size == -HEADER || size == -HEADER - 1)
    ensures Turns(data, l, n).Running? && Turns(data, l, n).offset == l.offset
  {
    if n > 0 {
      StaysForever(data, l, size, n - 1);
      AdvancesExactlyWhen(data, Turns(data, l, n - 1), size);
      hide Turned, SizeIs;
    }
  }

  /** Reading that comes to such a member, in particular, never ends. */
  lemma StuckNeverEnds(data: string, n: nat, size: int)
    requires HasMagic(data) && Turns(data, FIRST, n).Running?
    requires SizeIs(data, Turns(data, FIRST, n).offset, size) && (size == -HEADER || size == -HEADER - 1)
    ensures ReadArchive(data) == Err(NeverEnds)
  {
    AdvancesExactlyWhen(data, Turns(data, FIRST, n), size);
    hide Turned, SizeIs;
    assert MeetsAgain(data, FIRST, n, n + 1);
    NeverEndsExactlyWhen(data);
  }

  // ---------------------------------------------------------------- the reader

  /** One member: its header's fields, then its content. */
  method ReadMember(data: string, offset: int, members: map<string, string>) returns (l: Loop)
    requires offset + HEADER <= |data|
    ensures l == Turned(data, Running(offset, members))
  {
    hide SizeField, NameField, Slice;
    var header := Slice(data, offset, offset + HEADER);
    var size := SizeField(header);
    if size.NotANumber? {
      return Left(Err(MalformedSize));
    }
    var start := offset + HEADER;
    if start + size.size > |data| {
      return Left(Err(Truncated));
    }
    var content := Slice(data, start, start + size.size);
    return Running(start + size.size + size.size % 2, members[NameField(header) := content]);
  }

  /** `_ar_members`. A loop that never ends is told by its turns, which the source does not count. */
  method ArMembers(data: string) returns (r: Result)
    ensures r == ReadArchive(data)
  {
    if !HasMagic(data) {
      return Err(NoHeader);
    }
    hide HasMagic, ReadArchive, Turned, Turns, Limit;
    var offset, members := |MAGIC|, map[];
    var turns := 0;
    assert Turns(data, FIRST, 0) == FIRST by { FirstTurn(data); }
    while offset + HEADER <= |data|
      invariant turns <= Limit(data) && Turns(data, FIRST, turns) == Running(offset, members)
      decreases Limit(data) - turns
    {
      if turns == Limit(data) {
        NeverEndsExactlyWhen(data);
        return Err(NeverEnds);
      }
      NextIsOutcome(data, turns);
      var l := ReadMember(data, offset, members);
      if l.Left? {
        return l.result;
      }
      offset, members, turns := l.offset, l.members, turns + 1;
    }
    NextIsOutcome(data, turns);
    TurnIs(data, Running(offset, members));
    return Ok(members);
  }

  lemma FirstTurn(data: string)
    ensures Turns(data, FIRST, 0) == FIRST
  {
  }

  lemma NextIsOutcome(data: string, n: nat)
    requires HasMagic(data)
    ensures Turns(data, FIRST, n + 1) == Turned(data, Turns(data, FIRST, n))
    ensures Turns(data, FIRST, n + 1).Left? ==> ReadArchive(data) == Turns(data, FIRST, n + 1).result
  {
    if Turns(data, FIRST, n + 1).Left? {
      LeftIsOutcome(data, n + 1);
    }
    hide ReadArchive, Turned;
  }

  lemma TurnIs(data: string, l: Loop)
    requires l.Running?
    ensures l.offset + HEADER > |data| ==> Turned(data, l) == Left(Ok(l.members))
    ensures l.offset + HEADER <= |data| ==>
              var header, start := Slice(data, l.offset, l.offset + HEADER), l.offset + HEADER;
              var size := SizeField(header);
              Turned(data, l) ==
                if size.NotANumber? then Left(Err(MalformedSize))
                else if start + size.size > |data| then Left(Err(Truncated))
                else Running(start + size.size + size.size % 2,
                             l.members[NameField(header) := Slice(data, start, start + size.size)])
  {
    hide SizeField, NameField, Slice;
  }

  // ---------------------------------------------------------------- printed archives

  /** A member to print: `slash` ends its name as some archivers do, `middle` are the fields between. */
  datatype Member = Member(name: string, slash: bool, middle: string, content: string)

  function Digit(d: nat): char
    requires d < 10
  {
    ('0' as int + d) as char
  }

  function Decimal(n: nat): string {
    if n < 10 then [Digit(n)] else Decimal(n / 10) + [Digit(n % 10)]
  }

  function Spaces(n: nat): string { seq(n, _ => ' ') }

  function Pad(s: string, width: nat): string
    requires |s| <= width
  {
    s + Spaces(width - |s|)
  }

  function FullName(m: Member): string { if m.slash then m.name + "/" else m.name }

  /** A short name that is neither padded nor ended by a slash, and a content that a field can measure. */
  predicate Printable(m: Member) {
    && |FullName(m)| <= 16 && (m.name != "" ==> !IsSpace(m.name[0]))
    && (m.name != "" ==> !IsSpace(m.name[|m.name| - 1]) && m.name[|m.name| - 1] != '/')
    && |m.middle| == 32 && |Decimal(|m.content|)| <= 10
  }

  function ShowHeader(m: Member): string
    requires Printable(m)
  {
    Pad(FullName(m), 16) + m.middle + Pad(Decimal(|m.content|), 10) + "`\n"
  }

  function ShowMember(m: Member): string
    requires Printable(m)
  {
    ShowHeader(m) + m.content + if |m.content| % 2 == 1 then "\n" else ""
  }

  function ShowAll(members: seq<Member>): string
    requires forall m :: m in members ==> Printable(m)
  {
    if members == [] then "" else ShowMember(members[0]) + ShowAll(members[1..])
  }

  function AddAll(found: map<string, string>, members: seq<Member>): map<string, string>
    decreases |members|
  {
    if members == [] then found else AddAll(found[Decoded(members[0].name) := members[0].content], members[1..])
  }

  lemma {:induction false} DecimalValue(n: nat)
    ensures AllDigits(Decimal(n)) && Value(Decimal(n)) == n
  {
    if n >= 10 {
      DecimalValue(n / 10);
      assert Decimal(n)[..|Decimal(n)| - 1] == Decimal(n / 10);
    }
  }

  lemma {:induction false} StripRightSpaces(s: string, n: nat)
    requires s != "" ==> !IsSpace(s[|s| - 1])
    ensures StripRight(s + Spaces(n)) == s
  {
    if n == 0 {
      assert s + Spaces(0) == s;
    } else {
      assert (s + Spaces(n))[..|s| + n - 1] == s + Spaces(n - 1);
      StripRightSpaces(s, n - 1);
    }
  }

  lemma {:induction false} StripLeftSpaces(n: nat)
    ensures StripLeft(Spaces(n)) == ""
  {
    if n > 0 {
      assert Spaces(n)[1..] == Spaces(n - 1);
      StripLeftSpaces(n - 1);
    }
  }

  lemma StripPad(s: string, width: nat)
    requires |s| <= width && (s != "" ==> !IsSpace(s[0]) && !IsSpace(s[|s| - 1]))
    ensures Strip(Pad(s, width)) == s
  {
    StripRightSpaces(s, width - |s|);
    if s == "" {
      assert Pad(s, width) == Spaces(width);
      StripLeftSpaces(width);
    } else {
      assert Pad(s, width)[0] == s[0];
    }
  }

  lemma DecodedPad(s: string, width: nat)
    requires |s| <= width
    ensures Decoded(Pad(s, width)) == Pad(Decoded(s), width)
  {
  }

  lemma NameReadBack(m: Member)
    requires Printable(m)
    ensures StripSlashes(Strip(Decoded(Pad(FullName(m), 16)))) == Decoded(m.name)
  {
    DecodedPad(FullName(m), 16);
    StripPad(Decoded(FullName(m)), 16);
    if m.slash {
      assert Decoded(FullName(m))[..|m.name|] == Decoded(m.name);
    } else {
      assert m.name != "" ==> Decoded(m.name)[|m.name| - 1] != '/';
    }
  }

  /** Decimal sizes are read back as the lengths printed. */
  lemma SizeReadBack(n: nat)
    requires |Decimal(n)| <= 10
    ensures ParseSize(Strip(Pad(Decimal(n), 10))) == Number(n)
  {
    DecimalValue(n);
    var s := Decimal(n);
    assert s[0] in s && s[|s| - 1] in s;
    StripPad(s, 10);
  }

  lemma HeaderFields(m: Member)
    requires Printable(m)
    ensures var h := ShowHeader(m);
            |h| == HEADER && h[..16] == Pad(FullName(m), 16) && h[48..58] == Pad(Decimal(|m.content|), 10)
  {
  }

  // The first member of what is left of the data, and where the next one begins.
  lemma FirstMember(data: string, offset: nat, m: Member, rest: string)
    requires Printable(m) && offset <= |data| && data[offset..] == ShowMember(m) + rest
    ensures var start, size := offset + HEADER, |m.content|;
            && start + size <= |data|
            && data[offset..offset + 16] == Pad(FullName(m), 16)
            && data[offset + 48..offset + 58] == Pad(Decimal(size), 10)
            && data[start..start + size] == m.content
            && start + size + size % 2 <= |data| && data[start + size + size % 2..] == rest
  {
    HeaderFields(m);
    var tail := data[offset..];
    var start, size := offset + HEADER, |m.content|;
    var h, pad := ShowHeader(m), if size % 2 == 1 then "\n" else "";
    hide ShowHeader, Pad, Decimal, FullName;
    assert tail == h + m.content + pad + rest;
    assert data[offset..offset + 16] == tail[..16] == h[..16];
    assert data[offset + 48..offset + 58] == tail[48..58] == h[48..58];
    assert data[start..start + size] == tail[HEADER..HEADER + size];
    assert data[start + size + size % 2..] == tail[HEADER + size + size % 2..];
  }

  lemma SliceOfSlice(data: string, offset: nat, length: nat, from: nat, to: nat)
    requires offset + length <= |data| && from <= to <= length
    ensures data[offset..offset + length][from..to] == data[offset + from..offset + to]
  {
    var a, b := data[offset..offset + length][from..to], data[offset + from..offset + to];
    forall k | 0 <= k < to - from ensures a[k] == b[k] {
      assert a[k] == data[offset + from + k];
    }
  }

  lemma {:induction false} TurnsFirst(data: string, l: Loop, n: nat)
    ensures Turns(data, l, n + 1) == Turns(data, Turned(data, l), n)
  {
    hide Turned;
    if n > 0 {
      TurnsFirst(data, l, n - 1);
    } else {
      assert Turns(data, l, 1) == Turned(data, Turns(data, l, 0));
    }
  }

  // The fields and the content of a printed member, as the loop takes them.
  lemma PrintedFields(data: string, offset: nat, m: Member, rest: string)
    requires Printable(m) && offset <= |data| && data[offset..] == ShowMember(m) + rest
    ensures var h, start := Slice(data, offset, offset + HEADER), offset + HEADER;
            && SizeField(h) == Number(|m.content|) && NameField(h) == Decoded(m.name)
            && start + |m.content| <= |data| && Slice(data, start, start + |m.content|) == m.content
  {
    hide Pad, Decimal, Strip, StripSlashes, ParseSize, ShowMember, Decoded, FullName;
    FirstMember(data, offset, m, rest);
    NameReadBack(m);
    SizeReadBack(|m.content|);
    HeaderSlices(data, offset);
    ContentSlice(data, offset + HEADER, |m.content|);
    hide Slice;
  }

  lemma ContentSlice(data: string, start: nat, size: nat)
    requires start + size <= |data|
    ensures Slice(data, start, start + size) == data[start..start + size]
  {
  }

  // The turn at a printed member.
  lemma PrintedTurn(data: string, offset: nat, m: Member, rest: string, found: map<string, string>)
    requires Printable(m) && offset <= |data| && data[offset..] == ShowMember(m) + rest
    ensures var next := offset + HEADER + |m.content| + |m.content| % 2;
            && Turned(data, Running(offset, found)) == Running(next, found[Decoded(m.name) := m.content])
            && next <= |data| && data[next..] == rest
  {
    hide SizeField, NameField, Slice, Turned, ShowMember, Decoded, Printable;
    FirstMember(data, offset, m, rest);
    PrintedFields(data, offset, m, rest);
    TurnIs(data, Running(offset, found));
  }

  lemma HeaderSlices(data: string, offset: nat)
    requires offset + HEADER <= |data|
    ensures var h := Slice(data, offset, offset + HEADER);
            Slice(h, 48, 58) == data[offset + 48..offset + 58] && Slice(h, 0, 16) == data[offset..offset + 16]
  {
    SliceOfSlice(data, offset, HEADER, 0, 16);
    SliceOfSlice(data, offset, HEADER, 48, 58);
  }

  lemma {:induction false} ReadsAll(data: string, offset: nat, members: seq<Member>, found: map<string, string>)
    requires forall m :: m in members ==> Printable(m)
    requires offset <= |data| && data[offset..] == ShowAll(members)
    ensures Turns(data, Running(offset, found), |members| + 1) == Left(Ok(AddAll(found, members)))
    decreases |members|
  {
    hide Turned, ShowMember, Decoded, Slice, SizeField, NameField;
    TurnsFirst(data, Running(offset, found), |members|);
    TurnIs(data, Running(offset, found));
    if members != [] {
      var m := members[0];
      PrintedTurn(data, offset, m, ShowAll(members[1..]), found);
      ReadsAll(data, offset + HEADER + |m.content| + |m.content| % 2, members[1..], found[Decoded(m.name) := m.content]);
    }
  }

  predicate DistinctNames(members: seq<Member>) {
    forall i, j :: 0 <= i < j < |members| ==> Decoded(members[i].name) != Decoded(members[j].name)
  }

  lemma {:induction false} AddAllHolds(found: map<string, string>, members: seq<Member>)
    requires DistinctNames(members) && forall m :: m in members ==> Decoded(m.name) !in found
    ensures var all := AddAll(found, members);
            && (forall m :: m in members ==> Decoded(m.name) in all && all[Decoded(m.name)] == m.content)
            && (forall name :: name in found ==> name in all && all[name] == found[name])
            && (forall name :: name in all ==> name in found || exists m :: m in members && Decoded(m.name) == name)
    decreases |members|
  {
    if members != [] {
      var rest, next := members[1..], found[Decoded(members[0].name) := members[0].content];
      forall m | m in rest ensures Decoded(m.name) !in next {
        var j :| 0 <= j < |rest| && rest[j] == m;
        assert members[j + 1] == m;
      }
      AddAllHolds(next, rest);
      assert members == [members[0]] + rest;
    }
  }

  /** Archive round trip: of every list of members whose names stay distinct as text, the reader returns
      exactly those, with the contents printed, whatever their parity. */
  lemma ReadsBackExactly(members: seq<Member>)
    requires DistinctNames(members) && forall m :: m in members ==> Printable(m)
    ensures var r := ReadArchive(MAGIC + ShowAll(members));
            && r.Ok?
            && (forall m :: m in members ==> Decoded(m.name) in r.members && r.members[Decoded(m.name)] == m.content)
            && (forall name :: name in r.members ==> exists m :: m in members && Decoded(m.name) == name)
  {
    var data := MAGIC + ShowAll(members);
    assert data[..|MAGIC|] == MAGIC && data[|MAGIC|..] == ShowAll(members);
    hide ShowAll, Turns, ReadArchive, Decoded;
    ReadsAll(data, |MAGIC|, members, map[]);
    LeftIsOutcome(data, |members| + 1);
    AddAllHolds(map[], members);
  }

  /** A name of ASCII characters is read back as it is. */
  lemma AsciiName(name: string)
    requires forall c :: c in name ==> c as int < 128
    ensures Decoded(name) == name
  {
    forall i | 0 <= i < |name| ensures Decoded(name)[i] == name[i] {
      assert name[i] in name;
    }
  }

  /** A member that the data ends in is reported, never cut short. */
  lemma CutMemberIsRefused(m: Member, cut: nat)
    requires Printable(m) && cut < |m.content|
    ensures ReadArchive(MAGIC + (ShowHeader(m) + m.content[..cut])) == Err(Truncated)
  {
    var body := ShowHeader(m) + m.content[..cut];
    var data := MAGIC + body;
    HeaderFields(m);
    SizeReadBack(|m.content|);
    HeaderSlices(data, |MAGIC|);
    hide ShowHeader, Pad, Decimal, Strip, StripSlashes, ParseSize, Slice, ReadArchive, Decoded;
    assert data[..|MAGIC|] == MAGIC && |data| == |MAGIC| + HEADER + cut;
    assert data[|MAGIC| + 48..|MAGIC| + 58] == body[48..58] == ShowHeader(m)[48..58];
    TurnIs(data, FIRST);
    assert Turns(data, FIRST, 1) == Turned(data, Turns(data, FIRST, 0));
    LeftIsOutcome(data, 1);
  }

  function MinusSixty(): string { MAGIC + (Pad("a", 16) + Spaces(32) + Pad("-60", 10) + "`\n") }

  /** One header with the size field -60 is enough. */
  lemma MinusSixtyNeverEnds()
    ensures ReadArchive(MinusSixty()) == Err(NeverEnds)
  {
    var data := MinusSixty();
    StripPad("-60", 10);
    HeaderSlices(data, |MAGIC|);
    assert data[|MAGIC| + 48..|MAGIC| + 58] == Pad("-60", 10);
    assert "-60"[1..] == "60" && Value("60") == 60 by {
      assert "60"[..1] == "6" && "6"[..0] == "";
    }
    hide Strip, Pad, Slice, ReadArchive;
    assert SizeIs(data, |MAGIC|, -60);
    assert data[..|MAGIC|] == MAGIC;
    assert Turns(data, FIRST, 0) == FIRST;
    StuckNeverEnds(data, 0, -60);
  }
}
