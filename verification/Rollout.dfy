/**
 * The transcript as evidence (internal/guidancerecord/turn.go): how its records are read in two parts, and
 * what the records say about the turn a resume and a compact run in.
 */
module Rollout {
  import opened Common
  import opened Envelope

  const NEWLINE: Byte := 10

  // ----- the bytes of an append-only transcript

  /** bytes.IndexByte, with the length for "not found". */
  function FirstNewline(b: Bytes): (i: nat)
    ensures i <= |b| && (forall j | 0 <= j < i :: b[j] != NEWLINE) && (i < |b| ==> b[i] == NEWLINE)
  {
    if b == [] || b[0] == NEWLINE then 0 else 1 + FirstNewline(b[1..])
  }

  /** bytes.LastIndexByte plus one: where the whole lines end. */
  function WholeLines(b: Bytes): (n: nat)
    ensures n <= |b| && (forall j | n <= j < |b| :: b[j] != NEWLINE) && (n > 0 ==> b[n - 1] == NEWLINE)
  {
    if b == [] || b[|b| - 1] == NEWLINE then |b| else WholeLines(b[..|b| - 1])
  }

  /** The lines of the bytes that end with a newline, without it. */
  function Lines(b: Bytes): seq<Bytes> {
    var i := FirstNewline(b);
    if i == |b| then [] else [b[..i]] + Lines(b[i + 1..])
  }

  /** The records of the lines that are not empty, or None when one does not parse. */
  function Parsed<R>(lines: seq<Bytes>, parse: Bytes -> Option<R>): Option<seq<R>> {
    if lines == [] then Some([])
    else
      var rest := Parsed(lines[1..], parse);
      if lines[0] == [] then rest
      else
        var first := parse(lines[0]);
        if first.None? || rest.None? then None else Some([first.value] + rest.value)
  }

  function Records<R>(b: Bytes, parse: Bytes -> Option<R>): Option<seq<R>> { Parsed(Lines(b), parse) }

  /** An offset where a record starts, or where the next one will. */
  predicate Boundary(f: Bytes, o: nat) { o <= |f| && (o == 0 || f[o - 1] == NEWLINE) }

  datatype Read<+R> = Read(records: seq<R>, end: nat)

  /** Where a read of the last `limit` bytes begins: at a record, or None when no record starts in them. */
  function TailStart(f: Bytes, limit: nat): Option<nat> {
    if |f| <= limit + 1 then Some(0)
    else
      var start := |f| - limit - 1;
      if f[start] == NEWLINE then Some(start + 1)
      else
        var i := FirstNewline(f[start + 1..]);
        if i == |f| - start - 1 then None else Some(start + 1 + i + 1)
  }

  /** readRollout with a negative offset. */
  function ReadTail<R>(f: Bytes, limit: nat, parse: Bytes -> Option<R>): Option<Read<R>> {
    var base := TailStart(f, limit);
    if base.None? || base.value > |f| then None
    else
      var whole := WholeLines(f[base.value..]);
      var records := Records(f[base.value..][..whole], parse);
      if records.None? then None else Some(Read(records.value, base.value + whole))
  }

  /**
   * readRollout from an offset. The byte before the offset shows whether a record starts there; for the
   * offsets 0 and 1 the window starts at the top of the file and no such byte is looked at.
   */
  function ReadFrom<R>(f: Bytes, from: nat, limit: nat, parse: Bytes -> Option<R>): Option<Read<R>> {
    if from > |f| || |f| - from > limit then None
    else if from > 1 && f[from - 1] != NEWLINE then None
    else
      var data := if from > 1 then f[from..] else f;
      if WholeLines(data) != |data| then None
      else
        var records := Records(data, parse);
        if records.None? then None else Some(Read(records.value, |f|))
  }

  /** Where the records of a read begin, as readRollout moves its window over the file. */
  method Window(f: Bytes, from: int, limit: nat) returns (base: Option<nat>)
    requires from >= 0 ==> from <= |f|
    ensures from < 0 ==> base == TailStart(f, limit)
    ensures from >= 0 ==> base == if from <= 1 then Some(0) else if f[from - 1] == NEWLINE then Some(from) else None
    ensures base.Some? ==> base.value <= |f|
  {
    var start := if |f| > limit + 1 then |f| - limit - 1 else 0;
    if from >= 0 {
      start := if from > 0 then from - 1 else 0;
    }
    if start == 0 {
      return Some(0);
    }
    if f[start] == NEWLINE {
      return Some(start + 1);
    }
    if from >= 0 {
      return None;
    }
    var data := f[start + 1..];
    var i := FirstNewline(data);
    if i == |data| {
      return None;
    }
    return Some(start + 1 + i + 1);
  }

  /** readRollout. */
  method ReadRollout<R>(f: Bytes, from: int, limit: nat, parse: Bytes -> Option<R>) returns (read: Option<Read<R>>)
    ensures read == if from < 0 then ReadTail(f, limit, parse) else ReadFrom(f, from, limit, parse)
  {
    if from >= 0 && (from > |f| || |f| - from > limit) {
      return None;
    }
    var base := Window(f, from, limit);
    if base.None? {
      return None;
    }
    var data := f[base.value..];
    var whole := WholeLines(data);
    if from >= 0 && whole != |data| {
      return None;
    }
    assert from >= 0 ==> data[..whole] == data && data == if from > 1 then f[from..] else f;
    var records := Records(data[..whole], parse);
    if records.None? {
      return None;
    }
    return Some(Read(records.value, base.value + whole));
  }

  lemma LinesFirst(b: Bytes, i: nat)
    requires i < |b| && b[i] == NEWLINE && forall j | 0 <= j < i :: b[j] != NEWLINE
    ensures Lines(b) == [b[..i]] + Lines(b[i + 1..])
  {
    FirstNewlineIs(b, i);
  }

  lemma {:induction false} LinesSplit(a: Bytes, b: Bytes)
    requires a == [] || a[|a| - 1] == NEWLINE
    ensures Lines(a + b) == Lines(a) + Lines(b)
    decreases |a|
  {
    if a == [] {
      assert a + b == b;
    } else {
      var i := FirstLineEnd(a);
      LinesSplit(a[i + 1..], b);
      LinesSplitAt(a, b, i);
    }
  }

  lemma FirstLineEnd(a: Bytes) returns (i: nat)
    requires a != [] && a[|a| - 1] == NEWLINE
    ensures i < |a| && a[i] == NEWLINE && forall j | 0 <= j < i :: a[j] != NEWLINE
    ensures a[i + 1..] == [] || a[i + 1..][|a| - i - 2] == NEWLINE
  {
    i := FirstNewline(a);
  }

  lemma LinesSplitAt(a: Bytes, b: Bytes, i: nat)
    requires i < |a| && a[i] == NEWLINE && forall j | 0 <= j < i :: a[j] != NEWLINE
    requires Lines(a[i + 1..] + b) == Lines(a[i + 1..]) + Lines(b)
    ensures Lines(a + b) == Lines(a) + Lines(b)
  {
    LinesFirst(a, i);
    LinesOfJoined(a, b, i);
    Regroup(a[..i], Lines(a[i + 1..]), Lines(b));
  }

  lemma LinesOfJoined(a: Bytes, b: Bytes, i: nat)
    requires i < |a| && a[i] == NEWLINE && forall j | 0 <= j < i :: a[j] != NEWLINE
    ensures Lines(a + b) == [a[..i]] + Lines(a[i + 1..] + b)
  {
    LinesFirst(a + b, i);
    assert (a + b)[..i] == a[..i] && (a + b)[i + 1..] == a[i + 1..] + b;
  }

  lemma FirstNewlineIs(b: Bytes, i: nat)
    requires i < |b| && b[i] == NEWLINE && forall j | 0 <= j < i :: b[j] != NEWLINE
    ensures FirstNewline(b) == i
  {
  }

  lemma {:induction false} ParsedSplit<R>(a: seq<Bytes>, b: seq<Bytes>, parse: Bytes -> Option<R>)
    ensures Parsed(a + b, parse).Some? <==> Parsed(a, parse).Some? && Parsed(b, parse).Some?
    ensures Parsed(a + b, parse).Some? ==> Parsed(a + b, parse).value == Parsed(a, parse).value + Parsed(b, parse).value
  {
    if a == [] {
      assert a + b == b;
    } else {
      assert (a + b)[1..] == a[1..] + b;
      ParsedSplit(a[1..], b, parse);
    }
  }

  /** A tail read gives exactly the records between two boundaries, the second being the last in the file. */
  lemma TailReadsWholeRecords<R>(f: Bytes, limit: nat, parse: Bytes -> Option<R>) returns (base: nat)
    requires ReadTail(f, limit, parse).Some?
    ensures var r := ReadTail(f, limit, parse).value;
      && Boundary(f, base) && Boundary(f, r.end) && base <= r.end
      && (forall j | r.end <= j < |f| :: f[j] != NEWLINE)
      && Records(f[base..r.end], parse) == Some(r.records)
  {
    base := TailStart(f, limit).value;
    var whole := WholeLines(f[base..]);
    assert f[base..][..whole] == f[base..base + whole];
    assert forall j | base <= j < |f| :: f[j] == f[base..][j - base];
    if whole > 0 {
      assert f[base..][whole - 1] == f[base + whole - 1];
    }
    TailStartsRecord(f, limit);
  }

  lemma TailStartsRecord(f: Bytes, limit: nat)
    requires TailStart(f, limit).Some?
    ensures Boundary(f, TailStart(f, limit).value)
  {
    if |f| > limit + 1 {
      var start := |f| - limit - 1;
      var i := FirstNewline(f[start + 1..]);
      if i < |f| - start - 1 {
        assert f[start + 1..][i] == f[start + 1 + i];
      }
    }
  }

  /** The first place a tail read may begin at. */
  function TailFloor(f: Bytes, limit: nat): nat { if |f| <= limit + 1 then 0 else |f| - limit }

  /** A tail read begins at the first record that starts within the limit; there is none exactly when no record does. */
  lemma TailStartsLeast(f: Bytes, limit: nat)
    ensures TailStart(f, limit).None? <==> forall o | TailFloor(f, limit) <= o <= |f| :: !Boundary(f, o)
    ensures TailStart(f, limit).Some? ==>
              var base := TailStart(f, limit).value;
              && TailFloor(f, limit) <= base && Boundary(f, base)
              && forall o | TailFloor(f, limit) <= o < base :: !Boundary(f, o)
  {
    if |f| <= limit + 1 {
      assert Boundary(f, 0);
    } else {
      var start := |f| - limit - 1;
      var data := f[start + 1..];
      var i := FirstNewline(data);
      assert forall j | 0 <= j < |data| :: data[j] == f[start + 1 + j];
      if f[start] == NEWLINE {
        assert Boundary(f, start + 1);
      } else {
        forall o | start + 1 <= o <= |f| && o <= start + 1 + i ensures !Boundary(f, o) {
          assert o > start + 1 ==> data[o - start - 2] == f[o - 1];
        }
        if i < |data| {
          assert Boundary(f, start + 1 + i + 1);
        }
      }
    }
  }

  /** A tail read gives all the records between the first and the last boundary within the limit, if they parse. */
  lemma TailReadExact<R>(f: Bytes, limit: nat, parse: Bytes -> Option<R>, base: nat, end: nat)
    requires TailFloor(f, limit) <= base <= end && Boundary(f, base) && Boundary(f, end)
    requires forall o | TailFloor(f, limit) <= o < base :: !Boundary(f, o)
    requires forall o | end < o <= |f| :: !Boundary(f, o)
    ensures ReadTail(f, limit, parse) ==
            if Records(f[base..end], parse).None? then None else Some(Read(Records(f[base..end], parse).value, end))
  {
    TailStartsAt(f, limit, base);
    WholeLinesEnd(f, base, end);
    assert f[base..][..end - base] == f[base..end];
  }

  lemma TailStartsAt(f: Bytes, limit: nat, base: nat)
    requires TailFloor(f, limit) <= base && Boundary(f, base) && forall o | TailFloor(f, limit) <= o < base :: !Boundary(f, o)
    ensures TailStart(f, limit) == Some(base)
  {
    TailStartsLeast(f, limit);
  }

  /** The whole lines from a boundary end at the last one. */
  lemma WholeLinesEnd(f: Bytes, base: nat, end: nat)
    requires base <= end && Boundary(f, base) && Boundary(f, end) && forall o | end < o <= |f| :: !Boundary(f, o)
    ensures base + WholeLines(f[base..]) == end
  {
    var data := f[base..];
    var whole := WholeLines(data);
    if whole > 0 {
      assert data[whole - 1] == f[base + whole - 1];
    }
    assert Boundary(f, base + whole);
    if base < end {
      assert data[end - 1 - base] == f[end - 1] == NEWLINE;
    }
  }

  /** From a boundary the records read are exactly those after it, the offset 1 included. */
  lemma ReadFromBoundary<R>(g: Bytes, from: nat, limit: nat, parse: Bytes -> Option<R>)
    requires Boundary(g, from)
    ensures ReadFrom(g, from, limit, parse) ==
            if |g| - from > limit || !Boundary(g, |g|) || Records(g[from..], parse).None? then None
            else Some(Read(Records(g[from..], parse).value, |g|))
  {
    if from < |g| {
      assert g[from..][|g| - from - 1] == g[|g| - 1];
    }
    assert g[0..] == g;
    if from == 1 {
      assert FirstNewline(g) == 0 && g[..0] == [];
      assert Lines(g) == [[]] + Lines(g[1..]);
      assert Lines(g)[1..] == Lines(g[1..]);
    }
  }

  /**
   * A read refuses every offset where no record starts, except the offset 1, which it takes for the top of
   * the file.
   */
  lemma ReadFromRefuses<R>(g: Bytes, from: nat, limit: nat, parse: Bytes -> Option<R>)
    requires !Boundary(g, from)
    ensures ReadFrom(g, from, limit, parse) ==
            if from == 1 && 1 <= |g| <= limit + 1 && Boundary(g, |g|) && Records(g, parse).Some?
            then Some(Read(Records(g, parse).value, |g|)) else None
  {
  }

  /** So the offset 1 can repeat a record: here the one record of the file is read although it starts before the offset. */
  lemma OffsetOneRereads<R>(parse: Bytes -> Option<R>, r: R)
    requires parse([65]) == Some(r)
    ensures var g := [65, NEWLINE];
      !Boundary(g, 1) && ReadFrom(g, 1, 1, parse) == Some(Read([r], 2))
  {
    var g: Bytes := [65, NEWLINE];
    assert FirstNewline(g) == 1 && g[..1] == [65] && g[2..] == [];
    assert Lines(g) == [[65]] && Lines(g)[1..] == [];
    assert Parsed(Lines(g)[1..], parse) == Some([]) && [r] + [] == [r];
    assert Parsed(Lines(g), parse) == Some([r]);
    ReadFromRefuses(g, 1, 1, parse);
  }

  /** Records read up to a boundary and from it are the records read across it. */
  lemma RecordsJoin<R>(g: Bytes, base: nat, end: nat, parse: Bytes -> Option<R>)
    requires base <= end && Boundary(g, base) && Boundary(g, end)
    requires Records(g[base..end], parse).Some? && Records(g[end..], parse).Some?
    ensures Records(g[base..], parse) == Some(Records(g[base..end], parse).value + Records(g[end..], parse).value)
  {
    assert g[base..] == g[base..end] + g[end..];
    if base < end {
      assert g[base..end][end - base - 1] == g[end - 1];
    }
    LinesSplit(g[base..end], g[end..]);
    ParsedSplit(Lines(g[base..end]), Lines(g[end..]), parse);
  }

  /**
   * Offsets compose: after a tail read of a transcript that then only grew, a read from the offset it gave
   * either fails or gives exactly the whole records after it, so that the two reads together are one read of
   * everything from the first one's start, with no record lost, split or repeated.
   */
  lemma OffsetsCompose<R>(f: Bytes, limit: nat, g: Bytes, limit': nat, parse: Bytes -> Option<R>) returns (base: nat)
    requires f <= g && ReadTail(f, limit, parse).Some?
    requires ReadFrom(g, ReadTail(f, limit, parse).value.end, limit', parse).Some?
    ensures var first := ReadTail(f, limit, parse).value; var second := ReadFrom(g, first.end, limit', parse).value;
      && second.end == |g|
      && Boundary(g, base) && Boundary(g, first.end) && base <= first.end
      && Records(g[base..first.end], parse) == Some(first.records)
      && Records(g[first.end..], parse) == Some(second.records)
      && Records(g[base..], parse) == Some(first.records + second.records)
  {
    var end := ReadTail(f, limit, parse).value.end;
    base := TailReadsWholeRecords(f, limit, parse);
    assert g[base..end] == f[base..end];
    ReadFromBoundary(g, end, limit', parse);
    RecordsJoin(g, base, end, parse);
  }

  // ----- what the records say

  datatype Type = EventMsg | ResponseItem | Compacted | OtherType
  datatype Payload = ContextCompacted | ItemCompleted | UserMessage | TaskStarted | TaskComplete | TurnAborted | OtherPayload
  datatype ItemType = ContextCompaction | UserMessageItem | OtherItem

  /** rolloutRecord; `turn` is "" when the record names none. */
  datatype Record = Record(kind: Type, payload: Payload, turn: string, userRole: bool, rawItem: ItemType) {
    function Item(): ItemType { if kind.EventMsg? then rawItem else OtherItem }

    predicate IsCompaction() {
      kind.Compacted? || (kind.EventMsg? && (payload.ContextCompacted? || Item().ContextCompaction?))
    }

    /** The event of a finished compaction, which names its turn. */
    predicate FinishesCompaction() { kind.EventMsg? && payload.ItemCompleted? && Item().ContextCompaction? }

    predicate IsPrompt() { kind.EventMsg? && (payload.UserMessage? || Item().UserMessageItem?) }

    predicate IsEdge() { kind.EventMsg? && (payload.TaskStarted? || payload.TaskComplete? || payload.TurnAborted?) }

    predicate IsUserItem() { kind.ResponseItem? && userRole }
  }

  function TurnStep(turn: string, r: Record): string {
    if r.FinishesCompaction() && r.turn != "" then r.turn
    else if r.IsCompaction() || r.IsPrompt() || (r.IsEdge() && !(r.payload.TaskStarted? && r.turn == turn))
            || (r.turn != "" && r.turn != turn)
    then ""
    else turn
  }

  function TurnAfter(turn: string, records: seq<Record>): string
    decreases records
  {
    if records == [] then turn else TurnAfter(TurnStep(turn, records[0]), records[1..])
  }

  /** The loop of resumeTurn. */
  method ResumeTurn(records: seq<Record>) returns (turn: string)
    ensures turn == TurnAfter("", records)
  {
    turn := "";
    for i := 0 to |records|
      invariant TurnAfter("", records) == TurnAfter(turn, records[i..])
    {
      assert records[i..][1..] == records[i + 1..];
      var r := records[i];
      if r.FinishesCompaction() && r.turn != "" {
        turn := r.turn;
      } else if r.IsCompaction() || r.IsPrompt() || (r.IsEdge() && !(r.payload.TaskStarted? && r.turn == turn))
                || (r.turn != "" && r.turn != turn) {
        turn := "";
      }
    }
  }

  /** A record that leaves a turn's compaction the last thing the transcript shows of it. */
  predicate Quiet(r: Record, turn: string) {
    && !r.IsCompaction() && !r.IsPrompt()
    && (r.IsEdge() ==> r.payload.TaskStarted? && r.turn == turn)
    && (r.turn == "" || r.turn == turn)
  }

  /** The records end with the finished compaction of the turn at k, and nothing of note after it. */
  ghost predicate CompactedAt(records: seq<Record>, k: nat, turn: string) {
    && k < |records| && records[k].FinishesCompaction() && records[k].turn == turn
    && forall j | k < j < |records| :: Quiet(records[j], turn)
  }

  lemma {:induction false} TurnAfterSplit(turn: string, a: seq<Record>, b: seq<Record>)
    ensures TurnAfter(turn, a + b) == TurnAfter(TurnAfter(turn, a), b)
    decreases a
  {
    if a == [] {
      assert a + b == b;
    } else {
      assert (a + b)[1..] == a[1..] + b;
      TurnAfterSplit(TurnStep(turn, a[0]), a[1..], b);
    }
  }

  /**
   * resumeTurn names a turn exactly when the finished compaction of that turn is the last compaction the
   * records show, followed by no prompt, no end or start of another turn and no record of another turn.
   */
  lemma {:induction false} ResumeTurnExact(records: seq<Record>, turn: string)
    requires turn != ""
    ensures TurnAfter("", records) == turn <==> exists k: nat :: CompactedAt(records, k, turn)
    decreases |records|
  {
    if records != [] {
      var n := |records| - 1;
      var front, last := records[..n], records[n];
      assert records == front + [last];
      TurnAfterSplit("", front, [last]);
      assert [last][1..] == [];
      assert TurnAfter("", records) == TurnStep(TurnAfter("", front), last);
      ResumeTurnExact(front, turn);
      if exists k: nat :: CompactedAt(records, k, turn) {
        var k: nat :| CompactedAt(records, k, turn);
        if k < n {
          assert front[k] == records[k];
          assert CompactedAt(front, k, turn);
          assert Quiet(records[n], turn);
        }
      }
      if TurnStep(TurnAfter("", front), last) == turn {
        if last.FinishesCompaction() && last.turn != "" {
          assert CompactedAt(records, n, turn);
        } else {
          var k: nat :| CompactedAt(front, k, turn);
          assert records[k] == front[k];
          assert CompactedAt(records, k, turn);
        }
      }
    }
  }

  /** The loop of compactOfTurn: whether no record tells against the compaction of the turn. */
  predicate NothingAgainst(records: seq<Record>, turn: string) {
    forall i | 0 <= i < |records| ::
      && !records[i].IsCompaction() && !records[i].IsPrompt() && !records[i].IsEdge() && !records[i].IsUserItem()
      && (records[i].turn == "" || records[i].turn == turn)
  }

  method CompactOfTurn(records: seq<Record>, turn: string) returns (ok: bool)
    ensures ok <==> NothingAgainst(records, turn)
  {
    for i := 0 to |records|
      invariant NothingAgainst(records[..i], turn)
    {
      var r := records[i];
      if r.IsCompaction() || r.IsPrompt() || r.IsEdge() || r.IsUserItem() || (r.turn != "" && r.turn != turn) {
        return false;
      }
    }
    assert records[..|records|] == records;
    return true;
  }

  /**
   * The evidence of the two starts together: the last compaction of the whole transcript read by both is the
   * finished compaction of the resume's turn, and every later record is of that turn or of none.
   */
  lemma EvidenceJoins(seen: seq<Record>, gained: seq<Record>, turn: string) returns (k: nat)
    requires turn != "" && TurnAfter("", seen) == turn && NothingAgainst(gained, turn)
    ensures k < |seen| && CompactedAt(seen + gained, k, turn)
  {
    ResumeTurnExact(seen, turn);
    k :| CompactedAt(seen, k, turn);
    var all := seen + gained;
    forall j | k < j < |all| ensures Quiet(all[j], turn) {
      if j < |seen| {
        assert all[j] == seen[j];
      } else {
        assert all[j] == gained[j - |seen|];
      }
    }
  }

  /**
   * compactOfTurn, exactly: with what the resume saw, the records gained since tell nothing against the turn when its
   * finished compaction is still the last one, and none of them is an edge of a turn or a message of the user.
   */
  lemma EvidenceExact(seen: seq<Record>, gained: seq<Record>, turn: string)
    requires turn != "" && TurnAfter("", seen) == turn
    ensures NothingAgainst(gained, turn) <==>
            && (exists k: nat :: k < |seen| && CompactedAt(seen + gained, k, turn))
            && forall i | 0 <= i < |gained| :: !gained[i].IsEdge() && !gained[i].IsUserItem()
  {
    if NothingAgainst(gained, turn) {
      var k := EvidenceJoins(seen, gained, turn);
    }
    if k: nat :| k < |seen| && CompactedAt(seen + gained, k, turn) {
      forall i | 0 <= i < |gained| ensures Quiet(gained[i], turn) {
        assert (seen + gained)[|seen| + i] == gained[i];
      }
    }
  }
}
