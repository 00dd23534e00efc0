/** Streaming agrees with the text it follows. */
module StreamingProperties {
  import opened Base
  import opened Protobuf
  import opened Streaming

  // ----- Polls are rows -----

  function Flatten(polls: seq<seq<Row>>): seq<Row> {
    if polls == [] then [] else Flatten(polls[..|polls| - 1]) + polls[|polls| - 1]
  }

  /** A series of polls: the progress of one is where the next begins, and the updates follow one another. */
  function Polls(p: Progress, polls: seq<seq<Row>>, d: Display): Polled {
    if polls == [] then Polled(p, [])
    else match Polls(p, polls[..|polls| - 1], d)
         case Panicked => Panicked
         case Polled(q, before) =>
           match OnRows(q, polls[|polls| - 1], d)
           case Panicked => Panicked
           case Polled(next, now) => Polled(next, before + now)
  }

  lemma {:induction false} RowsConcat(p: Progress, a: seq<Row>, b: seq<Row>, d: Display)
    ensures OnRows(p, a + b, d) ==
      match OnRows(p, a, d)
      case Panicked => Panicked
      case Polled(q, before) =>
        match OnRows(q, b, d)
        case Panicked => Panicked
        case Polled(next, now) => Polled(next, before + now)
  {
    hide OnRow;
    if b == [] {
      assert a + b == a;
    } else {
      RowsConcat(p, a, b[..|b| - 1], d);
      assert (a + b)[..|a + b| - 1] == a + b[..|b| - 1];
      match OnRows(p, a, d)
      case Panicked =>
      case Polled(q, before) =>
        match OnRows(q, b[..|b| - 1], d)
        case Panicked =>
        case Polled(r, now) =>
    }
  }

  /** How rows are grouped into polls does not matter. */
  lemma {:induction false} PollsAreRows(p: Progress, polls: seq<seq<Row>>, d: Display)
    ensures Polls(p, polls, d) == OnRows(p, Flatten(polls), d)
  {
    if polls != [] {
      PollsAreRows(p, polls[..|polls| - 1], d);
      RowsConcat(p, Flatten(polls[..|polls| - 1]), polls[|polls| - 1], d);
    }
  }

  // ----- Pieces of a text -----

  /** A piece of a step's text, in the order they were dealt with. It is `sent` if narration is shown or the step's
      whole text is no narration. */
  datatype Piece = Piece(text: seq<byte>, sent: bool)

  /** The piece a row adds to the text of step `idx`, if any. */
  function PieceOf(p: Progress, row: Row, idx: int, d: Display): seq<Piece> {
    if row.idx == idx && TextOf(row).Some? && |TextOf(row).value| > Emitted(p, idx)
    then [Piece(TextOf(row).value[Emitted(p, idx)..], d.shown || !d.narration(TextOf(row).value))] else []
  }

  function Pieces(p: Progress, rows: seq<Row>, idx: int, d: Display): seq<Piece> {
    if rows == [] then []
    else
      var front := rows[..|rows| - 1];
      Pieces(p, front, idx, d) + (match OnRows(p, front, d)
                                  case Panicked => []
                                  case Polled(q, _) => PieceOf(q, rows[|rows| - 1], idx, d))
  }

  function Joined(pieces: seq<Piece>): seq<byte> {
    if pieces == [] then [] else Joined(pieces[..|pieces| - 1]) + pieces[|pieces| - 1].text
  }

  function Sent(pieces: seq<Piece>): seq<seq<byte>> {
    if pieces == [] then []
    else Sent(pieces[..|pieces| - 1]) + (if pieces[|pieces| - 1].sent then [pieces[|pieces| - 1].text] else [])
  }

  /** The texts of the chunks sent for a step. */
  function Chunks(updates: seq<Update>, idx: int): seq<seq<byte>> {
    if updates == [] then []
    else
      var u := updates[|updates| - 1];
      Chunks(updates[..|updates| - 1], idx) + (if u.Chunk? && u.idx == idx then [u.text] else [])
  }

  function Concat(texts: seq<seq<byte>>): seq<byte> {
    if texts == [] then [] else Concat(texts[..|texts| - 1]) + texts[|texts| - 1]
  }

  lemma {:induction false} ChunksAppend(a: seq<Update>, b: seq<Update>, idx: int)
    ensures Chunks(a + b, idx) == Chunks(a, idx) + Chunks(b, idx)
  {
    if b == [] {
      assert a + b == a;
    } else {
      ChunksAppend(a, b[..|b| - 1], idx);
      assert (a + b)[..|a + b| - 1] == a + b[..|b| - 1];
    }
  }

  // ----- Append-only texts -----

  /** Every text read for a step is a prefix of one text, the step's text when it is complete. */
  predicate AppendOnly(rows: seq<Row>, full: map<int, seq<byte>>) {
    forall i :: 0 <= i < |rows| && TextOf(rows[i]).Some? ==>
          rows[i].idx in full && TextOf(rows[i]).value <= full[rows[i].idx]
  }

  /** What has been dealt with so far is a prefix that some row held. */
  predicate Follows(p: Progress, full: map<int, seq<byte>>) {
    forall idx :: idx in full ==> Emitted(p, idx) <= |full[idx]| && Utf8(full[idx][..Emitted(p, idx)])
  }

  lemma {:induction false} Utf8Suffix(p: seq<byte>, q: seq<byte>)
    requires Utf8(p) && Utf8(p + q)
    ensures Utf8(q)
  {
    if p == [] {
      assert p + q == q;
    } else {
      var n := CharLength(p[0]);
      assert (p + q)[0] == p[0];
      assert (p + q)[n..] == p[n..] + q;
      Utf8Suffix(p[n..], q);
    }
  }

  /** A valid text that is a prefix of another ends between two of its characters. */
  lemma PrefixEndsAtBoundary(p: seq<byte>, t: seq<byte>)
    requires Utf8(p) && Utf8(t) && p <= t
    ensures CharBoundary(t, |p|) && Utf8(t[|p|..])
  {
    assert p + t[|p|..] == t;
    Utf8Suffix(p, t[|p|..]);
    if |p| < |t| {
      assert t[|p|..][0] == t[|p|];
      assert StartsWithChar(t[|p|..]);
    }
  }

  /** One row: never a failure, one piece at most, contiguous with what was dealt with before. */
  lemma RowFollows(p: Progress, row: Row, full: map<int, seq<byte>>, d: Display, idx: int)
    requires AppendOnly([row], full) && Follows(p, full) && idx in full
    ensures var r := OnRow(p, row, d);
      && r.Polled? && Follows(r.progress, full)
      && full[idx][..Emitted(r.progress, idx)] == full[idx][..Emitted(p, idx)] + Joined(PieceOf(p, row, idx, d))
      && Chunks(r.updates, idx) == Sent(PieceOf(p, row, idx, d))
  {
    assert [row][0] == row;
    if TextOf(row).Some? {
      var t, from := TextOf(row).value, Emitted(p, row.idx);
      if |t| > from {
        assert t[..from] == full[row.idx][..from];
        PrefixEndsAtBoundary(t[..from], t);
      }
      TextFollows(p.(last := Max(p.last, row.idx)), row.idx, t, full, d);
      OneChunk(p, row, d, idx, full);
    } else {
      assert PieceOf(p, row, idx, d) == [];
      ToolSendsNoText(p, row, d, idx);
    }
  }

  lemma TextFollows(p: Progress, idx: int, t: seq<byte>, full: map<int, seq<byte>>, d: Display)
    requires Follows(p, full) && idx in full && t <= full[idx] && Utf8(t)
    requires |t| > Emitted(p, idx) ==> CharBoundary(t, Emitted(p, idx))
    ensures OnText(p, idx, t, d).Polled? && Follows(OnText(p, idx, t, d).progress, full)
  {
    hide Utf8, CharBoundary;
    assert t == full[idx][..|t|];
  }

  lemma OneChunk(p: Progress, row: Row, d: Display, idx: int, full: map<int, seq<byte>>)
    requires TextOf(row).Some? && idx in full && Emitted(p, idx) <= |full[idx]|
    requires row.idx == idx ==> TextOf(row).value <= full[idx]
    requires OnRow(p, row, d).Polled?
    ensures var r := OnRow(p, row, d);
      && full[idx][..Emitted(r.progress, idx)] == full[idx][..Emitted(p, idx)] + Joined(PieceOf(p, row, idx, d))
      && Chunks(r.updates, idx) == Sent(PieceOf(p, row, idx, d))
  {
    hide Utf8, CharBoundary, TextOf, Joined, Sent, Chunks;
    var t := TextOf(row).value;
    NoPieces(idx);
    if |t| > Emitted(p, row.idx) {
      var rest := t[Emitted(p, row.idx)..];
      OneUpdate(Chunk(row.idx, rest), idx);
      if row.idx == idx {
        OnePiece(Piece(rest, d.shown || !d.narration(t)));
        assert full[idx][..|t|] == full[idx][..Emitted(p, idx)] + rest;
      }
    }
  }

  lemma OnePiece(piece: Piece)
    ensures Joined([piece]) == piece.text && Sent([piece]) == if piece.sent then [piece.text] else []
  {
    assert [piece][..0] == [];
  }

  lemma OneUpdate(u: Update, idx: int)
    ensures Chunks([u], idx) == if u.Chunk? && u.idx == idx then [u.text] else []
  {
    assert [u][..0] == [];
  }

  lemma ToolSendsNoText(p: Progress, row: Row, d: Display, idx: int)
    requires TextOf(row).None?
    ensures var r := OnRow(p, row, d);
      r.Polled? && r.progress.emitted == p.emitted && Chunks(r.updates, idx) == []
  {
    hide TextOf, ToolOf;
    var r := OnRow(p, row, d);
    if |r.updates| == 2 {
      assert r.updates[..1] == [r.updates[0]];
      OneUpdate(r.updates[0], idx);
    }
  }

  lemma LastPiece(pieces: seq<Piece>, front: seq<Piece>, last: Piece)
    requires pieces == front + [last]
    ensures Joined(pieces) == Joined(front) + last.text
  {
    assert pieces[..|pieces| - 1] == front;
  }

  lemma {:induction false} JoinedAppend(a: seq<Piece>, b: seq<Piece>)
    ensures Joined(a + b) == Joined(a) + Joined(b)
  {
    hide Joined;
    if b == [] {
      NoPieces(0);
      assert a + b == a;
    } else {
      var front, last := b[..|b| - 1], b[|b| - 1];
      JoinedAppend(a, front);
      LastPiece(a + b, a + front, last);
      LastPiece(b, front, last);
    }
  }

  lemma {:induction false} SentAppend(a: seq<Piece>, b: seq<Piece>)
    ensures Sent(a + b) == Sent(a) + Sent(b)
  {
    if b == [] {
      assert a + b == a;
    } else {
      SentAppend(a, b[..|b| - 1]);
      assert (a + b)[..|a + b| - 1] == a + b[..|b| - 1];
      assert (a + b)[|a + b| - 1] == b[|b| - 1];
    }
  }

  lemma NoPieces(idx: int)
    ensures Joined([]) == [] && Sent([]) == [] && Chunks([], idx) == []
  {
  }

  lemma AppendOnlyFront(rows: seq<Row>, full: map<int, seq<byte>>)
    requires AppendOnly(rows, full) && rows != []
    ensures AppendOnly(rows[..|rows| - 1], full) && AppendOnly([rows[|rows| - 1]], full)
  {
  }

  /** While texts only grow, polling never fails; the pieces sent and the pieces suppressed, in order, are exactly
      the part of the text dealt with; and the chunks sent are the pieces that were not suppressed. */
  lemma {:induction false} PiecesPartitionText(p: Progress, rows: seq<Row>, full: map<int, seq<byte>>, d: Display,
                                               idx: int)
    requires AppendOnly(rows, full) && Follows(p, full) && idx in full
    ensures var r := OnRows(p, rows, d);
      && r.Polled? && Follows(r.progress, full)
      && full[idx][..Emitted(r.progress, idx)] == full[idx][..Emitted(p, idx)] + Joined(Pieces(p, rows, idx, d))
      && Chunks(r.updates, idx) == Sent(Pieces(p, rows, idx, d))
  {
    hide OnRow, PieceOf, Utf8, Joined, Sent, Chunks, AppendOnly, TextOf;
    if rows != [] {
      var front, row := rows[..|rows| - 1], rows[|rows| - 1];
      AppendOnlyFront(rows, full);
      PiecesPartitionText(p, front, full, d, idx);
      var mid := OnRows(p, front, d);
      RowFollows(mid.progress, row, full, d, idx);
      var last := OnRow(mid.progress, row, d);
      JoinedAppend(Pieces(p, front, idx, d), PieceOf(mid.progress, row, idx, d));
      SentAppend(Pieces(p, front, idx, d), PieceOf(mid.progress, row, idx, d));
      ChunksAppend(mid.updates, last.updates, idx);
    } else {
      NoPieces(idx);
    }
  }

  // ----- Rows that have been dealt with -----

  /** Seeing the row again changes nothing. */
  predicate DealtWith(q: Progress, row: Row) {
    && row.idx <= q.last
    && (TextOf(row).Some? ==> |TextOf(row).value| <= Emitted(q, row.idx))
    && (ToolOf(row).Some? ==> row.idx in q.tools)
  }

  lemma RowIsDealtWith(p: Progress, row: Row, d: Display, earlier: Row)
    requires OnRow(p, row, d).Polled?
    ensures DealtWith(OnRow(p, row, d).progress, row)
    ensures DealtWith(p, earlier) ==> DealtWith(OnRow(p, row, d).progress, earlier)
  {
    hide ExtractText, CallOf;
  }

  lemma {:induction false} RowsAreDealtWith(p: Progress, rows: seq<Row>, d: Display)
    requires OnRows(p, rows, d).Polled?
    ensures forall i :: 0 <= i < |rows| ==> DealtWith(OnRows(p, rows, d).progress, rows[i])
  {
    hide DealtWith, OnRow;
    if rows != [] {
      var n := |rows| - 1;
      RowsAreDealtWith(p, rows[..n], d);
      var mid := OnRows(p, rows[..n], d).progress;
      forall i | 0 <= i < |rows| ensures DealtWith(OnRow(mid, rows[n], d).progress, rows[i]) {
        RowIsDealtWith(mid, rows[n], d, rows[i]);
        assert i < n ==> rows[..n][i] == rows[i];
      }
    }
  }

  lemma {:induction false} OldRowsAreQuiet(q: Progress, rows: seq<Row>, d: Display)
    requires forall i :: 0 <= i < |rows| ==> DealtWith(q, rows[i])
    ensures OnRows(q, rows, d) == Polled(q, [])
  {
    if rows != [] {
      OldRowsAreQuiet(q, rows[..|rows| - 1], d);
    }
  }

  /** Polling rows that have all been polled before, whatever came in between, emits nothing and changes nothing. */
  lemma UnchangedTableEmitsNothing(p: Progress, rows: seq<Row>, again: seq<Row>, d: Display)
    requires OnRows(p, rows, d).Polled?
    requires forall r :: r in again ==> r in rows
    ensures OnRows(OnRows(p, rows, d).progress, again, d) == Polled(OnRows(p, rows, d).progress, [])
  {
    hide DealtWith, OnRows;
    RowsAreDealtWith(p, rows, d);
    forall i | 0 <= i < |again| ensures DealtWith(OnRows(p, rows, d).progress, again[i]) {
      assert again[i] in rows;
    }
    OldRowsAreQuiet(OnRows(p, rows, d).progress, again, d);
  }

  /** The last index seen is the highest of the base and all rows. */
  lemma {:induction false} LastIsHighest(p: Progress, rows: seq<Row>, d: Display)
    requires OnRows(p, rows, d).Polled?
    ensures var last := OnRows(p, rows, d).progress.last;
      && last >= p.last && (forall i :: 0 <= i < |rows| ==> rows[i].idx <= last)
      && (last == p.last || exists i :: 0 <= i < |rows| && rows[i].idx == last)
  {
    hide ExtractText, CallOf, CharBoundary, IsToolStep;
    if rows != [] {
      LastIsHighest(p, rows[..|rows| - 1], d);
    }
  }

  // ----- Tool calls -----

  predicate IsPair(updates: seq<Update>, i: nat) {
    && i + 1 < |updates| && updates[i].ToolCall?
    && updates[i + 1] == ToolCallUpdate(updates[i].idx, updates[i].stepType, updates[i].call)
  }

  /** Each start is at once followed by its end, each end follows its start. */
  predicate Paired(updates: seq<Update>) {
    && (forall i :: 0 <= i < |updates| && updates[i].ToolCall? ==> IsPair(updates, i))
    && (forall i :: 0 <= i < |updates| && updates[i].ToolCallUpdate? ==> i > 0 && IsPair(updates, i - 1))
  }

  predicate Starts(updates: seq<Update>, i: nat, idx: int) {
    i < |updates| && updates[i].ToolCall? && updates[i].idx == idx
  }

  /** A step is announced exactly if it is newly in `q.tools`, and then at one place. */
  ghost predicate Announced(p: Progress, q: Progress, updates: seq<Update>) {
    && p.tools <= q.tools
    && (forall idx :: (exists i: nat :: Starts(updates, i, idx)) <==> idx in q.tools && idx !in p.tools)
    && (forall i: nat, j: nat, idx :: Starts(updates, i, idx) && Starts(updates, j, idx) ==> i == j)
  }

  lemma RowAnnounces(p: Progress, row: Row, d: Display)
    requires OnRow(p, row, d).Polled?
    ensures Announced(p, OnRow(p, row, d).progress, OnRow(p, row, d).updates)
    ensures Paired(OnRow(p, row, d).updates)
  {
    hide TextOf, ToolOf, CharBoundary;
    var r := OnRow(p, row, d);
    if |r.updates| == 2 {
      assert Starts(r.updates, 0, row.idx);
      assert IsPair(r.updates, 0);
    }
  }

  lemma NothingAnnounced(p: Progress)
    ensures Announced(p, p, []) && Paired([])
  {
    forall i: nat, idx ensures !Starts([], i, idx) {
    }
  }

  lemma PairedTogether(a: seq<Update>, b: seq<Update>)
    requires Paired(a) && Paired(b)
    ensures Paired(a + b)
  {
    forall i | 0 <= i < |a + b| && (a + b)[i].ToolCall? ensures IsPair(a + b, i) {
      assert if i < |a| then IsPair(a, i) else IsPair(b, i - |a|);
    }
    forall i | 0 <= i < |a + b| && (a + b)[i].ToolCallUpdate? ensures i > 0 && IsPair(a + b, i - 1) {
      assert if i < |a| then IsPair(a, i - 1) else IsPair(b, i - |a| - 1);
    }
  }

  lemma StartsTogether(a: seq<Update>, b: seq<Update>, idx: int, i: nat)
    ensures Starts(a + b, i, idx) <==> if i < |a| then Starts(a, i, idx) else Starts(b, i - |a|, idx)
  {
  }

  lemma AnnouncedTogether(p: Progress, q: Progress, r: Progress, a: seq<Update>, b: seq<Update>)
    requires Announced(p, q, a) && Announced(q, r, b)
    ensures Announced(p, r, a + b)
  {
    hide Starts;
    forall idx: int, i: nat | Starts(a + b, i, idx)
      ensures if i < |a| then Starts(a, i, idx) else Starts(b, i - |a|, idx)
    {
      StartsTogether(a, b, idx, i);
    }
    forall i: nat, idx | Starts(a, i, idx) ensures i < |a| && Starts(a + b, i, idx) {
      StartsInside(a, i, idx);
      StartsTogether(a, b, idx, i);
    }
    forall i: nat, idx | Starts(b, i, idx) ensures Starts(a + b, |a| + i, idx) {
      StartsTogether(a, b, idx, |a| + i);
    }
    forall idx | idx in r.tools && idx !in p.tools ensures exists i: nat :: Starts(a + b, i, idx) {
      if idx in q.tools {
        var i: nat :| Starts(a, i, idx);
        assert Starts(a + b, i, idx);
      } else {
        var i: nat :| Starts(b, i, idx);
        assert Starts(a + b, |a| + i, idx);
      }
    }
    forall i: nat, idx | Starts(a + b, i, idx) ensures idx in r.tools && idx !in p.tools {
      if i < |a| {
        assert Starts(a, i, idx);
      } else {
        assert Starts(b, i - |a|, idx);
      }
    }
    forall i: nat, j: nat, idx | Starts(a + b, i, idx) && Starts(a + b, j, idx) ensures i == j {
      StartsTogether(a, b, idx, i);
      StartsTogether(a, b, idx, j);
    }
  }

  lemma StartsInside(a: seq<Update>, i: nat, idx: int)
    requires Starts(a, i, idx)
    ensures i < |a|
  {
  }

  /** Row `j` is the first of step `idx` whose call can be read. */
  predicate FirstReadable(rows: seq<Row>, j: nat, idx: int) {
    && j < |rows| && rows[j].idx == idx && ToolOf(rows[j]).Some?
    && forall k :: 0 <= k < j && rows[k].idx == idx ==> ToolOf(rows[k]).None?
  }

  /** The start at `i` announces the call of row `j`. */
  predicate Announces(updates: seq<Update>, i: nat, rows: seq<Row>, j: nat) {
    && i < |updates| && updates[i].ToolCall? && FirstReadable(rows, j, updates[i].idx)
    && ToolOf(rows[j]) == Some(updates[i].call) && rows[j].stepType == updates[i].stepType
  }

  lemma FirstReadableStays(rows: seq<Row>, last: Row, j: nat, idx: int)
    ensures FirstReadable(rows, j, idx) ==> FirstReadable(rows + [last], j, idx)
    ensures FirstReadable(rows + [last], j, idx) && j < |rows| ==> FirstReadable(rows, j, idx)
  {
    hide ToolOf;
    assert forall k :: 0 <= k < |rows| ==> (rows + [last])[k] == rows[k];
  }

  lemma AnnouncesStays(a: seq<Update>, b: seq<Update>, i: nat, rows: seq<Row>, last: Row, j: nat)
    requires Announces(a, i, rows, j)
    ensures Announces(a + b, i, rows + [last], j)
  {
    FirstReadableStays(rows, last, j, a[i].idx);
    hide FirstReadable, ToolOf;
  }

  /** The row's own announcement, if it makes one, is of its call, and no earlier row's could be read. */
  lemma RowAnnouncesItself(p: Progress, rows: seq<Row>, row: Row, d: Display, i: nat)
    requires forall k :: 0 <= k < |rows| ==> DealtWith(p, rows[k])
    requires OnRow(p, row, d).Polled? && i < |OnRow(p, row, d).updates| && OnRow(p, row, d).updates[i].ToolCall?
    ensures Announces(OnRow(p, row, d).updates, i, rows + [row], |rows|)
  {
    hide TextOf, ToolOf, CharBoundary;
    var all := rows + [row];
    forall k | 0 <= k < |rows| && all[k].idx == row.idx ensures ToolOf(all[k]).None? {
      assert DealtWith(p, rows[k]);
    }
  }

  lemma {:induction false} StartsAnnounceRows(p: Progress, rows: seq<Row>, d: Display, i: nat) returns (j: nat)
    requires OnRows(p, rows, d).Polled? && i < |OnRows(p, rows, d).updates| && OnRows(p, rows, d).updates[i].ToolCall?
    ensures Announces(OnRows(p, rows, d).updates, i, rows, j)
    decreases |rows|
  {
    hide OnRow, Announces, DealtWith;
    var front, row := rows[..|rows| - 1], rows[|rows| - 1];
    assert rows == front + [row];
    var mid := OnRows(p, front, d);
    var now := OnRow(mid.progress, row, d);
    if i < |mid.updates| {
      j := StartsAnnounceRows(p, front, d, i);
      AnnouncesStays(mid.updates, now.updates, i, front, row, j);
    } else {
      j := |front|;
      RowsAreDealtWith(p, front, d);
      RowAnnouncesItself(mid.progress, front, row, d, i - |mid.updates|);
      LaterAnnounces(mid.updates, now.updates, i - |mid.updates|, rows, j);
    }
  }

  lemma LaterAnnounces(a: seq<Update>, b: seq<Update>, i: nat, rows: seq<Row>, j: nat)
    requires Announces(b, i, rows, j)
    ensures Announces(a + b, |a| + i, rows, j)
  {
    hide FirstReadable, ToolOf;
  }

  lemma {:induction false} FirstOfReadable(rows: seq<Row>, idx: int) returns (j: nat)
    requires exists k :: 0 <= k < |rows| && rows[k].idx == idx && ToolOf(rows[k]).Some?
    ensures FirstReadable(rows, j, idx)
  {
    hide ToolOf;
    var front := rows[..|rows| - 1];
    if k :| 0 <= k < |front| && front[k].idx == idx && ToolOf(front[k]).Some? {
      j := FirstOfReadable(front, idx);
      FirstReadableStays(front, rows[|rows| - 1], j, idx);
      assert front + [rows[|rows| - 1]] == rows;
    } else {
      j := |rows| - 1;
      assert forall k :: 0 <= k < j ==> front[k] == rows[k];
    }
  }

  lemma {:induction false} StepsPairedOnce(p: Progress, rows: seq<Row>, d: Display)
    requires OnRows(p, rows, d).Polled?
    ensures Announced(p, OnRows(p, rows, d).progress, OnRows(p, rows, d).updates)
    ensures Paired(OnRows(p, rows, d).updates)
  {
    hide OnRow, TextOf, ToolOf, Paired, Starts;
    if rows == [] {
      NothingAnnounced(p);
    } else {
      var front, row := rows[..|rows| - 1], rows[|rows| - 1];
      StepsPairedOnce(p, front, d);
      var mid := OnRows(p, front, d);
      var now := OnRow(mid.progress, row, d);
      RowAnnounces(mid.progress, row, d);
      PairedTogether(mid.updates, now.updates);
      AnnouncedTogether(p, mid.progress, now.progress, mid.updates, now.updates);
    }
  }

  /** Over any number of rows and polls: a step not announced before is announced exactly if the call of one of its
      rows can be read, once, with the call of the first such row, as a start at once followed by its end. */
  lemma ToolStepsOnce(p: Progress, rows: seq<Row>, d: Display, idx: int)
    requires OnRows(p, rows, d).Polled?
    ensures var updates := OnRows(p, rows, d).updates;
      && Paired(updates)
      && ((exists i: nat :: Starts(updates, i, idx)) <==>
            idx !in p.tools && exists j: nat :: FirstReadable(rows, j, idx))
      && (forall i: nat, k: nat :: Starts(updates, i, idx) && Starts(updates, k, idx) ==> i == k)
      && (forall i: nat, j: nat :: Starts(updates, i, idx) && FirstReadable(rows, j, idx) ==>
            Announces(updates, i, rows, j))
  {
    var r := OnRows(p, rows, d);
    StepsPairedOnce(p, rows, d);
    RowsAreDealtWith(p, rows, d);
    forall j: nat | FirstReadable(rows, j, idx) ensures idx in r.progress.tools {
      assert DealtWith(r.progress, rows[j]);
    }
    forall i: nat | Starts(r.updates, i, idx)
      ensures exists j: nat :: FirstReadable(rows, j, idx)
      ensures forall j: nat :: FirstReadable(rows, j, idx) ==> Announces(r.updates, i, rows, j)
    {
      var j := StartsAnnounceRows(p, rows, d, i);
    }
    hide OnRows, ToolOf, DealtWith, Announces, FirstReadable, Paired;
  }

  // ----- Whole conversations -----

  function Fresh(base: int): Progress { Progress(base, map[], {}) }

  /** Over any number of polls of growing texts: no poll fails, the pieces sent or suppressed for a step are, in
      order, exactly the first part of its text, and its chunks are the pieces sent. */
  lemma PollsPartitionText(base: int, polls: seq<seq<Row>>, full: map<int, seq<byte>>, d: Display, idx: int)
    requires AppendOnly(Flatten(polls), full) && idx in full
    ensures var r := Polls(Fresh(base), polls, d);
      var pieces := Pieces(Fresh(base), Flatten(polls), idx, d);
      && r.Polled?
      && Emitted(r.progress, idx) <= |full[idx]|
      && Joined(pieces) == full[idx][..Emitted(r.progress, idx)]
      && Chunks(r.updates, idx) == Sent(pieces)
  {
    PollsAreRows(Fresh(base), polls, d);
    PiecesPartitionText(Fresh(base), Flatten(polls), full, d, idx);
    hide Pieces, Polls, OnRows, Joined;
  }

  lemma {:induction false} SentOfSent(pieces: seq<Piece>)
    requires forall i :: 0 <= i < |pieces| ==> pieces[i].sent
    ensures Concat(Sent(pieces)) == Joined(pieces)
  {
    if pieces != [] {
      SentOfSent(pieces[..|pieces| - 1]);
      var before, t := Sent(pieces[..|pieces| - 1]), pieces[|pieces| - 1].text;
      assert (before + [t])[..|before + [t]| - 1] == before;
    }
  }

  lemma {:induction false} PiecesSent(p: Progress, rows: seq<Row>, idx: int, d: Display)
    requires forall i :: 0 <= i < |rows| && TextOf(rows[i]).Some? ==> d.shown || !d.narration(TextOf(rows[i]).value)
    ensures forall i :: 0 <= i < |Pieces(p, rows, idx, d)| ==> Pieces(p, rows, idx, d)[i].sent
  {
    hide OnRow, OnRows, TextOf;
    if rows != [] {
      PiecesSent(p, rows[..|rows| - 1], idx, d);
    }
  }

  lemma RowsSpellText(base: int, rows: seq<Row>, full: map<int, seq<byte>>, d: Display, i: nat)
    requires AppendOnly(rows, full)
    requires forall k :: 0 <= k < |rows| && TextOf(rows[k]).Some? ==>
          d.shown || !d.narration(TextOf(rows[k]).value)
    requires i < |rows| && TextOf(rows[i]).Some? && TextOf(rows[i]).value == full[rows[i].idx]
    ensures var r := OnRows(Fresh(base), rows, d);
      r.Polled? && Concat(Chunks(r.updates, rows[i].idx)) == full[rows[i].idx]
  {
    hide Pieces, OnRows, Joined, TextOf, ToolOf, Chunks, Sent;
    var idx := rows[i].idx;
    PiecesPartitionText(Fresh(base), rows, full, d, idx);
    RowsAreDealtWith(Fresh(base), rows, d);
    assert DealtWith(OnRows(Fresh(base), rows, d).progress, rows[i]);
    PiecesSent(Fresh(base), rows, idx, d);
    SentOfSent(Pieces(Fresh(base), rows, idx, d));
    assert full[idx][..|full[idx]|] == full[idx];
  }

  /** If nothing is suppressed, the chunks sent for a step spell its latest text. */
  lemma ChunksSpellText(base: int, polls: seq<seq<Row>>, full: map<int, seq<byte>>, d: Display, i: nat)
    requires AppendOnly(Flatten(polls), full)
    requires forall k :: 0 <= k < |Flatten(polls)| && TextOf(Flatten(polls)[k]).Some? ==>
          d.shown || !d.narration(TextOf(Flatten(polls)[k]).value)
    requires i < |Flatten(polls)| && TextOf(Flatten(polls)[i]).Some?
    requires TextOf(Flatten(polls)[i]).value == full[Flatten(polls)[i].idx]
    ensures var idx := Flatten(polls)[i].idx; var r := Polls(Fresh(base), polls, d);
      r.Polled? && Concat(Chunks(r.updates, idx)) == full[idx]
  {
    RowsSpellText(base, Flatten(polls), full, d, i);
    PollsAreRows(Fresh(base), polls, d);
  }

  // ----- A text that does not only grow -----

  lemma PayloadLength(text: seq<byte>)
    requires |text| < 100
    ensures |Payload(text)| == |text| + 5
  {
    SmallTags();
    DelimitedBytes(1, [0x0A], text);
    assert EncodeVarint(|text|) == [|text|];
    var inner := Encode([Delimited(1, text)]);
    assert EncodeVarint(|inner|) == [|inner|];
    DelimitedBytes(20, [0xA2, 0x01], inner);
  }

  lemma TextOfPayload(idx: int, text: seq<byte>)
    requires Utf8(text) && |text| < 100
    ensures TextOf(Row(idx, 15, Payload(text))) == Some(text)
  {
    PayloadLength(text);
    ExtractInvertsPayload(text);
  }

  /** The length of the longest text read for a step. */
  function Longest(rows: seq<Row>, idx: int): nat {
    if rows == [] then 0
    else
      var before, last := Longest(rows[..|rows| - 1], idx), rows[|rows| - 1];
      if last.idx == idx && TextOf(last).Some? && |TextOf(last).value| > before then |TextOf(last).value| else before
  }

  /** The text of row `i` is longer than every earlier text of its step, is not suppressed, and has the middle of a
      character where the longest of them ended. */
  predicate CutsInside(rows: seq<Row>, i: nat, d: Display)
    requires i < |rows|
  {
    var from := Longest(rows[..i], rows[i].idx);
    && TextOf(rows[i]).Some? && 0 < from < |TextOf(rows[i]).value|
    && (d.shown || !d.narration(TextOf(rows[i]).value)) && Continuation(TextOf(rows[i]).value[from])
  }

  lemma RowEmits(p: Progress, row: Row, d: Display, idx: int)
    requires OnRow(p, row, d).Polled?
    ensures Emitted(OnRow(p, row, d).progress, idx) ==
      if row.idx == idx && TextOf(row).Some? && |TextOf(row).value| > Emitted(p, idx) then |TextOf(row).value|
      else Emitted(p, idx)
  {
    hide TextOf, ToolOf, CharBoundary;
  }

  /** What has been dealt with of a step is the longest text read for it. */
  lemma {:induction false} EmittedIsLongest(base: int, rows: seq<Row>, d: Display, idx: int)
    requires OnRows(Fresh(base), rows, d).Polled?
    ensures Emitted(OnRows(Fresh(base), rows, d).progress, idx) == Longest(rows, idx)
  {
    hide OnRow, TextOf;
    if rows != [] {
      EmittedIsLongest(base, rows[..|rows| - 1], d, idx);
      RowEmits(OnRows(Fresh(base), rows[..|rows| - 1], d).progress, rows[|rows| - 1], d, idx);
    }
  }

  lemma RowPanics(p: Progress, row: Row, d: Display)
    ensures OnRow(p, row, d).Panicked? <==>
      && TextOf(row).Some? && 0 < Emitted(p, row.idx) < |TextOf(row).value|
      && (d.shown || !d.narration(TextOf(row).value)) && Continuation(TextOf(row).value[Emitted(p, row.idx)])
  {
    hide TextOf, ToolOf;
  }

  /** A series of polls fails exactly if some row's text cuts inside a character. */
  lemma {:induction false} RowsPanicExactly(base: int, rows: seq<Row>, d: Display)
    ensures OnRows(Fresh(base), rows, d).Panicked? <==> exists i :: 0 <= i < |rows| && CutsInside(rows, i, d)
  {
    hide OnRow, TextOf;
    if rows != [] {
      var n := |rows| - 1;
      var front := rows[..n];
      RowsPanicExactly(base, front, d);
      forall i | 0 <= i < n ensures CutsInside(rows, i, d) <==> CutsInside(front, i, d) {
        assert rows[..i] == front[..i];
      }
      if OnRows(Fresh(base), front, d).Polled? {
        EmittedIsLongest(base, front, d, rows[n].idx);
        RowPanics(OnRows(Fresh(base), front, d).progress, rows[n], d);
        assert OnRows(Fresh(base), rows, d).Panicked? <==> CutsInside(rows, n, d);
      }
    }
  }

  /** How the rows are grouped into polls makes no difference. */
  lemma PollsPanicExactly(base: int, polls: seq<seq<Row>>, d: Display)
    ensures Polls(Fresh(base), polls, d).Panicked? <==>
              exists i :: 0 <= i < |Flatten(polls)| && CutsInside(Flatten(polls), i, d)
  {
    PollsAreRows(Fresh(base), polls, d);
    RowsPanicExactly(base, Flatten(polls), d);
  }

  /** A rewritten text can make the poll cut inside a character: `a` replaced by a two-byte character. */
  lemma RewrittenTextPanics(base: int, idx: int, d: Display)
    requires d.shown
    ensures var rows := [Row(idx, 15, Payload([0x61])), Row(idx, 15, Payload([0xC3, 0xA9]))];
      OnRows(Fresh(base), rows, d).Panicked?
  {
    var first, second := Row(idx, 15, Payload([0x61])), Row(idx, 15, Payload([0xC3, 0xA9]));
    assert [0x61 as byte][1..] == [] && [0xC3 as byte, 0xA9][2..] == [];
    TextOfPayload(idx, [0x61]);
    TextOfPayload(idx, [0xC3, 0xA9]);
    hide TextOf, Payload, ToolOf, Utf8;
    TwoRows(Fresh(base), first, second, d);
  }

  lemma TwoRows(p: Progress, first: Row, second: Row, d: Display)
    requires OnRow(p, first, d).Polled?
    ensures OnRow(OnRow(p, first, d).progress, second, d).Panicked? ==> OnRows(p, [first, second], d).Panicked?
  {
    hide OnRow;
    var rows := [first, second];
    RowsStep(p, rows, 0, d);
    RowsStep(p, rows, 1, d);
    assert rows[..0] == [] && rows[..2] == rows;
  }
}
