/**
 suduo/base/AsyncLogger.cpp: log records on their way from the callers to the file.

 Callers append under the mutex; the logger thread takes the full buffers under the mutex
 and writes them without it.  A step is a critical section or one write; callers' appends
 fall between any two steps of the logger thread.
 */
module AsyncLoggers {
  import opened Bytes
  import opened StreamBuffers

  const MAX_BATCH: nat := 25

  /**
   Where the logger thread is: about to test `_running`, in the loop, with the full buffers
   taken, with some of the batch written, or out of the loop.
   */
  datatype Phase = LoopTop | InLoop | Taken | Writing(written: nat) | Exited {
    predicate Idle() {
      LoopTop? || InLoop? || Exited?
    }
  }

  /** What becomes of the text of a batch, and what is written in its stead. */
  datatype Piece = Kept(text: Text) | Dropped(text: Text) | Notice(text: Text)

  /** The records kept in all and since the last rotation, and the fate of the batches in between. */
  datatype History = History(appended: Text, since: Text, pieces: seq<Piece>)

  /** What the file gets of the pieces. */
  function FileText(pieces: seq<Piece>): Text {
    if pieces == [] then []
    else (if pieces[0].Dropped? then [] else pieces[0].text) + FileText(pieces[1..])
  }

  /** What of them callers had appended. */
  function GivenText(pieces: seq<Piece>): Text {
    if pieces == [] then []
    else (if pieces[0].Notice? then [] else pieces[0].text) + GivenText(pieces[1..])
  }

  predicate NoCuts(pieces: seq<Piece>) {
    forall p <- pieces :: p.Kept?
  }

  lemma {:induction false} PiecesAppend(a: seq<Piece>, b: seq<Piece>)
    ensures FileText(a + b) == FileText(a) + FileText(b)
    ensures GivenText(a + b) == GivenText(a) + GivenText(b)
  {
    if a == [] {
      assert a + b == b;
    } else {
      TailOfConcat(a, b);
      PiecesAppend(a[1..], b);
      ConcatAssociative(if a[0].Dropped? then [] else a[0].text, FileText(a[1..]), FileText(b));
      ConcatAssociative(if a[0].Notice? then [] else a[0].text, GivenText(a[1..]), GivenText(b));
    }
  }

  lemma PieceIs(p: Piece)
    ensures FileText([p]) == if p.Dropped? then [] else p.text
    ensures GivenText([p]) == if p.Notice? then [] else p.text
  {
    assert [p][1..] == [];
  }

  lemma {:induction false} NoCutsSame(pieces: seq<Piece>)
    requires NoCuts(pieces)
    ensures FileText(pieces) == GivenText(pieces)
  {
    if pieces != [] {
      assert pieces[0] in pieces;
      NoCutsSame(pieces[1..]);
    }
  }

  datatype Log = Log(
    capacity: nat,
    current: Option<Text>,
    next: Option<Text>,
    full: seq<Text>,
    spare1: Option<Text>,
    spare2: Option<Text>,
    batch: seq<Text>,
    phase: Phase,
    running: bool,
    file: Text,
    past: History)

  function Started(capacity: nat): Log {
    Log(capacity, Some([]), Some([]), [], Some([]), Some([]), [], LoopTop, true, [], History([], [], []))
  }

  datatype Step =
    | Append(record: Text)
    | Stop
    | Test
    | Rotate
    | Trim(notice: Text)
    | WriteOne
    | Recycle

  predicate Enabled(s: Log, step: Step) {
    match step
    case Append(_) => s.current.Some?
    case Stop => true
    case Test => s.phase.LoopTop?
    case Rotate => s.phase.InLoop? && s.current.Some?
    case Trim(_) => s.phase.Taken?
    case WriteOne => s.phase.Writing? && s.phase.written < |s.batch|
    case Recycle => s.phase.Writing? && s.phase.written == |s.batch|
  }

  /** A record is kept iff it fits an empty buffer with a byte to spare. */
  predicate Fits(s: Log, record: Text) {
    |record| < s.capacity
  }

  function AppendedTo(s: Log, record: Text): Log
    requires s.current.Some?
  {
    var r := if Fits(s, record) then record else [];
    var t := s.(past := s.past.(appended := s.past.appended + r, since := s.past.since + r));
    if |s.current.value| + |record| < s.capacity then
      t.(current := Some(s.current.value + record))
    else
      var base := if s.next.Some? then s.next.value else [];
      t.(full := s.full + [s.current.value], next := None,
         current := Some(StreamBuffers.Appended(base, s.capacity, record)))
  }

  /** The current buffer joins the full ones, which become the batch; spares step in. */
  function Rotated(s: Log): Log
    requires s.current.Some?
  {
    var r := s.(batch := s.full + [s.current.value], full := s.batch, current := s.spare1, spare1 := None,
                phase := Taken, past := s.past.(since := []));
    if s.next.None? then r.(next := s.spare2, spare2 := None) else r
  }

  /** The fate of a batch: above 25 buffers all but two are dropped, behind a notice. */
  function PiecesOf(batch: seq<Text>, notice: Text): seq<Piece> {
    if |batch| > MAX_BATCH then [Notice(notice), Kept(Flatten(batch[..2])), Dropped(Flatten(batch[2..]))]
    else [Kept(Flatten(batch))]
  }

  function TrimmedTo(s: Log, notice: Text): Log {
    var t := s.(phase := Writing(0), past := s.past.(pieces := s.past.pieces + PiecesOf(s.batch, notice)));
    if |s.batch| > MAX_BATCH then t.(file := s.file + notice, batch := s.batch[..2]) else t
  }

  function WroteOne(s: Log): Log
    requires Enabled(s, WriteOne)
  {
    s.(file := s.file + s.batch[s.phase.written], phase := Writing(s.phase.written + 1))
  }

  /** `back` and `pop_back`, which the source leaves undefined on an empty vector. */
  function Popped(bs: seq<Text>): Option<seq<Text>> {
    if bs == [] then None else Some(bs[..|bs| - 1])
  }

  /** The spares are refilled from the written batch and reset; None if a pop found nothing. */
  function Recycled(s: Log): Option<Log> {
    var left := if |s.batch| > 2 then s.batch[..2] else s.batch;
    var after1 := if s.spare1.None? then Popped(left) else Some(left);
    if after1.None? then None
    else
      var after2 := if s.spare2.None? then Popped(after1.value) else after1;
      if after2.None? then None
      else
        Some(s.(spare1 := if s.spare1.None? then Some([]) else s.spare1,
                spare2 := if s.spare2.None? then Some([]) else s.spare2,
                batch := [], phase := LoopTop))
  }

  /** The test of `_running` at the top of the loop. */
  function Tested(s: Log): Log {
    s.(phase := if s.running then InLoop else Exited)
  }

  /** The effect of a step; None where the source would run into undefined behaviour. */
  function Next(s: Log, step: Step): Option<Log>
    requires Enabled(s, step)
  {
    match step
    case Append(record) => Some(AppendedTo(s, record))
    case Stop => Some(s.(running := false))
    case Test => Some(Tested(s))
    case Rotate => Some(Rotated(s))
    case Trim(notice) => Some(TrimmedTo(s, notice))
    case WriteOne => Some(WroteOne(s))
    case Recycle => Recycled(s)
  }

  /** The part of the batch that is not in the file yet. */
  function Unwritten(s: Log): seq<Text> {
    if s.phase.Writing? && s.phase.written <= |s.batch| then s.batch[s.phase.written..] else s.batch
  }

  /** Everything that is in the file or on its way. */
  function Held(s: Log): Text
    requires s.current.Some?
  {
    s.file + Flatten(Unwritten(s)) + Flatten(s.full) + s.current.value
  }

  /** The part of the batch whose fate is decided and that is not in the file yet. */
  function ToWrite(s: Log): seq<Text> {
    if s.phase.Writing? && s.phase.written <= |s.batch| then s.batch[s.phase.written..] else []
  }

  /** The batch while its fate is undecided. */
  function Undecided(s: Log): seq<Text> {
    if s.phase.Writing? then [] else s.batch
  }

  ghost predicate Shape(s: Log) {
    && s.current.Some? && |s.current.value| <= s.capacity
    && (s.next.Some? ==> s.next.value == [])
    && (s.next.None? ==> s.full != [])
    && (s.spare1.Some? ==> s.spare1.value == [])
    && (s.spare2.Some? ==> s.spare2.value == [])
    && (s.phase.Idle() ==> s.spare1.Some? && s.spare2.Some? && s.batch == [])
    && (!s.phase.Idle() ==> s.spare1.None? && |s.batch| >= 1 && (s.spare2.None? ==> |s.batch| >= 2))
    && (s.phase.Writing? ==> s.phase.written <= |s.batch|)
  }

  /** The file is what the pieces say, and the pieces and what waits are what was appended. */
  ghost predicate Accounted(s: Log) {
    && s.current.Some?
    && Flatten(s.full) + s.current.value == s.past.since
    && s.file + Flatten(ToWrite(s)) == FileText(s.past.pieces)
    && s.past.appended == GivenText(s.past.pieces) + Flatten(Undecided(s)) + s.past.since
  }

  ghost predicate Inv(s: Log) {
    Shape(s) && Accounted(s)
  }

  lemma AppendKeepsInv(s: Log, record: Text)
    requires Inv(s)
    ensures Inv(AppendedTo(s, record))
  {
    hide FileText, GivenText;
    var r := if Fits(s, record) then record else [];
    if |s.current.value| + |record| < s.capacity {
      ConcatAssociative(Flatten(s.full), s.current.value, record);
    } else {
      assert AppendedTo(s, record).current.value == r;
      FlattenSnoc(s.full, s.current.value);
    }
    ConcatAssociative(GivenText(s.past.pieces) + Flatten(Undecided(s)), s.past.since, r);
  }

  lemma RotateKeepsInv(s: Log)
    requires Inv(s) && Enabled(s, Rotate)
    ensures Inv(Rotated(s))
  {
    hide Flatten, FileText, GivenText;
    FlattenNothing<byte>();
    FlattenSnoc(s.full, s.current.value);
    var g := GivenText(s.past.pieces);
    assert g + [] == g && g + s.past.since + [] == g + s.past.since;
  }

  lemma FlattenNothing<T>()
    ensures Flatten<T>([]) == []
  {
  }

  lemma WriteKeepsInv(s: Log)
    requires Inv(s) && Enabled(s, WriteOne)
    ensures Inv(WroteOne(s))
  {
    hide FileText, GivenText;
    var k := s.phase.written;
    assert s.batch[k..] == [s.batch[k]] + s.batch[k + 1..];
    FlattenAppend([s.batch[k]], s.batch[k + 1..]);
    FlattenOne(s.batch[k]);
    ConcatAssociative(s.file, s.batch[k], Flatten(s.batch[k + 1..]));
  }

  lemma CutTexts(notice: Text, kept: Text, dropped: Text)
    ensures FileText([Notice(notice), Kept(kept), Dropped(dropped)]) == notice + kept
    ensures GivenText([Notice(notice), Kept(kept), Dropped(dropped)]) == kept + dropped
  {
    var two := [Kept(kept), Dropped(dropped)];
    PieceIs(Dropped(dropped));
    assert two[1..] == [Dropped(dropped)];
    assert [Notice(notice), Kept(kept), Dropped(dropped)][1..] == two;
    assert kept + [] == kept && [] + (kept + dropped) == kept + dropped;
  }

  /** The texts of a batch's pieces. */
  lemma PiecesOfTexts(batch: seq<Text>, notice: Text)
    ensures GivenText(PiecesOf(batch, notice)) == Flatten(batch)
    ensures FileText(PiecesOf(batch, notice))
      == if |batch| > MAX_BATCH then notice + Flatten(batch[..2]) else Flatten(batch)
  {
    hide Flatten, FileText, GivenText;
    if |batch| > MAX_BATCH {
      CutTexts(notice, Flatten(batch[..2]), Flatten(batch[2..]));
      SplitAt(batch, 2);
      FlattenAppend(batch[..2], batch[2..]);
    } else {
      PieceIs(Kept(Flatten(batch)));
    }
  }

  lemma TrimKeepsInv(s: Log, notice: Text)
    requires Inv(s) && Enabled(s, Trim(notice))
    ensures Inv(TrimmedTo(s, notice))
  {
    hide Flatten, FileText, GivenText, PiecesOf;
    FlattenNothing<byte>();
    PiecesAppend(s.past.pieces, PiecesOf(s.batch, notice));
    PiecesOfTexts(s.batch, notice);
    assert s.batch[0..] == s.batch;
    if |s.batch| > MAX_BATCH {
      assert s.batch[..2][0..] == s.batch[..2];
      ConcatAssociative(s.file, notice, Flatten(s.batch[..2]));
    }
    assert s.file + [] == s.file;
  }

  /** Recycling never pops an empty vector, and both spares are back for the next turn. */
  lemma RecycleNeverEmpty(s: Log)
    requires Inv(s) && Enabled(s, Recycle)
    ensures Recycled(s).Some? && Inv(Recycled(s).value)
  {
    hide Flatten, FileText, GivenText;
    assert s.batch[|s.batch|..] == [];
  }

  lemma StopKeepsInv(s: Log)
    requires Inv(s)
    ensures Inv(s.(running := false))
  {
    hide Flatten;
  }

  lemma TestKeepsInv(s: Log)
    requires Inv(s) && Enabled(s, Test)
    ensures Inv(Tested(s))
  {
    hide Flatten;
  }

  lemma StepKeepsInv(s: Log, step: Step)
    requires Inv(s) && Enabled(s, step)
    ensures Next(s, step).Some? && Inv(Next(s, step).value)
  {
    hide Inv, AppendedTo, Rotated, TrimmedTo, WroteOne, Recycled, Tested;
    match step
    case Append(record) => AppendKeepsInv(s, record);
    case Stop => StopKeepsInv(s);
    case Test => TestKeepsInv(s);
    case Rotate => RotateKeepsInv(s);
    case Trim(notice) => TrimKeepsInv(s, notice);
    case WriteOne => WriteKeepsInv(s);
    case Recycle => RecycleNeverEmpty(s);
  }

  /** A run is a list of steps each of which is enabled and defined. */
  predicate IsRun(s: Log, steps: seq<Step>)
    decreases |steps|
  {
    || steps == []
    || (Enabled(s, steps[0]) && (Next(s, steps[0]).Some? ==> IsRun(Next(s, steps[0]).value, steps[1..])))
  }

  /** None once a step ran into undefined behaviour. */
  function After(s: Log, steps: seq<Step>): Option<Log>
    requires IsRun(s, steps)
    decreases |steps|
  {
    if steps == [] then Some(s)
    else if Next(s, steps[0]).None? then None
    else After(Next(s, steps[0]).value, steps[1..])
  }

  lemma {:induction false} RunKeepsInv(s: Log, steps: seq<Step>)
    requires Inv(s) && IsRun(s, steps)
    ensures After(s, steps).Some? && Inv(After(s, steps).value)
    decreases |steps|
  {
    hide Inv, Enabled, Next;
    if steps != [] {
      StepKeepsInv(s, steps[0]);
      RunKeepsInv(Next(s, steps[0]).value, steps[1..]);
    }
  }

  lemma StartedInv(capacity: nat)
    ensures Inv(Started(capacity))
  {
  }

  /** In a run without cuts everything appended is held, in order. */
  lemma HeldIsAppended(s: Log)
    requires Inv(s) && NoCuts(s.past.pieces)
    ensures Held(s) == s.past.appended
  {
    hide Flatten;
    NoCutsSame(s.past.pieces);
    FlattenNothing<byte>();
    ConcatAssociative(s.file + Flatten(Unwritten(s)), Flatten(s.full), s.current.value);
    assert s.file + [] == s.file;
  }

  /**
   Conservation, over every run: the file and the rest of the batch are the pieces that were
   kept and the notices; the pieces kept and dropped, and what waits behind them, are
   everything that was appended, in order.  With no batch above 25 buffers nothing is missing.
   The spares are empty, and both are there at the top of the loop.
   */
  lemma NothingIsLost(capacity: nat, steps: seq<Step>)
    requires IsRun(Started(capacity), steps)
    ensures var end := After(Started(capacity), steps);
      && end.Some? && end.value.current.Some?
      && end.value.file + Flatten(ToWrite(end.value)) == FileText(end.value.past.pieces)
      && end.value.past.appended == GivenText(end.value.past.pieces)
        + Flatten(Undecided(end.value)) + (Flatten(end.value.full) + end.value.current.value)
      && (NoCuts(end.value.past.pieces) ==> Held(end.value) == end.value.past.appended)
      && (end.value.phase.LoopTop? ==> end.value.spare1 == Some([]) && end.value.spare2 == Some([]))
  {
    StartedInv(capacity);
    RunKeepsInv(Started(capacity), steps);
    var end := After(Started(capacity), steps).value;
    if NoCuts(end.past.pieces) {
      HeldIsAppended(end);
    }
  }

  /** What `appended` counts: exactly the records shorter than a buffer. */
  lemma AppendCounts(s: Log, record: Text)
    requires Inv(s)
    ensures AppendedTo(s, record).past.appended == (if |record| < s.capacity then s.past.appended + record else s.past.appended)
    ensures |record| >= s.capacity ==> Held(AppendedTo(s, record)) == Held(s)
  {
    if |record| >= s.capacity {
      FlattenSnoc(s.full, s.current.value);
      ConcatAssociative(s.file + Flatten(Unwritten(s)), Flatten(s.full), s.current.value);
    }
  }

  /**
   A record that fits the current buffer goes behind what is there, and nothing else changes.
   One that does not fit closes that buffer: it joins the full ones, and the record begins the
   next buffer, or is dropped if it is as long as a buffer.
   */
  lemma AppendRotatesIff(s: Log, record: Text)
    requires Inv(s)
    ensures var t := AppendedTo(s, record);
      && t == s.(current := t.current, next := t.next, full := t.full, past := t.past)
      && if |s.current.value| + |record| < s.capacity
         then t.current == Some(s.current.value + record) && t.full == s.full && t.next == s.next
         else
           && t.full == s.full + [s.current.value] && t.next == None
           && t.current == Some(if |record| < s.capacity then record else [])
  {
    if |record| < s.capacity {
      assert [] + record == record;
    }
  }

  /** The file is only ever extended: by one buffer of the batch, or by the notice of a cut. */
  lemma FileGrows(s: Log, step: Step)
    requires Inv(s) && Enabled(s, step)
    ensures Next(s, step).Some?
    ensures Next(s, step).value.file == s.file + (match step
      case WriteOne => s.batch[s.phase.written]
      case Trim(notice) => if |s.batch| > 25 then notice else []
      case _ => [])
    ensures Next(s, step).value.phase == (match step
      case Test => if s.running then InLoop else Exited
      case Rotate => Taken
      case Trim(_) => Writing(0)
      case WriteOne => Writing(s.phase.written + 1)
      case Recycle => LoopTop
      case _ => s.phase)
    ensures Next(s, step).value.running <==> s.running && !step.Stop?
  {
    hide Flatten, FileText, GivenText, PiecesOf;
    assert s.file + [] == s.file;
    if step.Recycle? {
      RecycleNeverEmpty(s);
    }
  }

  /** A rotation takes every buffer, the current one last, and sets empty ones in their place. */
  lemma RotateTakes(s: Log)
    requires Inv(s) && Enabled(s, Rotate)
    ensures var t := Rotated(s);
      && t.batch == s.full + [s.current.value] && t.full == []
      && t.current == Some([]) && t.next == Some([])
  {
    hide Flatten, FileText, GivenText;
  }

  /** The records of a run that are shorter than a buffer. */
  function KeptOf(capacity: nat, steps: seq<Step>): Text {
    if steps == [] then []
    else (if steps[0].Append? && |steps[0].record| < capacity then steps[0].record else []) + KeptOf(capacity, steps[1..])
  }

  lemma {:induction false} AppendedAreKept(s: Log, steps: seq<Step>)
    requires Inv(s) && IsRun(s, steps)
    ensures After(s, steps).Some?
    ensures After(s, steps).value.past.appended == s.past.appended + KeptOf(s.capacity, steps)
    ensures After(s, steps).value.running <==> s.running && Stop !in steps
    decreases |steps|
  {
    hide Inv, Next, Enabled;
    if steps == [] {
      assert s.past.appended + [] == s.past.appended;
    } else {
      StepKeepsInv(s, steps[0]);
      OneAppended(s, steps[0]);
      FileGrows(s, steps[0]);
      AppendedAreKept(Next(s, steps[0]).value, steps[1..]);
      var kept := if steps[0].Append? && |steps[0].record| < s.capacity then steps[0].record else [];
      ConcatAssociative(s.past.appended, kept, KeptOf(s.capacity, steps[1..]));
      assert Stop in steps <==> steps[0] == Stop || Stop in steps[1..];
    }
  }

  lemma OneAppended(s: Log, step: Step)
    requires Inv(s) && Enabled(s, step) && Next(s, step).Some?
    ensures var t := Next(s, step).value;
      && t.capacity == s.capacity
      && t.past.appended
        == s.past.appended + (if step.Append? && |step.record| < s.capacity then step.record else [])
  {
    hide Flatten, FileText, GivenText, PiecesOf;
    assert s.past.appended + [] == s.past.appended;
  }

  /**
   Over every run, `appended`, of which the other theorems speak, is what the callers gave: all
   records shorter than a buffer, in the order of their critical sections; and the thread is
   out of its loop only after a `stop`.
   */
  lemma AppendedIsGiven(capacity: nat, steps: seq<Step>)
    requires IsRun(Started(capacity), steps)
    ensures var end := After(Started(capacity), steps);
      && end.Some?
      && end.value.past.appended == KeptOf(capacity, steps)
      && (end.value.running <==> Stop !in steps)
      && (end.value.phase.Exited? ==> Stop in steps)
  {
    StartedInv(capacity);
    AppendedAreKept(Started(capacity), steps);
    assert [] + KeptOf(capacity, steps) == KeptOf(capacity, steps);
    ExitNeedsStop(Started(capacity), steps);
  }

  lemma {:induction false} ExitNeedsStop(s: Log, steps: seq<Step>)
    requires Inv(s) && IsRun(s, steps) && (s.phase.Exited? ==> !s.running)
    ensures After(s, steps).Some?
    ensures After(s, steps).value.phase.Exited? ==> !After(s, steps).value.running
    decreases |steps|
  {
    hide Inv, Next, Enabled;
    if steps != [] {
      StepKeepsInv(s, steps[0]);
      FileGrows(s, steps[0]);
      ExitNeedsStop(Next(s, steps[0]).value, steps[1..]);
    }
  }

  /**
   The limit on the batch is exact, each time: up to 25 buffers all is kept; above, exactly the
   third and later ones are dropped, and a notice comes before the first two.
   */
  lemma TrimLosesExactly(s: Log, notice: Text)
    requires Inv(s) && Enabled(s, Trim(notice))
    ensures var t := TrimmedTo(s, notice); var waiting := Flatten(s.full) + s.current.value;
      && (NoCuts(t.past.pieces) <==> NoCuts(s.past.pieces) && |s.batch| <= 25)
      && (|s.batch| <= 25 ==> Held(t) == Held(s))
      && (|s.batch| > 25 ==>
            && Held(s) == s.file + Flatten(s.batch[..2]) + Flatten(s.batch[2..]) + waiting
            && Held(t) == s.file + notice + Flatten(s.batch[..2]) + waiting
            && t.past.pieces == s.past.pieces
              + [Notice(notice), Kept(Flatten(s.batch[..2])), Dropped(Flatten(s.batch[2..]))])
  {
    hide Flatten, FileText, GivenText;
    var t := TrimmedTo(s, notice);
    assert s.batch[0..] == s.batch;
    ConcatAssociative(s.file + Flatten(Unwritten(s)), Flatten(s.full), s.current.value);
    ConcatAssociative(t.file + Flatten(Unwritten(t)), Flatten(s.full), s.current.value);
    CutsAppend(s.past.pieces, PiecesOf(s.batch, notice));
    if |s.batch| > MAX_BATCH {
      SplitAt(s.batch, 2);
      FlattenAppend(s.batch[..2], s.batch[2..]);
      ConcatAssociative(s.file, Flatten(s.batch[..2]), Flatten(s.batch[2..]));
      assert t.batch[0..] == s.batch[..2];
      assert Notice(notice) in PiecesOf(s.batch, notice);
    }
  }

  lemma CutsAppend(a: seq<Piece>, b: seq<Piece>)
    ensures NoCuts(a + b) <==> NoCuts(a) && NoCuts(b)
  {
    assert forall p :: p in a + b <==> p in a || p in b;
  }

  // What is lost when the thread leaves its loop.

  /** The records of a run that were kept since its last rotation; `early` is what was there before. */
  function KeptSince(capacity: nat, early: Text, steps: seq<Step>): Text
    decreases |steps|
  {
    if steps == [] then early else KeptSince(capacity, KeptBy(capacity, early, steps[0]), steps[1..])
  }

  function KeptBy(capacity: nat, early: Text, step: Step): Text {
    match step
    case Append(record) => if |record| < capacity then early + record else early
    case Rotate => []
    case _ => early
  }

  lemma {:induction false} SinceIsKeptSince(s: Log, steps: seq<Step>)
    requires Inv(s) && IsRun(s, steps)
    ensures After(s, steps).Some? && After(s, steps).value.past.since == KeptSince(s.capacity, s.past.since, steps)
    decreases |steps|
  {
    hide Inv;
    if steps != [] {
      assert s.past.since + [] == s.past.since;
      StepKeepsInv(s, steps[0]);
      SinceIsKeptSince(Next(s, steps[0]).value, steps[1..]);
    }
  }

  /** A rotation makes what came before irrelevant, and without one every kept record counts. */
  lemma {:induction false} NothingKeptIff(capacity: nat, early: Text, steps: seq<Step>)
    requires Rotate !in steps
    ensures KeptSince(capacity, early, steps) == [] <==>
      early == [] && forall record | Append(record) in steps :: record == [] || |record| >= capacity
    decreases |steps|
  {
    if steps != [] {
      var first := steps[0];
      var later := if first.Append? && |first.record| < capacity then early + first.record else early;
      assert forall step :: step in steps <==> step == first || step in steps[1..];
      NothingKeptIff(capacity, later, steps[1..]);
    }
  }

  lemma {:induction false} KeptSinceAppend(capacity: nat, early: Text, a: seq<Step>, b: seq<Step>)
    ensures KeptSince(capacity, early, a + b) == KeptSince(capacity, KeptSince(capacity, early, a), b)
    decreases |a|
  {
    if a == [] {
      assert a + b == b;
    } else {
      TailOfConcat(a, b);
      KeptSinceAppend(capacity, KeptBy(capacity, early, a[0]), a[1..], b);
    }
  }

  /**
   When the thread has left its loop, then and at every later moment: the file is the pieces
   that were kept, and the notices; what it lacks is exactly the dropped pieces, and behind
   them the records kept since the last rotation.
   */
  lemma ExitLosesExactly(capacity: nat, steps: seq<Step>)
    requires IsRun(Started(capacity), steps)
    ensures var end := After(Started(capacity), steps);
      && end.Some?
      && (end.value.phase.Exited? ==>
            && end.value.file == FileText(end.value.past.pieces)
            && end.value.past.appended == GivenText(end.value.past.pieces) + KeptSince(capacity, [], steps))
  {
    StartedInv(capacity);
    RunKeepsInv(Started(capacity), steps);
    SinceIsKeptSince(Started(capacity), steps);
    ExitedFile(After(Started(capacity), steps).value);
  }

  lemma ExitedFile(s: Log)
    requires Inv(s)
    ensures s.phase.Exited? ==>
      s.file == FileText(s.past.pieces) && s.past.appended == GivenText(s.past.pieces) + s.past.since
  {
    hide Flatten, FileText, GivenText;
    FlattenNothing<byte>();
    assert s.file + [] == s.file && GivenText(s.past.pieces) + [] == GivenText(s.past.pieces);
  }

  /**
   So if no batch was cut, the file is complete at the exit if and only if since the last
   rotation (or the start) no record was appended that is shorter than a buffer and not empty.
   */
  lemma CompleteAtExitIff(capacity: nat, before: seq<Step>, since: seq<Step>)
    requires before == [] || before[|before| - 1] == Rotate
    requires Rotate !in since && IsRun(Started(capacity), before + since)
    requires var end := After(Started(capacity), before + since);
      end.Some? ==> end.value.phase.Exited? && NoCuts(end.value.past.pieces)
    ensures var end := After(Started(capacity), before + since);
      && end.Some?
      && (end.value.file == end.value.past.appended <==>
            forall record | Append(record) in since :: record == [] || |record| >= capacity)
  {
    hide IsRun, After, Started, NoCuts, KeptSince;
    ExitLosesExactly(capacity, before + since);
    KeptSinceAppend(capacity, [], before, since);
    KeptAfterRotate(capacity, before);
    NothingKeptIff(capacity, [], since);
    NoCutsSame(After(Started(capacity), before + since).value.past.pieces);
  }

  lemma KeptAfterRotate(capacity: nat, before: seq<Step>)
    requires before == [] || before[|before| - 1] == Rotate
    ensures KeptSince(capacity, [], before) == []
  {
    if before != [] {
      var front := before[..|before| - 1];
      assert before == front + [Rotate];
      KeptSinceAppend(capacity, [], front, [Rotate]);
      assert [Rotate][1..] == [];
    }
  }

  lemma RecycledKeeps(s: Log)
    requires Recycled(s).Some?
    ensures var t := Recycled(s).value;
      && t.phase.LoopTop? && t.full == s.full && t.current == s.current && t.next == s.next
      && t.past == s.past && t.file == s.file
  {
  }

  /** What the sections of a turn leave behind, whatever the batch was. */
  lemma TurnTakesAll(s: Log, notice: Text)
    requires Inv(s) && s.phase.InLoop?
    ensures var t := TrimmedTo(Rotated(s), notice);
      && t.full == [] && t.current == Some([]) && t.next.Some? && t.past.appended == s.past.appended && t.past.since == [] && t.phase == Writing(0)
  {
    hide Flatten;
  }

  /**
   The logger object.  A buffer has one owner at a time, so a unique pointer is modelled by
   the text it owns, and a pointer that was moved from by None.
   */
  class AsyncLogger {
    const capacity: nat
    var current: Option<Text>
    var next: Option<Text>
    var full: seq<Text>
    var spare1: Option<Text>
    var spare2: Option<Text>
    var batch: seq<Text>
    var running: bool
    var file: Text
    ghost var phase: Phase
    ghost var past: History

    /** The value this object stands for. */
    ghost function V(): Log
      reads this
    {
      Log(capacity, current, next, full, spare1, spare2, batch, phase, running, file, past)
    }

    constructor (capacity: nat)
      ensures V() == Started(capacity) && Inv(V())
    {
      this.capacity := capacity;
      current, next, spare1, spare2 := Some([]), Some([]), Some([]), Some([]);
      full, batch, running, file := [], [], true, [];
      phase, past := LoopTop, History([], [], []);
      new;
      StartedInv(capacity);
    }

    /** A caller's critical section. */
    method Append(record: Text)
      requires Inv(V())
      modifies this
      ensures V() == AppendedTo(old(V()), record) && Inv(V())
    {
      AppendKeepsInv(V(), record);
      assert current.Some?;
      hide Inv, Flatten, Held;
      ghost var goal := AppendedTo(V(), record);
      past := goal.past;
      if capacity - |current.value| > |record| {
        current := Some(current.value + record);
      } else {
        full := full + [current.value];
        if next.Some? {
          current := next;
          next := None;
        } else {
          current := Some([]);
        }
        current := Some(Appended(current.value, capacity, record));
      }
    }

    /** The loop's condition. */
    method TestRunning() returns (again: bool)
      requires Inv(V()) && phase.LoopTop?
      modifies this`phase
      ensures V() == Tested(old(V())) && Inv(V()) && again == running
    {
      TestKeepsInv(V());
      again := running;
      phase := if running then InLoop else Exited;
    }

    /** The logger thread's critical section. */
    method Rotate()
      requires Inv(V()) && current.Some? && phase.InLoop?
      modifies this
      ensures V() == Rotated(old(V())) && Inv(V()) && phase.Taken?
    {
      RotateKeepsInv(V());
      hide Inv, Flatten, Held;
      ghost var goal := Rotated(V());
      phase, past := Taken, goal.past;
      full := full + [current.value];
      current := spare1;
      spare1 := None;
      batch, full := full, batch;
      SpareNext();
    }

    /** The second spare steps in for a next buffer that was used up. */
    method SpareNext()
      modifies this`next, this`spare2
      ensures next == if old(next).None? then old(spare2) else old(next)
      ensures spare2 == if old(next).None? then None else old(spare2)
    {
      if next.None? {
        next := spare2;
        spare2 := None;
      }
    }

    method Trim(notice: Text)
      requires Inv(V()) && phase.Taken?
      modifies this
      ensures V() == TrimmedTo(old(V()), notice) && Inv(V())
    {
      TrimKeepsInv(V(), notice);
      hide Inv, Flatten, PiecesOf;
      past := past.(pieces := past.pieces + PiecesOf(batch, notice));
      if |batch| > MAX_BATCH {
        file := file + notice;
        batch := batch[..2];
      }
      phase := Writing(0);
    }

    /** The whole batch reaches the file, in order, and nothing else changes. */
    method WriteBatch()
      requires Inv(V()) && phase == Writing(0)
      modifies this
      ensures Inv(V())
      ensures V() == old(V()).(file := old(file) + Flatten(old(batch)), phase := Writing(|old(batch)|))
    {
      hide Inv, Flatten;
      var i := 0;
      FlattenNothing<byte>();
      while i < |batch|
        invariant i <= |batch| && Inv(V())
        invariant V() == old(V()).(file := old(file) + Flatten(batch[..i]), phase := Writing(i))
      {
        WriteKeepsInv(V());
        FlattenSnoc(batch[..i], batch[i]);
        assert batch[..i + 1] == batch[..i] + [batch[i]];
        ConcatAssociative(old(file), Flatten(batch[..i]), batch[i]);
        file := file + batch[i];
        i := i + 1;
        phase := Writing(i);
      }
      assert batch[..|batch|] == batch;
    }

    /** Refill the spares; the vector that is popped is never empty. */
    method Recycle()
      requires Inv(V()) && phase == Writing(|batch|)
      modifies this
      ensures Recycled(old(V())) == Some(V()) && Inv(V())
    {
      hide Accounted, Flatten;
      RecycleNeverEmpty(V());
      if |batch| > 2 {
        batch := batch[..2];
      }
      if spare1.None? {
        assert batch != [];
        batch := batch[..|batch| - 1];
        spare1 := Some([]);
      }
      if spare2.None? {
        assert batch != [];
        batch := batch[..|batch| - 1];
        spare2 := Some([]);
      }
      batch := [];
      phase := LoopTop;
    }

    /** One turn of the thread without appends in between: everything taken is in the file. */
    method Turn(notice: Text)
      requires Inv(V()) && phase.InLoop?
      modifies this
      ensures Inv(V()) && phase.LoopTop? && past.appended == old(past.appended)
      ensures full == [] && current == Some([]) && next.Some?
      ensures NoCuts(past.pieces) ==> file == past.appended
    {
      TurnTakesAll(V(), notice);
      hide Inv, Flatten, Rotated, TrimmedTo, Recycled;
      Rotate();
      Trim(notice);
      WriteBatch();
      ghost var written := V();
      Recycle();
      RecycledKeeps(written);
      if NoCuts(past.pieces) {
        NothingSince(V());
      }
    }
  }

  lemma NothingSince(s: Log)
    requires Inv(s) && s.phase.Idle() && s.past.since == [] && NoCuts(s.past.pieces)
    ensures s.file == s.past.appended
  {
    hide Flatten, FileText, GivenText;
    FlattenNothing<byte>();
    NoCutsSame(s.past.pieces);
    var g := GivenText(s.past.pieces);
    assert s.file + [] == s.file && g + [] == g;
  }
}
