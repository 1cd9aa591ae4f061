/** Re-wrapping the data keys of a workspace: one page of rows at a time, with the cursor carried in the task's step. */
module SecretRewrap {
  import opened Options
  import opened SecretCrypto
  import opened Lexical
  import Decimal

  datatype Row = Row(id: string, secret: string, version: nat, sealed: Sealed, revoked: bool)

  // ---------------------------------------------------------------------------
  // The keyset query
  // ---------------------------------------------------------------------------

  /** Ids increase along the table, as the primary key returns them. */
  ghost predicate Sorted(rows: seq<Row>) {
    forall i, j :: 0 <= i < j < |rows| ==> Less(rows[i].id, rows[j].id)
  }

  predicate AllIds(rows: seq<Row>) {
    forall i :: 0 <= i < |rows| ==> IsIdText(rows[i].id)
  }

  predicate Wanted(r: Row, cursor: Option<string>) {
    !r.revoked && (cursor.Some? ==> Less(cursor.value, r.id))
  }

  /** The positions, from k on, of the unrevoked rows past the cursor. */
  function LiveFrom(rows: seq<Row>, cursor: Option<string>, k: nat): (s: seq<nat>)
    requires k <= |rows|
    ensures forall n :: 0 <= n < |s| ==> k <= s[n] < |rows|
    decreases |rows| - k
  {
    if k == |rows| then []
    else if Wanted(rows[k], cursor) then [k] + LiveFrom(rows, cursor, k + 1)
    else LiveFrom(rows, cursor, k + 1)
  }

  lemma {:induction false} LiveAre(rows: seq<Row>, cursor: Option<string>, k: nat)
    requires k <= |rows|
    ensures forall i :: i in LiveFrom(rows, cursor, k) <==> k <= i < |rows| && Wanted(rows[i], cursor)
    ensures Increasing(LiveFrom(rows, cursor, k))
    decreases |rows| - k
  {
    hide Wanted;
    if k < |rows| {
      LiveAre(rows, cursor, k + 1);
    }
  }

  predicate Increasing(s: seq<nat>) {
    forall i, j :: 0 <= i < j < |s| ==> s[i] < s[j]
  }

  function Live(rows: seq<Row>, cursor: Option<string>): seq<nat> {
    LiveFrom(rows, cursor, 0)
  }

  function Page(rows: seq<Row>, cursor: Option<string>, limit: nat): seq<nat> {
    Live(rows, cursor)[..Min(limit, |Live(rows, cursor)|)]
  }

  lemma PageIncreases(rows: seq<Row>, cursor: Option<string>, limit: nat)
    ensures Increasing(Page(rows, cursor, limit))
  {
    LiveAre(rows, cursor, 0);
  }

  lemma {:induction false} SameElements(s: seq<nat>, t: seq<nat>)
    requires Increasing(s) && Increasing(t) && forall x :: x in s <==> x in t
    ensures s == t
  {
    if s != [] {
      assert s[0] in s;
    }
    if t != [] {
      assert t[0] in t;
    }
    if s != [] && t != [] {
      assert s[0] == t[0];
      forall x
        ensures x in s[1..] <==> x in t[1..]
      {
        assert x in s[1..] <==> x in s && x != s[0];
        assert x in t[1..] <==> x in t && x != t[0];
      }
      SameElements(s[1..], t[1..]);
    }
  }

  /** The next page starts where the last one ended: nothing is seen twice and nothing is skipped. */
  lemma KeysetContinues(rows: seq<Row>, cursor: Option<string>, m: nat)
    requires Sorted(rows) && 0 < m <= |Live(rows, cursor)|
    ensures Live(rows, Some(rows[Live(rows, cursor)[m - 1]].id)) == Live(rows, cursor)[m..]
  {
    hide Wanted, LiveFrom;
    var s := Live(rows, cursor);
    var next := Some(rows[s[m - 1]].id);
    LiveAre(rows, cursor, 0);
    LiveAre(rows, next, 0);
    forall i: nat
      ensures i in Live(rows, next) <==> i in s[m..]
    {
      InRest(s, m, i);
      if i < |rows| {
        assert s[m - 1] in s;
        PastOrNot(rows, cursor, s[m - 1], i);
      }
    }
    SameElements(Live(rows, next), s[m..]);
  }

  lemma InRest(s: seq<nat>, m: nat, i: nat)
    requires Increasing(s) && 0 < m <= |s|
    ensures i in s[m..] <==> i in s && s[m - 1] < i
  {
    if i in s && s[m - 1] < i {
      var n :| 0 <= n < |s| && s[n] == i;
      assert s[m..][n - m] == i;
    }
  }

  /** Past the cursor and past a later row of it is past that row. */
  lemma PastOrNot(rows: seq<Row>, cursor: Option<string>, last: nat, i: nat)
    requires Sorted(rows) && last < |rows| && i < |rows| && Wanted(rows[last], cursor)
    ensures Wanted(rows[i], Some(rows[last].id)) <==> Wanted(rows[i], cursor) && last < i
  {
    var id := rows[last].id;
    if last < i {
      assert Less(id, rows[i].id);
      if cursor.Some? {
        Transitive(cursor.value, id, rows[i].id);
      }
    } else if i < last {
      assert Less(rows[i].id, id);
      LessIsStrict(rows[i].id, id);
    } else if Less(id, id) {
      LessIsStrict(id, id);
    }
  }

  /** Only ids and revocations decide what a query returns. */
  predicate SameShape(s: seq<Row>, t: seq<Row>) {
    |s| == |t| && forall i :: 0 <= i < |s| ==> s[i].(sealed := t[i].sealed) == t[i]
  }

  lemma {:induction false} ShapeDecides(s: seq<Row>, t: seq<Row>, cursor: Option<string>, k: nat)
    requires SameShape(s, t) && k <= |s|
    ensures LiveFrom(s, cursor, k) == LiveFrom(t, cursor, k)
    decreases |s| - k
  {
    if k < |s| {
      assert s[k].(sealed := t[k].sealed) == t[k];
      ShapeDecides(s, t, cursor, k + 1);
    }
  }

  // ---------------------------------------------------------------------------
  // The step that carries cursor and failures
  // ---------------------------------------------------------------------------

  const ID_LENGTH := 36

  predicate IsIdText(s: string) {
    |s| == ID_LENGTH && forall i :: 0 <= i < |s| ==> '0' <= s[i] <= '9' || 'a' <= s[i] <= 'f' || s[i] == '-'
  }

  function Step(id: string, failed: nat): string {
    "after:" + id + "|failed:" + Decimal.Print(failed)
  }

  /** The regular expression of the handler: the cursor and the failures so far. */
  function ParseStep(step: string): Option<(string, nat)> {
    if |step| <= 6 + ID_LENGTH + 8 || step[..6] != "after:" || !IsIdText(step[6..42]) || step[42..50] != "|failed:" ||
       !Decimal.AllDigits(step[50..])
    then None
    else Some((step[6..42], Decimal.Value(step[50..])))
  }

  lemma StepReadsBack(id: string, failed: nat)
    requires IsIdText(id)
    ensures ParseStep(Step(id, failed)) == Some((id, failed))
  {
    var digits := Decimal.Print(failed);
    var step := Step(id, failed);
    assert step[..6] == "after:";
    assert step[6..42] == id;
    assert step[42..50] == "|failed:";
    assert step[50..] == digits;
    Decimal.ReadBack(failed);
  }

  // ---------------------------------------------------------------------------
  // The pass
  // ---------------------------------------------------------------------------

  /** What happens at one row: another pass may re-wrap it first, and the update itself may fail. */
  datatype Turn = Turn(nonce: nat, rival: Option<(Kek, nat)>, fails: bool)

  datatype Verdict = Foreign | UpToDateAlready | Rewrapped | Conflicted | Failed

  datatype Report = Report(scanned: nat, rewrapped: nat, current: nat, foreign: nat, conflicts: nat, failed: nat, next: Option<string>) {

    function Plus(v: Verdict): Report {
      var r := this.(scanned := scanned + 1);
      match v
      case Foreign => r.(foreign := foreign + 1)
      case UpToDateAlready => r.(current := current + 1)
      case Rewrapped => r.(rewrapped := rewrapped + 1)
      case Conflicted => r.(conflicts := conflicts + 1)
      case Failed => r.(failed := failed + 1)
    }

    predicate Balanced() {
      scanned == rewrapped + current + foreign + conflicts + failed
    }
  }

  function Aad(workspace: string, r: Row): string {
    SecretAad(workspace, r.secret, r.version)
  }

  /** The second row reads the same as the first, for everybody: it is the same row, and it holds whatever that held. */
  ghost predicate Reads(workspace: string, book: KeyBook, r: Row, t: Row) {
    && r.(sealed := t.sealed) == t && r.sealed.(dek := t.sealed.dek) == t.sealed
    && forall value :: Holds(book, r.sealed, Aad(workspace, r), value) ==> Holds(book, t.sealed, Aad(workspace, r), value)
  }

  ghost predicate AllRead(workspace: string, book: KeyBook, rows: seq<Row>, later: seq<Row>) {
    |rows| == |later| && forall i :: 0 <= i < |rows| ==> Reads(workspace, book, rows[i], later[i])
  }

  lemma RewrapReads(workspace: string, book: KeyBook, r: Row, k: Kek, nonce: nat)
    requires InBook(book, k) && r.sealed.provider == IdOf(k) && Rewrap(k, r.sealed.dek, Aad(workspace, r), nonce).Some?
    ensures Reads(workspace, book, r, r.(sealed := r.sealed.(dek := Rewrap(k, r.sealed.dek, Aad(workspace, r), nonce).value)))
  {
    forall value | Holds(book, r.sealed, Aad(workspace, r), value)
      ensures Holds(book, r.sealed.(dek := Rewrap(k, r.sealed.dek, Aad(workspace, r), nonce).value), Aad(workspace, r), value)
    {
      RewrapHolds(book, r.sealed, Aad(workspace, r), value, k, nonce);
    }
  }

  /** A rival pass writes only what re-wrapping gives. */
  function Rivalled(workspace: string, r: Row, rival: Option<(Kek, nat)>): Row {
    if rival.None? || r.sealed.provider != IdOf(rival.value.0) then r
    else
      var next := Rewrap(rival.value.0, r.sealed.dek, Aad(workspace, r), rival.value.1);
      if next.None? then r else r.(sealed := r.sealed.(dek := next.value))
  }

  /** The row no longer needs this provider's attention. */
  predicate UpToDate(k: Kek, r: Row) {
    r.sealed.provider == IdOf(k) && k.LocalKeys? ==> r.sealed.dek.keyId == k.keyId
  }

  /** The provider can open the row's data key. */
  predicate Unwraps(k: Kek, workspace: string, r: Row) {
    Unwrap(k, r.sealed.dek, Aad(workspace, r)).Some?
  }

  /** The new box differs from the old one, as a fresh IV makes it. */
  predicate FreshFor(r: Row, nonce: nat) {
    r.sealed.dek.wrapped.Box? ==> r.sealed.dek.wrapped.nonce != nonce
  }

  class Table {
    const workspace: string
    const book: KeyBook
    var rows: seq<Row>

    constructor (workspace: string, book: KeyBook, rows: seq<Row>)
      requires Sorted(rows) && AllIds(rows)
      ensures this.workspace == workspace && this.book == book && this.rows == rows
    {
      this.workspace, this.book, this.rows := workspace, book, rows;
    }

    /** One row of a page. */
    method RewrapRow(i: nat, k: Kek, turn: Turn) returns (v: Verdict)
      requires i < |rows| && InBook(book, k) && (turn.rival.Some? ==> InBook(book, turn.rival.value.0))
      modifies this
      ensures |rows| == |old(rows)| && rows == old(rows)[i := rows[i]] && Reads(workspace, book, old(rows[i]), rows[i])
      ensures v.Foreign? <==> old(rows[i]).sealed.provider != IdOf(k)
      ensures v.Rewrapped? ==>
        Rewrap(k, old(rows[i]).sealed.dek, Aad(workspace, rows[i]), turn.nonce) == Some(rows[i].sealed.dek)
      ensures !v.Failed? && !v.Conflicted? && turn.rival.None? && FreshFor(old(rows[i]), turn.nonce) ==> UpToDate(k, rows[i])
      ensures v.Conflicted? ==> turn.rival.Some?
      ensures !v.Foreign? && !Unwraps(k, workspace, old(rows[i])) && !UpToDate(k, old(rows[i])) ==> v.Failed?
      ensures v.Failed? ==> !UpToDate(k, old(rows[i])) || k.Vault?
      ensures v.Failed? ==> turn.fails || !Unwraps(k, workspace, old(rows[i]))
      ensures v.Rewrapped? ==> UnderCurrent(k, rows[i].sealed.dek) && !turn.fails
      ensures v.Rewrapped? || turn.rival.Some? || rows == old(rows)
      ensures v.UpToDateAlready? && k.LocalKeys? && FreshFor(old(rows[i]), turn.nonce) ==> UpToDate(k, old(rows[i]))
      ensures !v.Foreign? && k.LocalKeys? && UpToDate(k, old(rows[i])) ==> v.UpToDateAlready?
      ensures !v.Foreign? && k.LocalKeys? && !turn.fails && turn.rival.None? && FreshFor(old(rows[i]), turn.nonce) ==>
        (v.Rewrapped? <==> !UpToDate(k, old(rows[i])) && Unwraps(k, workspace, old(rows[i])))
    {
      hide Holds, InBook, SecretAad;
      var row := rows[i];
      if row.sealed.provider != IdOf(k) {
        return Foreign;
      }
      if !NeedsRewrap(k, row.sealed.dek) {
        return UpToDateAlready;
      }
      var next := Rewrap(k, row.sealed.dek, Aad(workspace, row), turn.nonce);
      if next.None? {
        return Failed;
      }
      if next.value.wrapped == row.sealed.dek.wrapped
        || (next.value.keyId == row.sealed.dek.keyId && next.value.version.Some? && next.value.version == row.sealed.dek.version)
      {
        return UpToDateAlready;
      }
      RewrapReads(workspace, book, row, k, turn.nonce);
      v := SwapKey(i, row, next.value, turn);
    }

    /** Compare-and-swap on the wrapped key that was read. */
    method SwapKey(i: nat, row: Row, next: WrappedKey, turn: Turn) returns (v: Verdict)
      requires i < |rows| && row == rows[i] && (turn.rival.Some? ==> InBook(book, turn.rival.value.0))
      requires Reads(workspace, book, row, row.(sealed := row.sealed.(dek := next)))
      modifies this
      ensures |rows| == |old(rows)| && rows == old(rows)[i := rows[i]] && Reads(workspace, book, old(rows[i]), rows[i])
      ensures v.Rewrapped? ==> rows[i].sealed.dek == next
      ensures v.Failed? || v.Rewrapped? || v.Conflicted?
      ensures v.Conflicted? ==> turn.rival.Some?
      ensures v.Failed? <==> turn.fails
      ensures v.Rewrapped? || turn.rival.Some? || rows == old(rows)
    {
      hide Holds, InBook, SecretAad;
      if turn.rival.Some? && row.sealed.provider == IdOf(turn.rival.value.0)
        && Rewrap(turn.rival.value.0, row.sealed.dek, Aad(workspace, row), turn.rival.value.1).Some?
      {
        RewrapReads(workspace, book, row, turn.rival.value.0, turn.rival.value.1);
      }
      rows := rows[i := Rivalled(workspace, row, turn.rival)];
      if turn.fails {
        return Failed;
      }
      if rows[i].sealed.dek.wrapped != row.sealed.dek.wrapped {
        return Conflicted;
      }
      rows := rows[i := rows[i].(sealed := rows[i].sealed.(dek := next))];
      return Rewrapped;
    }

    /** One batch: a page of rows past the cursor, each dealt with once. */
    method RewrapBatch(cursor: Option<string>, batchSize: Option<int>, k: Kek, turns: nat -> Turn) returns (report: Report)
      requires Sorted(rows) && InBook(book, k) && Rivals(book, turns)
      modifies this
      ensures SameShape(old(rows), rows) && AllRead(workspace, book, old(rows), rows)
      ensures var page := Page(old(rows), cursor, BatchOf(batchSize));
        && report.scanned == |page| && report.Balanced()
        && report.next == (if |page| == BatchOf(batchSize) then Some(old(rows)[page[|page| - 1]].id) else None)
        && Untouched(old(rows), rows, page)
        && (report.failed == 0 && report.conflicts == 0 && Undisturbed(old(rows), page, turns) ==> Current(k, rows, page))
    {
      hide InBook, Reads, UpToDate, FreshFor, LiveFrom, Rewrap, AllRead, SameShape, Aad, Untouched, Current;
      var batch := BatchOf(batchSize);
      var page := Page(rows, cursor, batch);
      ghost var before := rows;
      report := Report(0, 0, 0, 0, 0, 0, None);
      NothingDone(workspace, book, rows, k);
      PageIncreases(rows, cursor, batch);
      for n := 0 to |page|
        invariant |rows| == |before| && SameShape(before, rows) && AllRead(workspace, book, before, rows)
        invariant report.scanned == n && report.Balanced() && report.next.None?
        invariant Untouched(before, rows, page[..n])
        invariant report.failed == 0 && report.conflicts == 0 && Undisturbed(before, page, turns) ==> Current(k, rows, page[..n])
      {
        var i := page[n];
        ghost var was := rows;
        NotYet(before, rows, page, n);
        var v := RewrapRow(i, k, turns(i));
        RowDone(workspace, book, before, was, page, n, rows[i], k);
        report := report.Plus(v);
      }
      assert page[..|page|] == page;
      if |page| == batch {
        ShapeKeepsId(before, rows, page[|page| - 1]);
        report := report.(next := Some(rows[page[|page| - 1]].id));
      }
    }

    /** One run of the task: cursor and failures come out of its step and go back into it. */
    method Run(step: string, batchSize: int, k: Kek, turns: nat -> Turn) returns (end: RunEnd, report: Report)
      requires Sorted(rows) && InBook(book, k) && Rivals(book, turns)
      modifies this
      ensures SameShape(old(rows), rows) && AllRead(workspace, book, old(rows), rows)
      ensures var cursor := CursorOf(step);
        var page := Page(old(rows), cursor, BatchOf(Some(batchSize)));
        && report.scanned == |page| && report.Balanced()
        && (end.Deferred? <==> |page| == BatchOf(Some(batchSize)))
        && (end.Deferred? ==> end.step == Step(old(rows)[page[|page| - 1]].id, FailedOf(step) + report.failed))
        && (end.Terminal? ==> 0 < end.failed == FailedOf(step) + report.failed)
        && (end.Completed? ==> FailedOf(step) + report.failed == 0)
        && Untouched(old(rows), rows, page)
        && (report.failed == 0 && report.conflicts == 0 && Undisturbed(old(rows), page, turns) ==> Current(k, rows, page))
    {
      hide InBook, Reads, UpToDate, FreshFor, LiveFrom, ParseStep, Untouched, Current, Undisturbed;
      var m := ParseStep(step);
      var cursor := if m.Some? then Some(m.value.0) else None;
      report := RewrapBatch(cursor, Some(batchSize), k, turns);
      var failed := (if m.Some? then m.value.1 else 0) + report.failed;
      if report.next.Some? {
        end := Deferred(Step(report.next.value, failed));
      } else if failed > 0 {
        end := Terminal(failed);
      } else {
        end := Completed;
      }
    }

    /**
     * The task from its first run to its end. Every unrevoked row is visited once, in order; the failures of all runs
     * decide the end; and an undisturbed pass leaves every row under the current key.
     */
    method RunToEnd(batchSize: int, k: Kek, turns: (nat, nat) -> Turn)
      returns (end: RunEnd, visited: seq<nat>, failed: nat, conflicts: nat)
      requires Sorted(rows) && AllIds(rows) && InBook(book, k) && forall run :: Rivals(book, TurnsOf(turns, run))
      modifies this
      ensures SameShape(old(rows), rows) && AllRead(workspace, book, old(rows), rows)
      ensures visited == Live(old(rows), None) && Untouched(old(rows), rows, visited)
      ensures end == if failed > 0 then Terminal(failed) else Completed
      ensures failed == 0 && conflicts == 0 && AlwaysUndisturbed(old(rows), turns) ==> Current(k, rows, visited)
    {
      hide InBook, Reads, UpToDate, FreshFor, LiveFrom, ParseStep, Untouched, Current, Undisturbed, AllRead, SameShape,
        AlwaysUndisturbed, Step;
      ghost var before := rows;
      NothingDone(workspace, book, rows, k);
      var step, run := "", 0;
      visited, failed, conflicts, end := [], 0, 0, Deferred("");
      FirstStep();
      while end.Deferred?
        invariant Sorted(rows) && AllIds(rows) && SameShape(before, rows) && AllRead(workspace, book, before, rows)
        invariant end.Deferred? ==> end.step == step && failed == FailedOf(step)
        invariant visited + (if end.Deferred? then Live(before, CursorOf(step)) else []) == Live(before, None)
        invariant Untouched(before, rows, visited)
        invariant end.Deferred? || end == if failed > 0 then Terminal(failed) else Completed
        invariant failed == 0 && conflicts == 0 && AlwaysUndisturbed(before, turns) ==> Current(k, rows, visited)
        decreases if end.Deferred? then 1 + |Live(before, CursorOf(step))| else 0
      {
        var was := rows;
        var report;
        end, report := Run(step, batchSize, k, TurnsOf(turns, run));
        var cursor := CursorOf(step);
        var page := Page(was, cursor, BatchOf(Some(batchSize)));
        PageOn(before, was, cursor, BatchOf(Some(batchSize)), visited);
        PassGoesOn(workspace, book, before, was, rows, visited, page, k, turns, run);
        if end.Deferred? {
          StepReadsBack(was[page[|page| - 1]].id, FailedOf(step) + report.failed);
          step := end.step;
        }
        visited, failed, conflicts, run := visited + page, failed + report.failed, conflicts + report.conflicts, run + 1;
      }
    }
  }

  function CursorOf(step: string): Option<string> {
    if ParseStep(step).Some? then Some(ParseStep(step).value.0) else None
  }

  function FailedOf(step: string): nat {
    if ParseStep(step).Some? then ParseStep(step).value.1 else 0
  }

  function BatchOf(batchSize: Option<int>): (n: nat)
    ensures 1 <= n <= 200 && (batchSize.Some? && 1 <= batchSize.value <= 200 ==> n == batchSize.value)
  {
    Min(Max(batchSize.Or(50), 1), 200)
  }

  ghost predicate Rivals(book: KeyBook, turns: nat -> Turn) {
    forall i :: turns(i).rival.Some? ==> InBook(book, turns(i).rival.value.0)
  }

  /** Nobody else re-wraps meanwhile, and every IV is fresh. */
  ghost predicate Undisturbed(rows: seq<Row>, page: seq<nat>, turns: nat -> Turn) {
    forall i :: 0 <= i < |rows| && i in page ==> turns(i).rival.None? && FreshFor(rows[i], turns(i).nonce)
  }

  ghost predicate AlwaysUndisturbed(rows: seq<Row>, turns: (nat, nat) -> Turn) {
    forall run: nat, i: nat :: i < |rows| ==> turns(run, i).rival.None? && FreshFor(rows[i], turns(run, i).nonce)
  }

  function TurnsOf(turns: (nat, nat) -> Turn, run: nat): nat -> Turn {
    (i: nat) => turns(run, i)
  }

  datatype RunEnd = Deferred(step: string) | Terminal(failed: nat) | Completed

  ghost predicate Untouched(rows: seq<Row>, later: seq<Row>, page: seq<nat>) {
    |later| == |rows| && forall i :: 0 <= i < |rows| && i !in page ==> later[i] == rows[i]
  }

  ghost predicate Current(k: Kek, rows: seq<Row>, page: seq<nat>) {
    forall n :: 0 <= n < |page| ==> page[n] < |rows| && UpToDate(k, rows[page[n]])
  }

  lemma NothingDone(workspace: string, book: KeyBook, rows: seq<Row>, k: Kek)
    ensures AllRead(workspace, book, rows, rows) && SameShape(rows, rows) && Untouched(rows, rows, []) && Current(k, rows, [])
  {
  }

  lemma NotYet(before: seq<Row>, rows: seq<Row>, page: seq<nat>, n: nat)
    requires Increasing(page) && n < |page| && page[n] < |before| && Untouched(before, rows, page[..n])
    ensures rows[page[n]] == before[page[n]]
  {
  }

  lemma ShapeKeepsId(before: seq<Row>, rows: seq<Row>, i: nat)
    requires SameShape(before, rows) && i < |rows|
    ensures rows[i].id == before[i].id
  {
    assert before[i].(sealed := rows[i].sealed) == rows[i];
  }

  lemma RowDone(workspace: string, book: KeyBook, before: seq<Row>, rows: seq<Row>, page: seq<nat>, n: nat, row: Row, k: Kek)
    requires Increasing(page) && n < |page| && page[n] < |before|
    requires SameShape(before, rows) && AllRead(workspace, book, before, rows) && Untouched(before, rows, page[..n])
    requires Reads(workspace, book, before[page[n]], row)
    ensures var after := rows[page[n] := row];
      && SameShape(before, after) && AllRead(workspace, book, before, after) && Untouched(before, after, page[..n + 1])
      && (Current(k, rows, page[..n]) && UpToDate(k, row) ==> Current(k, after, page[..n + 1]))
  {
    hide Holds, Aad, UpToDate;
    assert page[..n + 1] == page[..n] + [page[n]];
  }

  lemma FirstStep()
    ensures CursorOf("") == None && FailedOf("") == 0
  {
  }

  /** A page continues what was visited; a full one leaves less to visit, and a short one leaves nothing. */
  lemma PageOn(before: seq<Row>, was: seq<Row>, cursor: Option<string>, limit: nat, visited: seq<nat>)
    requires SameShape(before, was) && Sorted(was) && limit > 0 && visited + Live(before, cursor) == Live(before, None)
    ensures var page := Page(was, cursor, limit);
      && Increasing(visited + page) && (forall n :: 0 <= n < |page| ==> page[n] < |before|)
      && (if |page| == limit
          then var rest := Live(before, Some(was[page[|page| - 1]].id));
            visited + page + rest == Live(before, None) && |rest| < |Live(before, cursor)|
          else visited + page == Live(before, None))
  {
    hide LiveFrom, Increasing, Wanted, SameShape, Sorted;
    var page := Page(was, cursor, limit);
    var live := Live(was, cursor);
    var m := |page|;
    ShapeDecides(before, was, cursor, 0);
    LiveAre(before, None, 0);
    PrefixGoesOn(Live(before, None), visited, live, m);
    SameLength(before, was);
    if m == limit {
      LastOfPage(was, cursor, limit);
      RestAfterPage(before, was, cursor, m);
    }
  }

  lemma SameLength(before: seq<Row>, was: seq<Row>)
    requires SameShape(before, was)
    ensures |before| == |was|
  {
  }

  lemma LastOfPage(was: seq<Row>, cursor: Option<string>, limit: nat)
    requires 0 < limit == |Page(was, cursor, limit)|
    ensures limit <= |Live(was, cursor)| && Page(was, cursor, limit)[limit - 1] == Live(was, cursor)[limit - 1]
  {
  }

  lemma RestAfterPage(before: seq<Row>, was: seq<Row>, cursor: Option<string>, m: nat)
    requires SameShape(before, was) && Sorted(was) && 0 < m <= |Live(was, cursor)|
    ensures Live(before, Some(was[Live(was, cursor)[m - 1]].id)) == Live(was, cursor)[m..]
  {
    hide LiveFrom, Wanted;
    KeysetContinues(was, cursor, m);
    ShapeDecides(before, was, Some(was[Live(was, cursor)[m - 1]].id), 0);
  }

  lemma PrefixGoesOn(all: seq<nat>, visited: seq<nat>, live: seq<nat>, m: nat)
    requires Increasing(all) && visited + live == all && m <= |live|
    ensures Increasing(visited + live[..m]) && visited + live[..m] + live[m..] == all
    ensures m == |live| ==> live[..m] == live
  {
    assert visited + live[..m] == all[..|visited| + m];
  }

  /** One more page after the rows already visited. */
  lemma PassGoesOn(workspace: string, book: KeyBook, before: seq<Row>, was: seq<Row>, rows: seq<Row>,
                   visited: seq<nat>, page: seq<nat>, k: Kek, turns: (nat, nat) -> Turn, run: nat)
    requires SameShape(before, was) && SameShape(was, rows) && Sorted(was) && AllIds(was)
    requires AllRead(workspace, book, before, was) && AllRead(workspace, book, was, rows)
    requires Untouched(before, was, visited) && Untouched(was, rows, page) && Increasing(visited + page)
    ensures SameShape(before, rows) && AllRead(workspace, book, before, rows) && Sorted(rows) && AllIds(rows)
    ensures Untouched(before, rows, visited + page)
    ensures Current(k, was, visited) && Current(k, rows, page) ==> Current(k, rows, visited + page)
    ensures (forall n :: 0 <= n < |page| ==> page[n] < |before|) && AlwaysUndisturbed(before, turns) ==>
      Undisturbed(was, page, TurnsOf(turns, run))
  {
    hide Holds, Aad, UpToDate, FreshFor, Less, IsIdText;
    var all := visited + page;
    forall i | i in page
      ensures i !in visited
    {
      var m :| 0 <= m < |page| && page[m] == i;
      assert all[|visited| + m] == i;
      assert forall n :: 0 <= n < |visited| ==> all[n] == visited[n];
    }
    assert forall n :: 0 <= n < |visited| ==> visited[n] in visited;
  }
}
