/**
 Cache-aside reads of completed tickets, on top of the classification protocol and a clock.
 A read that misses copies the committed row and stores the copy later; an entry lives for
 its time to live.
 */
module CachedReads {
  import opened Domain
  import opened Access
  import opened Protocol
  import opened ProtocolSafety
  import opened ProtocolRuns

  datatype CacheEntry = CacheEntry(row: Row, expires: nat)

  /** A read that copied the row and has yet to store it; finished reads stay on record. */
  datatype Reader = Reader(ticket: TicketId, row: Row, readAt: nat, waiting: bool)

  datatype World = World(
    core: State,
    now: nat,
    cache: map<TicketId, CacheEntry>,
    readers: seq<Reader>)

  /** A read of the row happens after a miss, or after a failed query of the cache. */
  datatype Move =
    | Core(a: Action)
    | Tick(seconds: nat)
    | ReadRow(t: TicketId)
    | SetCache(n: nat)
    | Evict(t: TicketId)

  /** What the cache answers now. */
  function Lookup(w: World, t: TicketId): Option<Row> {
    if t in w.cache && w.now < w.cache[t].expires then Some(w.cache[t].row) else None
  }

  predicate Allowed(cfg: Settings, w: World, m: Move) {
    match m
    case Core(a) => Enabled(cfg, w.core, a)
    case Tick(_) => true
    case ReadRow(t) => t in w.core.db.rows && w.core.db.rows[t].status == Complete
    case SetCache(n) => n < |w.readers| && w.readers[n].waiting
    case Evict(_) => true
  }

  function MoveTo(cfg: Settings, ttl: nat, w: World, m: Move): World
    requires ValidSettings(cfg) && Allowed(cfg, w, m)
  {
    match m
    case Core(a) => w.(core := Apply(cfg, w.core, a))
    case Tick(seconds) => w.(now := w.now + seconds)
    case ReadRow(t) => w.(readers := w.readers + [Reader(t, w.core.db.rows[t], w.now, true)])
    case SetCache(n) =>
      var reader := w.readers[n];
      w.(readers := w.readers[n := reader.(waiting := false)],
         cache := w.cache[reader.ticket := CacheEntry(reader.row, w.now + ttl)])
    case Evict(t) => w.(cache := w.cache - {t})
  }

  const START := World(INIT, 0, map[], [])

  ghost predicate CachedBehaviour(cfg: Settings, ttl: nat, trace: seq<World>, moves: seq<Move>)
    requires ValidSettings(cfg)
  {
    && |trace| == |moves| + 1
    && trace[0] == START
    && forall i :: 0 <= i < |moves| ==> Allowed(cfg, trace[i], moves[i]) && trace[i + 1] == MoveTo(cfg, ttl, trace[i], moves[i])
  }

  lemma {:induction false} WorldInvariant(cfg: Settings, ttl: nat, trace: seq<World>, moves: seq<Move>, i: nat)
    requires ValidSettings(cfg) && CachedBehaviour(cfg, ttl, trace, moves) && i <= |moves|
    ensures Invariant(cfg, trace[i].core)
  {
    if i > 0 {
      hide Invariant, Apply, Enabled;
      WorldInvariant(cfg, ttl, trace, moves, i - 1);
      if moves[i - 1].Core? {
        InvariantStep(cfg, trace[i - 1].core, moves[i - 1].a);
      }
    } else {
      InvariantAlways(cfg, [INIT], [], 0);
    }
  }

  lemma MoveAt(cfg: Settings, ttl: nat, trace: seq<World>, moves: seq<Move>, j: nat)
    requires ValidSettings(cfg) && CachedBehaviour(cfg, ttl, trace, moves) && j < |moves|
    ensures Allowed(cfg, trace[j], moves[j]) && trace[j + 1] == MoveTo(cfg, ttl, trace[j], moves[j])
    ensures LockDiscipline(cfg, trace[j].core)
  {
    WorldInvariant(cfg, ttl, trace, moves, j);
  }

  lemma {:induction false} ClockGoesOn(cfg: Settings, ttl: nat, trace: seq<World>, moves: seq<Move>, i: nat, j: nat)
    requires ValidSettings(cfg) && CachedBehaviour(cfg, ttl, trace, moves) && i <= j <= |moves|
    ensures trace[i].now <= trace[j].now
  {
    if i == j {
    } else {
      ClockGoesOn(cfg, ttl, trace, moves, i, j - 1);
    }
  }

  // ---------- where a cached value comes from ----------

  /** A waiting reader holds the row that was committed when it queried. */
  lemma {:induction false} ReaderProvenance(cfg: Settings, ttl: nat, trace: seq<World>, moves: seq<Move>, j: nat, n: nat)
    returns (i: nat)
    requires ValidSettings(cfg) && CachedBehaviour(cfg, ttl, trace, moves) && j <= |moves| && n < |trace[j].readers|
    ensures var reader := trace[j].readers[n];
            && i < j && moves[i] == ReadRow(reader.ticket) && |trace[i].readers| == n
            && reader.ticket in trace[i].core.db.rows && trace[i].now == reader.readAt
            && trace[i].core.db.rows[reader.ticket] == reader.row && reader.row.status == Complete
  {
    hide Apply, Enabled;
    var w := trace[j - 1];
    assert trace[j] == MoveTo(cfg, ttl, w, moves[j - 1]);
    if n < |w.readers| {
      i := ReaderProvenance(cfg, ttl, trace, moves, j - 1, n);
    } else {
      i := j - 1;
    }
  }

  /**
   Whatever the cache answers at step j is the complete row that a read copied at an earlier step i;
   that same read stored it at a step k in between, less than one time to live ago.
   */
  lemma {:induction false} CachedValuesAreRecent(cfg: Settings, ttl: nat, trace: seq<World>, moves: seq<Move>, j: nat, t: TicketId)
    returns (i: nat, k: nat)
    requires ValidSettings(cfg) && CachedBehaviour(cfg, ttl, trace, moves) && j <= |moves|
    requires Lookup(trace[j], t).Some?
    ensures i < k < j && moves[i] == ReadRow(t) && moves[k] == SetCache(|trace[i].readers|)
    ensures |trace[i].readers| < |trace[k].readers| && trace[k].readers[|trace[i].readers|].readAt == trace[i].now
    ensures t in trace[i].core.db.rows && trace[i].core.db.rows[t].status == Complete
    ensures Lookup(trace[j], t) == Some(trace[i].core.db.rows[t])
    ensures trace[j].now < trace[j].cache[t].expires == trace[k].now + ttl
  {
    hide Apply, Enabled;
    var w, m := trace[j - 1], moves[j - 1];
    assert trace[j] == MoveTo(cfg, ttl, w, m);
    if m.SetCache? && w.readers[m.n].ticket == t {
      k := j - 1;
      i := ReaderProvenance(cfg, ttl, trace, moves, k, m.n);
    } else {
      assert t in w.cache && trace[j].cache[t] == w.cache[t] && w.now <= trace[j].now;
      i, k := CachedValuesAreRecent(cfg, ttl, trace, moves, j - 1, t);
    }
  }

  /** A stored row is answered until its time to live is over or it is evicted. */
  lemma StoredRowsAreAnswered(cfg: Settings, ttl: nat, w: World, n: nat, seconds: nat)
    requires ValidSettings(cfg) && Allowed(cfg, w, SetCache(n))
    ensures var t := w.readers[n].ticket;
            var later := MoveTo(cfg, ttl, MoveTo(cfg, ttl, w, SetCache(n)), Tick(seconds));
            && Lookup(later, t) == (if seconds < ttl then Some(w.readers[n].row) else None)
            && Lookup(MoveTo(cfg, ttl, later, Evict(t)), t) == None
            && forall u :: u != t ==> Lookup(MoveTo(cfg, ttl, later, Evict(t)), u) == Lookup(later, u)
  {
  }

  // ---------- cached reads and direct reads ----------

  /** An agent or administrator commits an edit that changes the ticket. */
  predicate EffectiveEdit(w: World, m: Move, t: TicketId) {
    && m.Core? && m.a.CommitEdit? && m.a.e < |w.core.edits|
    && var edit := w.core.edits[m.a.e];
       edit.ticket == t && EditedRow(edit.mine, edit.kind) != edit.mine
  }

  lemma StepKeepsCompleteRow(cfg: Settings, ttl: nat, w: World, m: Move, t: TicketId)
    requires ValidSettings(cfg) && Allowed(cfg, w, m) && LockDiscipline(cfg, w.core)
    requires t in w.core.db.rows && w.core.db.rows[t].status == Complete && !EffectiveEdit(w, m, t)
    ensures var rows' := MoveTo(cfg, ttl, w, m).core.db.rows;
            t in rows' && rows'[t] == w.core.db.rows[t]
  {
    if m.Core? {
      if m.a.CommitEdit? && w.core.edits[m.a.e].ticket == t {
        EditIsAtomic(cfg, w.core, m.a.e);
        assert w.core.edits[m.a.e].mine == w.core.db.rows[t];
      } else {
        WorkersKeepCompleteRows(cfg, w.core, m.a, t);
      }
    }
  }

  lemma MoveKeepsCompleteRow(cfg: Settings, ttl: nat, trace: seq<World>, moves: seq<Move>, j: nat, t: TicketId)
    requires ValidSettings(cfg) && CachedBehaviour(cfg, ttl, trace, moves) && j < |moves|
    requires t in trace[j].core.db.rows && trace[j].core.db.rows[t].status == Complete
    requires !EffectiveEdit(trace[j], moves[j], t)
    ensures t in trace[j + 1].core.db.rows && trace[j + 1].core.db.rows[t] == trace[j].core.db.rows[t]
  {
    hide MoveTo, Allowed, EffectiveEdit, LockDiscipline;
    MoveAt(cfg, ttl, trace, moves, j);
    StepKeepsCompleteRow(cfg, ttl, trace[j], moves[j], t);
  }

  /** A complete row stays as it is until an edit changes it. */
  lemma {:induction false} CompleteRowLasts(cfg: Settings, ttl: nat, trace: seq<World>, moves: seq<Move>, i: nat, j: nat, t: TicketId)
    requires ValidSettings(cfg) && CachedBehaviour(cfg, ttl, trace, moves) && i <= j <= |moves|
    requires t in trace[i].core.db.rows && trace[i].core.db.rows[t].status == Complete
    requires forall e :: i <= e < j ==> !EffectiveEdit(trace[e], moves[e], t)
    ensures t in trace[j].core.db.rows && trace[j].core.db.rows[t] == trace[i].core.db.rows[t]
  {
    if i == j {
    } else {
      hide CachedBehaviour, EffectiveEdit;
      CompleteRowLasts(cfg, ttl, trace, moves, i, j - 1, t);
      MoveKeepsCompleteRow(cfg, ttl, trace, moves, j - 1, t);
    }
  }

  /** At this moment a read of the ticket answers the same with the cache as without it. */
  ghost predicate Agrees(w: World, t: TicketId) {
    Lookup(w, t).Some? ==> t in w.core.db.rows && Lookup(w, t) == Some(w.core.db.rows[t])
  }

  /**
   A cached answer was read at some step i, and as long as no edit changed the ticket since then,
   it is what a direct read would answer.
   */
  lemma CachedReadsAreDirectReads(cfg: Settings, ttl: nat, trace: seq<World>, moves: seq<Move>, j: nat, t: TicketId)
    returns (i: nat)
    requires ValidSettings(cfg) && CachedBehaviour(cfg, ttl, trace, moves) && j <= |moves|
    requires Lookup(trace[j], t).Some?
    ensures i < j && moves[i] == ReadRow(t)
    ensures (forall e :: i <= e < j ==> !EffectiveEdit(trace[e], moves[e], t)) ==> Agrees(trace[j], t)
  {
    var k;
    i, k := CachedValuesAreRecent(cfg, ttl, trace, moves, j, t);
    if forall e :: i <= e < j ==> !EffectiveEdit(trace[e], moves[e], t) {
      CompleteRowLasts(cfg, ttl, trace, moves, i, j, t);
    }
  }

  /**
   An edit that changes a ticket while a live entry holds its row leaves the cache answering the
   old row at once, since edits do not invalidate it.
   */
  lemma EditsLeaveStaleEntries(cfg: Settings, ttl: nat, w: World, e: EditId, t: TicketId)
    requires ValidSettings(cfg) && LockDiscipline(cfg, w.core)
    requires e < |w.core.edits| && w.core.edits[e].open && EffectiveEdit(w, Core(CommitEdit(e)), t)
    requires t in w.core.db.rows && Lookup(w, t) == Some(w.core.db.rows[t])
    ensures !Agrees(MoveTo(cfg, ttl, w, Core(CommitEdit(e))), t)
  {
    EditIsAtomic(cfg, w.core, e);
  }

  /**
   So does one that changes it while a read is still waiting to store the row: the read then puts
   the old row into the cache, whether or not there was an entry before.
   */
  lemma EditsOvertakeReaders(cfg: Settings, ttl: nat, w: World, e: EditId, n: nat)
    requires ValidSettings(cfg) && LockDiscipline(cfg, w.core) && 1 <= ttl
    requires n < |w.readers| && w.readers[n].waiting
    requires var t := w.readers[n].ticket;
             && e < |w.core.edits| && w.core.edits[e].open && EffectiveEdit(w, Core(CommitEdit(e)), t)
             && t in w.core.db.rows && w.readers[n].row == w.core.db.rows[t]
    ensures var w' := MoveTo(cfg, ttl, w, Core(CommitEdit(e)));
            Allowed(cfg, w', SetCache(n)) && !Agrees(MoveTo(cfg, ttl, w', SetCache(n)), w.readers[n].ticket)
  {
    EditIsAtomic(cfg, w.core, e);
  }

  // ---------- how long an edit can go unnoticed ----------

  /** Every read stores its row within the given time. */
  ghost predicate Prompt(trace: seq<World>, moves: seq<Move>, delay: nat)
    requires |moves| < |trace|
  {
    forall k :: 0 <= k < |moves| && moves[k].SetCache? && moves[k].n < |trace[k].readers| ==>
      trace[k].now <= trace[k].readers[moves[k].n].readAt + delay
  }

  /** With prompt reads, whatever the cache answers was the row less than a time to live plus the delay ago. */
  lemma CachedValuesAreBounded(cfg: Settings, ttl: nat, delay: nat, trace: seq<World>, moves: seq<Move>, j: nat, t: TicketId)
    returns (i: nat)
    requires ValidSettings(cfg) && CachedBehaviour(cfg, ttl, trace, moves) && j <= |moves|
    requires Prompt(trace, moves, delay) && Lookup(trace[j], t).Some?
    ensures i < j && trace[j].now < trace[i].now + delay + ttl
    ensures t in trace[i].core.db.rows && trace[i].core.db.rows[t].status == Complete
    ensures Lookup(trace[j], t) == Some(trace[i].core.db.rows[t])
  {
    hide MoveTo, Allowed;
    var k;
    i, k := CachedValuesAreRecent(cfg, ttl, trace, moves, j, t);
  }

  /** No edit changed the ticket in the given time before step j. */
  ghost predicate Quiet(trace: seq<World>, moves: seq<Move>, j: nat, t: TicketId, gap: nat)
    requires |moves| < |trace| && j <= |moves|
  {
    forall e :: 0 <= e < j && EffectiveEdit(trace[e], moves[e], t) ==> trace[e].now + gap <= trace[j].now
  }

  /** In every run with prompt reads, a ticket that was quiet for so long is answered as a direct read would. */
  ghost predicate AgreesAfter(cfg: Settings, ttl: nat, delay: nat, gap: nat)
    requires ValidSettings(cfg)
  {
    forall trace: seq<World>, moves: seq<Move>, j: nat, t: TicketId ::
      (&& CachedBehaviour(cfg, ttl, trace, moves) && j <= |moves|
       && Prompt(trace, moves, delay) && Quiet(trace, moves, j, t, gap))
      ==> Agrees(trace[j], t)
  }

  lemma QuietMeansAgreement(cfg: Settings, ttl: nat, delay: nat, gap: nat, trace: seq<World>, moves: seq<Move>, j: nat, t: TicketId)
    requires ValidSettings(cfg) && CachedBehaviour(cfg, ttl, trace, moves) && j <= |moves|
    requires Prompt(trace, moves, delay) && Quiet(trace, moves, j, t, gap) && ttl + delay <= gap
    ensures Agrees(trace[j], t)
  {
    if Lookup(trace[j], t).Some? {
      hide EffectiveEdit, MoveTo, Allowed;
      var i := CachedValuesAreBounded(cfg, ttl, delay, trace, moves, j, t);
      forall e | i <= e < j
        ensures !EffectiveEdit(trace[e], moves[e], t)
      {
        ClockGoesOn(cfg, ttl, trace, moves, i, e);
      }
      CompleteRowLasts(cfg, ttl, trace, moves, i, j, t);
    }
  }

  // ---------- a run with a stale answer ----------

  const OPENED := NewRow("title", "description", 0, None)
  const CLOSED := OPENED.(status := Complete)
  const REOPENED := CLOSED.(status := Pending)

  /** The core of the run after its edits: an agent closes the only ticket, and another reopens it. */
  function StaleCore(row: Row, edits: seq<Edit>, locks: map<TicketId, Owner>, edited: set<TicketId>): State {
    State(Shared(map[1 := row], locks, []), [], edits, map[], [], edited, {}, {}, {})
  }

  const CLOSE := Edit(1, SetStatus(Complete), OPENED, true)
  const REOPEN := Edit(1, SetStatus(Pending), CLOSED, true)

  /**
   The ticket is created and closed, a read copies it, the ticket is reopened, the read stores its
   copy as late as it may, and another read asks as late as the entry lives.
   */
  function StaleMoves(ttl: nat, delay: nat): seq<Move>
    requires 1 <= ttl
  {
    [Core(CreateTicket(1, "title", "description", 0, None)), Core(OpenEdit(1, SetStatus(Complete))), Core(CommitEdit(0)),
     ReadRow(1), Core(OpenEdit(1, SetStatus(Pending))), Core(CommitEdit(1)),
     Tick(delay), SetCache(0), Tick(ttl - 1)]
  }

  function StaleTrace(ttl: nat, delay: nat): seq<World>
    requires 1 <= ttl
  {
    var closed, reopened := [CLOSE.(open := false)], [CLOSE.(open := false), REOPEN.(open := false)];
    var reader := Reader(1, CLOSED, 0, true);
    var last := StaleCore(REOPENED, reopened, map[], {1});
    var cache := map[1 := CacheEntry(CLOSED, delay + ttl)];
    [START,
     World(StaleCore(OPENED, [], map[], {}), 0, map[], []),
     World(StaleCore(OPENED, [CLOSE], map[1 := ByEdit(0)], {}), 0, map[], []),
     World(StaleCore(CLOSED, closed, map[], {1}), 0, map[], []),
     World(StaleCore(CLOSED, closed, map[], {1}), 0, map[], [reader]),
     World(StaleCore(CLOSED, closed + [REOPEN], map[1 := ByEdit(1)], {1}), 0, map[], [reader]),
     World(last, 0, map[], [reader]),
     World(last, delay, map[], [reader]),
     World(last, delay, cache, [reader.(waiting := false)]),
     World(last, delay + (ttl - 1), cache, [reader.(waiting := false)])]
  }

  ghost predicate StaleStep(cfg: Settings, ttl: nat, delay: nat, i: nat)
    requires ValidSettings(cfg) && 1 <= ttl && i < 9
  {
    var w, m, w' := StaleTrace(ttl, delay)[i], StaleMoves(ttl, delay)[i], StaleTrace(ttl, delay)[i + 1];
    Allowed(cfg, w, m) && w' == MoveTo(cfg, ttl, w, m)
  }

  /** Opening an edit on the only ticket, and committing it. */
  lemma EditingTheTicket(row: Row, edits: seq<Edit>, edited: set<TicketId>, status: Status)
    ensures var edit := Edit(1, SetStatus(status), row, true);
            var locked := StaleCore(row, edits + [edit], map[1 := ByEdit(|edits|)], edited);
            && AfterOpen(StaleCore(row, edits, map[], edited), 1, SetStatus(status)) == locked
            && AfterEdit(locked, |edits|, true)
               == StaleCore(row.(status := status), edits + [edit.(open := false)], map[], edited + {1})
  {
    var edit := Edit(1, SetStatus(status), row, true);
    assert (edits + [edit])[|edits| := edit.(open := false)] == edits + [edit.(open := false)];
    assert map[1 := ByEdit(|edits|)] - {1} == map[];
  }

  lemma TicketIsCreated(cfg: Settings, ttl: nat, delay: nat)
    requires ValidSettings(cfg) && 1 <= ttl
    ensures StaleStep(cfg, ttl, delay, 0)
  {
    assert AfterCreate(INIT, 1, OPENED) == StaleCore(OPENED, [], map[], {});
  }

  lemma TicketIsClosed(cfg: Settings, ttl: nat, delay: nat)
    requires ValidSettings(cfg) && 1 <= ttl
    ensures StaleStep(cfg, ttl, delay, 1) && StaleStep(cfg, ttl, delay, 2)
  {
    hide AfterOpen, AfterEdit;
    EditingTheTicket(OPENED, [], {}, Complete);
    assert [] + [CLOSE] == [CLOSE] && {} + {1 as TicketId} == {1};
  }

  lemma TicketIsReopened(cfg: Settings, ttl: nat, delay: nat)
    requires ValidSettings(cfg) && 1 <= ttl
    ensures StaleStep(cfg, ttl, delay, 3) && StaleStep(cfg, ttl, delay, 4) && StaleStep(cfg, ttl, delay, 5)
  {
    hide AfterOpen, AfterEdit;
    EditingTheTicket(CLOSED, [CLOSE.(open := false)], {1}, Pending);
  }

  lemma CopyIsStored(cfg: Settings, ttl: nat, delay: nat)
    requires ValidSettings(cfg) && 1 <= ttl
    ensures StaleStep(cfg, ttl, delay, 6) && StaleStep(cfg, ttl, delay, 7) && StaleStep(cfg, ttl, delay, 8)
  {
    var trace, moves := StaleTrace(ttl, delay), StaleMoves(ttl, delay);
    assert trace[7] == MoveTo(cfg, ttl, trace[6], moves[6]);
    assert trace[8] == MoveTo(cfg, ttl, trace[7], moves[7]);
    assert trace[9] == MoveTo(cfg, ttl, trace[8], moves[8]);
  }

  lemma StaleRunIsPossible(cfg: Settings, ttl: nat, delay: nat)
    requires ValidSettings(cfg) && 1 <= ttl
    ensures CachedBehaviour(cfg, ttl, StaleTrace(ttl, delay), StaleMoves(ttl, delay))
  {
    hide Apply, Enabled;
    var trace, moves := StaleTrace(ttl, delay), StaleMoves(ttl, delay);
    TicketIsCreated(cfg, ttl, delay);
    TicketIsClosed(cfg, ttl, delay);
    TicketIsReopened(cfg, ttl, delay);
    CopyIsStored(cfg, ttl, delay);
    forall i | 0 <= i < 9
      ensures Allowed(cfg, trace[i], moves[i]) && trace[i + 1] == MoveTo(cfg, ttl, trace[i], moves[i])
    {
      assert StaleStep(cfg, ttl, delay, i);
    }
  }

  /** A run of the system that ends with a stale answer, ttl + delay - 1 seconds after the last edit. */
  lemma StaleRun(cfg: Settings, ttl: nat, delay: nat)
    requires ValidSettings(cfg) && 1 <= ttl
    ensures var trace, moves := StaleTrace(ttl, delay), StaleMoves(ttl, delay);
            && CachedBehaviour(cfg, ttl, trace, moves) && Prompt(trace, moves, delay)
            && Quiet(trace, moves, 9, 1, ttl + delay - 1)
            && !Agrees(trace[9], 1)
  {
    StaleRunIsPossible(cfg, ttl, delay);
    hide CachedBehaviour;
  }

  /**
   A time to live plus the delay of a read is exactly how long an edit can go unnoticed: tickets that
   were quiet for the given gap always get the answer of a direct read if and only if it is at least that.
   */
  lemma AgreesAfterIff(cfg: Settings, ttl: nat, delay: nat, gap: nat)
    requires ValidSettings(cfg) && 1 <= ttl
    ensures AgreesAfter(cfg, ttl, delay, gap) <==> ttl + delay <= gap
  {
    if ttl + delay <= gap {
      forall trace: seq<World>, moves: seq<Move>, j: nat, t: TicketId
        | CachedBehaviour(cfg, ttl, trace, moves) && j <= |moves| && Prompt(trace, moves, delay) && Quiet(trace, moves, j, t, gap)
        ensures Agrees(trace[j], t)
      {
        QuietMeansAgreement(cfg, ttl, delay, gap, trace, moves, j, t);
      }
    } else {
      StaleRun(cfg, ttl, delay);
      assert Quiet(StaleTrace(ttl, delay), StaleMoves(ttl, delay), 9, 1, gap);
    }
  }

  // ---------- the cache and the read operation, in the form of the source ----------

  class TicketCache {
    const ttl: nat
    var entries: map<TicketId, CacheEntry>

    constructor (ttl: nat)
      ensures this.ttl == ttl && entries == map[]
    {
      this.ttl, entries := ttl, map[];
    }

    /** Redis may fail; a failure reads as a miss. */
    method Get(t: TicketId, now: nat, available: bool) returns (value: Option<Row>)
      ensures value == if available && t in entries && now < entries[t].expires then Some(entries[t].row) else None
    {
      if !available || t !in entries || entries[t].expires <= now {
        return None;
      }
      value := Some(entries[t].row);
    }

    method Set(t: TicketId, row: Row, now: nat, available: bool)
      modifies this
      ensures entries == if available then old(entries)[t := CacheEntry(row, now + ttl)] else old(entries)
    {
      if available {
        entries := entries[t := CacheEntry(row, now + ttl)];
      }
    }
  }

  datatype ReadAnswer = Found(row: Row) | ReadNotFound | ReadForbidden

  /** Only callers who may see every ticket read through the cache. */
  predicate CacheAllowed(caller: Caller) {
    caller.None? || caller.value.role == Admin
  }

  /** What a read without a cache answers. */
  function DirectRead(rows: map<TicketId, Row>, caller: Caller, t: TicketId): ReadAnswer {
    if t !in rows then ReadNotFound
    else if MayRead(caller, rows[t]) then Found(rows[t])
    else ReadForbidden
  }

  /** Customers are refused tickets that are not theirs; a missing ticket is reported to everybody. */
  lemma WhoReadsWhat(rows: map<TicketId, Row>, caller: Caller, t: TicketId)
    ensures DirectRead(rows, caller, t) == ReadNotFound <==> t !in rows
    ensures DirectRead(rows, caller, t) == ReadForbidden <==>
              t in rows && caller.Some? && caller.value.role == Customer && rows[t].customer != Some(caller.value.id)
    ensures DirectRead(rows, caller, t).Found? ==> DirectRead(rows, caller, t).row == rows[t]
  {
  }

  /** Every live entry is the committed row, as QuietMeansAgreement shows for tickets quiet for long enough. */
  ghost predicate CacheAgrees(rows: map<TicketId, Row>, entries: map<TicketId, CacheEntry>, now: nat) {
    forall t {:trigger entries[t]} :: t in entries && now < entries[t].expires ==>
      t in rows && rows[t] == entries[t].row && rows[t].status == Complete
  }

  /** Whoever reads, with or without the cache, gets the answer of a direct read as long as the cache agrees. */
  method GetTicket(rows: map<TicketId, Row>, cache: TicketCache, caller: Caller, t: TicketId, now: nat,
                   readable: bool, writable: bool) returns (answer: ReadAnswer)
    modifies cache
    ensures CacheAgrees(rows, old(cache.entries), now) ==>
              answer == DirectRead(rows, caller, t) && CacheAgrees(rows, cache.entries, now)
    ensures !CacheAllowed(caller) ==> answer == DirectRead(rows, caller, t) && cache.entries == old(cache.entries)
    ensures cache.entries == old(cache.entries)
         || (t in rows && rows[t].status == Complete && CacheAllowed(caller)
             && cache.entries == old(cache.entries)[t := CacheEntry(rows[t], now + cache.ttl)])
    ensures caller.Some? && caller.value.role != Admin ==>
              answer == DirectRead(rows, caller, t) && cache.entries == old(cache.entries)
    ensures caller.None? || caller.value.role == Admin ==>
              if readable && t in old(cache.entries) && now < old(cache.entries)[t].expires
              then answer == Found(old(cache.entries)[t].row) && cache.entries == old(cache.entries)
              else
                && answer == DirectRead(rows, caller, t)
                && cache.entries == if writable && t in rows && rows[t].status == Complete
                                    then old(cache.entries)[t := CacheEntry(rows[t], now + cache.ttl)]
                                    else old(cache.entries)
  {
    var cacheAllowed := CacheAllowed(caller);
    if cacheAllowed {
      var cached := cache.Get(t, now, readable);
      if cached.Some? {
        return Found(cached.value);
      }
    }
    if t !in rows {
      return ReadNotFound;
    }
    if !MayRead(caller, rows[t]) {
      return ReadForbidden;
    }
    if cacheAllowed && rows[t].status == Complete {
      cache.Set(t, rows[t], now, writable);
    }
    return Found(rows[t]);
  }
}
