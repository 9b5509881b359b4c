/**
 Applying an import manifest to the ledger: provenance for sessions, queries and calls,
 mirrored usage rows, and the aggregates that are rebuilt and verified before the commit.
 */
module ImportLedger {
  import opened Wrappers
  import opened Rollouts
  import opened ImportPlan

  datatype Totals = Totals(queries: nat, usage: Usage, turns: nat) {
    function Plus(t: Totals): Totals {
      Totals(queries + t.queries, usage.Plus(t.usage), turns + t.turns)
    }
  }

  const ZERO := Totals(0, NO_USAGE, 0)

  /** A row of queries or of usage_queries; its position is its row id. */
  datatype UsageRow = UsageRow(session: string, timestamp: int, usage: Usage, turns: nat) {
    function AsTotals(): Totals { Totals(1, usage, turns) }
  }

  /** The mirrored rows an imported query or call belongs to. */
  datatype Owner = Owner(session: string, queryId: nat, usageId: nat)

  datatype Provider = Codex | Claude

  /** A session's provider, if it is one of the two, and the provider's own id of it. */
  datatype SessionRow = SessionRow(provider: Option<Provider>, nativeId: Option<string>, totals: Totals)

  datatype SessionKey = SessionKey(provider: Provider, nativeId: string)

  datatype SessionSource = SessionSource(hash: string, importedId: string)

  datatype QuerySource = CodexTurn(turn: TurnRef) | ClaudePrompt(session: string, prompt: string)

  datatype CallSource = CodexCall(turn: TurnRef) | ClaudeMessage(id: string)

  /** The canonical fields a query's source hash is taken over; equal hashes mean equal fields. */
  datatype QueryHash =
    | CodexHash(fingerprint: Fingerprint)
    | ClaudeHash(source: QuerySource, usage: Usage, model: Option<string>, messages: seq<string>)

  function CodexCalls(turns: seq<TurnRef>): seq<CallSource> {
    seq(|turns|, i requires 0 <= i < |turns| => CodexCall(turns[i]))
  }

  function ClaudeMessages(ids: seq<string>): seq<CallSource> {
    seq(|ids|, i requires 0 <= i < |ids| => ClaudeMessage(ids[i]))
  }

  /** The calls a hash was taken over. */
  function CallsOf(hash: QueryHash): seq<CallSource> {
    match hash
    case CodexHash(fingerprint) => CodexCalls(fingerprint.callIds)
    case ClaudeHash(_, _, _, messages) => ClaudeMessages(messages)
  }

  datatype Ledger = Ledger(
    sessions: map<string, SessionRow>,
    sessionSources: map<SessionKey, SessionSource>,
    querySources: map<QuerySource, (QueryHash, Owner)>,
    callSources: map<CallSource, Owner>,
    queries: seq<UsageRow>,
    usageRows: seq<UsageRow>,
    daily: map<string, Totals>)

  datatype ImportQuery = ImportQuery(sourceId: QuerySource, hash: QueryHash, callIds: seq<CallSource>, usage: Usage,
                                     timestamp: int, turns: nat)

  datatype ImportSession = ImportSession(provider: Provider, nativeId: string, hash: string, importedId: string,
                                         queries: seq<ImportQuery>)
  {
    function Key(): SessionKey { SessionKey(provider, nativeId) }
  }

  datatype ImportError =
    | SessionConflict | SessionWithoutProvenance | NativeSessionAppeared
    | QueryConflict | CallConflict | LedgerDiverged | AggregateDiverged | DailyDiverged

  /** What a transaction has touched so far. */
  datatype Pending = Pending(ledger: Ledger, sessions: set<string>, dates: set<string>)

  /** The local calendar date of a timestamp, or none when it has no date. */
  type Calendar = int -> Option<string>

  function SessionTotals(rows: seq<UsageRow>, session: string): Totals {
    if rows == [] then ZERO
    else
      var rest := SessionTotals(rows[..|rows| - 1], session);
      if rows[|rows| - 1].session == session then rest.Plus(rows[|rows| - 1].AsTotals()) else rest
  }

  function DateTotals(cal: Calendar, rows: seq<UsageRow>, date: string): Totals {
    if rows == [] then ZERO
    else
      var rest := DateTotals(cal, rows[..|rows| - 1], date);
      if cal(rows[|rows| - 1].timestamp) == Some(date) then rest.Plus(rows[|rows| - 1].AsTotals()) else rest
  }

  // ----- one query ------------------------------------------------------------------------

  /** A call is recorded for its owner, or was recorded for the same owner before. */
  function RecordCall(l: Ledger, c: CallSource, owner: Owner): Result<Ledger, ImportError> {
    if c in l.callSources then
      if l.callSources[c] != owner then Err(CallConflict) else Ok(l)
    else Ok(l.(callSources := l.callSources[c := owner]))
  }

  function RecordCalls(l: Ledger, calls: seq<CallSource>, owner: Owner): Result<Ledger, ImportError> {
    if calls == [] then Ok(l)
    else
      match RecordCalls(l, calls[..|calls| - 1], owner)
      case Err(e) => Err(e)
      case Ok(l') => RecordCall(l', calls[|calls| - 1], owner)
  }

  function RowFor(s: ImportSession, q: ImportQuery): UsageRow {
    UsageRow(s.importedId, q.timestamp, q.usage, q.turns)
  }

  function InsertQuery(l: Ledger, s: ImportSession, q: ImportQuery): (Ledger, Owner) {
    var owner := Owner(s.importedId, |l.queries|, |l.usageRows|);
    (l.(queries := l.queries + [RowFor(s, q)], usageRows := l.usageRows + [RowFor(s, q)],
        querySources := l.querySources[q.sourceId := (q.hash, owner)]), owner)
  }

  function ApplyQuery(cal: Calendar, p: Pending, s: ImportSession, q: ImportQuery): Result<Pending, ImportError> {
    var l := p.ledger;
    if q.sourceId in l.querySources then
      var (hash, owner) := l.querySources[q.sourceId];
      if hash != q.hash || owner.session != s.importedId then Err(QueryConflict)
      else
        match RecordCalls(l, q.callIds, owner)
        case Err(e) => Err(e)
        case Ok(l') => Ok(p.(ledger := l'))
    else
      var (inserted, owner) := InsertQuery(l, s, q);
      match RecordCalls(inserted, q.callIds, owner)
      case Err(e) => Err(e)
      case Ok(l') =>
        Ok(Pending(l', p.sessions + {s.importedId},
                   p.dates + if cal(q.timestamp).Some? then {cal(q.timestamp).value} else {}))
  }

  function ApplyQueries(cal: Calendar, p: Pending, s: ImportSession, queries: seq<ImportQuery>): Result<Pending, ImportError> {
    if queries == [] then Ok(p)
    else
      match ApplyQueries(cal, p, s, queries[..|queries| - 1])
      case Err(e) => Err(e)
      case Ok(p') => ApplyQuery(cal, p', s, queries[|queries| - 1])
  }

  // ----- one session ----------------------------------------------------------------------

  predicate HasNative(l: Ledger, id: string, key: SessionKey) {
    id in l.sessions && l.sessions[id].provider == Some(key.provider) && l.sessions[id].nativeId == Some(key.nativeId)
  }

  /** The session row to import into; none when the imported session was deleted. */
  function OpenSession(l: Ledger, s: ImportSession): Result<Option<Ledger>, ImportError> {
    if s.Key() in l.sessionSources then
      if l.sessionSources[s.Key()] != SessionSource(s.hash, s.importedId) then Err(SessionConflict)
      else if s.importedId !in l.sessions then Ok(None)
      else Ok(Some(Attach(l, s)))
    else if s.importedId in l.sessions then Err(SessionWithoutProvenance)
    else if exists id :: id in l.sessions && HasNative(l, id, s.Key()) then Err(NativeSessionAppeared)
    else
      Ok(Some(Attach(CreateSession(l, s), s)))
  }

  function CreateSession(l: Ledger, s: ImportSession): Ledger {
    l.(sessions := l.sessions[s.importedId := SessionRow(Some(s.provider), Some(s.nativeId), ZERO)],
       sessionSources := l.sessionSources[s.Key() := SessionSource(s.hash, s.importedId)])
  }

  function Attach(l: Ledger, s: ImportSession): Ledger
    requires s.importedId in l.sessions
  {
    l.(sessions := l.sessions[s.importedId := l.sessions[s.importedId].(nativeId := Some(s.nativeId))])
  }

  function ApplySession(cal: Calendar, p: Pending, s: ImportSession): Result<Pending, ImportError> {
    match OpenSession(p.ledger, s)
    case Err(e) => Err(e)
    case Ok(None) => Ok(p)
    case Ok(Some(l)) => ApplyQueries(cal, p.(ledger := l), s, s.queries)
  }

  function ApplySessions(cal: Calendar, p: Pending, sessions: seq<ImportSession>): Result<Pending, ImportError> {
    if sessions == [] then Ok(p)
    else
      match ApplySessions(cal, p, sessions[..|sessions| - 1])
      case Err(e) => Err(e)
      case Ok(p') => ApplySession(cal, p', sessions[|sessions| - 1])
  }

  // ----- aggregates -----------------------------------------------------------------------

  function Rebuild(cal: Calendar, p: Pending): Ledger {
    p.ledger.(
      sessions := map id | id in p.ledger.sessions ::
        if id in p.sessions then p.ledger.sessions[id].(totals := SessionTotals(p.ledger.queries, id)) else p.ledger.sessions[id],
      daily := map d | d in p.ledger.daily.Keys + p.dates ::
        if d in p.dates then DateTotals(cal, p.ledger.usageRows, d) else p.ledger.daily[d])
  }

  predicate SessionVerified(l: Ledger, id: string) {
    && SessionTotals(l.queries, id) == SessionTotals(l.usageRows, id)
    && id in l.sessions && l.sessions[id].totals == SessionTotals(l.queries, id)
  }

  predicate DateVerified(cal: Calendar, l: Ledger, date: string) {
    date in l.daily && l.daily[date] == DateTotals(cal, l.usageRows, date)
  }

  function Verify(cal: Calendar, l: Ledger, sessions: set<string>, dates: set<string>): Result<Ledger, ImportError> {
    if exists id :: id in sessions && SessionTotals(l.queries, id) != SessionTotals(l.usageRows, id) then Err(LedgerDiverged)
    else if exists id :: id in sessions && !SessionVerified(l, id) then Err(AggregateDiverged)
    else if exists d :: d in dates && !DateVerified(cal, l, d) then Err(DailyDiverged)
    else Ok(l)
  }

  /** The whole transaction: it commits the returned ledger or throws. */
  function Apply(cal: Calendar, l: Ledger, manifest: seq<ImportSession>): Result<Ledger, ImportError> {
    match ApplySessions(cal, Pending(l, {}, {}), manifest)
    case Err(e) => Err(e)
    case Ok(p) => Verify(cal, Rebuild(cal, p), p.sessions, p.dates)
  }

  /** Rolled back on an error. */
  function Commit(cal: Calendar, l: Ledger, manifest: seq<ImportSession>): Ledger {
    match Apply(cal, l, manifest) case Ok(l') => l' case Err(_) => l
  }

  // ----- mirrors ----------------------------------------------------------------------------

  /** The id an imported session gets is determined by its provider and native id. */
  function ImportedId(key: SessionKey): string {
    (if key.provider == Codex then "history:codex:" else "history:claude:") + key.nativeId
  }

  lemma ImportedIdIsInjective(a: SessionKey, b: SessionKey)
    requires ImportedId(a) == ImportedId(b)
    ensures a == b
  {
    assert ImportedId(a)[9] == if a.provider == Codex then 'o' else 'l';
    assert ImportedId(b)[9] == if b.provider == Codex then 'o' else 'l';
    var n := if a.provider == Codex then |"history:codex:"| else |"history:claude:"|;
    assert a.nativeId == ImportedId(a)[n..] && b.nativeId == ImportedId(b)[n..];
  }

  ghost predicate WellNamed(manifest: seq<ImportSession>) {
    forall s :: s in manifest ==> s.importedId == ImportedId(s.Key())
  }

  ghost predicate Vacant(l: Ledger, id: string) {
    SessionTotals(l.queries, id) == ZERO && SessionTotals(l.usageRows, id) == ZERO
  }

  function DailyOf(l: Ledger, d: string): Totals {
    if d in l.daily then l.daily[d] else ZERO
  }

  /** Per session the two usage tables agree and the session totals are their sum; per date the daily
      row is the sum of the ledger; except what a transaction still has to rebuild. Usage rows may
      outlive a deleted session, but not before the session was ever imported. */
  ghost predicate MirrorsBut(cal: Calendar, l: Ledger, sessions: set<string>, dates: set<string>) {
    && (forall id :: id in l.sessions ==> SessionTotals(l.queries, id) == SessionTotals(l.usageRows, id))
    && (forall id :: id in l.sessions && id !in sessions ==> l.sessions[id].totals == SessionTotals(l.queries, id))
    && (forall d :: d !in dates ==> DailyOf(l, d) == DateTotals(cal, l.usageRows, d))
    && (forall key :: key !in l.sessionSources ==> ImportedId(key) in l.sessions || Vacant(l, ImportedId(key)))
    && sessions <= l.sessions.Keys
  }

  ghost predicate Mirrors(cal: Calendar, l: Ledger) {
    MirrorsBut(cal, l, {}, {})
  }

  lemma AppendedSessionTotals(rows: seq<UsageRow>, r: UsageRow, id: string)
    ensures SessionTotals(rows + [r], id)
         == (if r.session == id then SessionTotals(rows, id).Plus(r.AsTotals()) else SessionTotals(rows, id))
  {
    assert (rows + [r])[..|rows + [r]| - 1] == rows;
  }

  lemma AppendedDateTotals(cal: Calendar, rows: seq<UsageRow>, r: UsageRow, d: string)
    ensures DateTotals(cal, rows + [r], d)
         == (if cal(r.timestamp) == Some(d) then DateTotals(cal, rows, d).Plus(r.AsTotals()) else DateTotals(cal, rows, d))
  {
    assert (rows + [r])[..|rows + [r]| - 1] == rows;
  }

  /** Recording calls writes call provenance only. */
  lemma {:induction false} RecordCallsKeepsRows(l: Ledger, calls: seq<CallSource>, owner: Owner)
    requires RecordCalls(l, calls, owner).Ok?
    ensures RecordCalls(l, calls, owner).value == l.(callSources := RecordCalls(l, calls, owner).value.callSources)
  {
    if calls != [] { RecordCallsKeepsRows(l, calls[..|calls| - 1], owner); }
  }

  lemma InsertKeepsSessionTotals(cal: Calendar, l: Ledger, sessions: set<string>, dates: set<string>, s: ImportSession, q: ImportQuery, id: string)
    requires MirrorsBut(cal, l, sessions, dates) && id in l.sessions
    ensures var l' := InsertQuery(l, s, q).0;
            && SessionTotals(l'.queries, id) == SessionTotals(l'.usageRows, id)
            && (id !in sessions + {s.importedId} ==> l'.sessions[id].totals == SessionTotals(l'.queries, id))
  {
    AppendedSessionTotals(l.queries, RowFor(s, q), id);
    AppendedSessionTotals(l.usageRows, RowFor(s, q), id);
  }

  lemma InsertKeepsDaily(cal: Calendar, l: Ledger, sessions: set<string>, dates: set<string>, s: ImportSession, q: ImportQuery, d: string)
    requires MirrorsBut(cal, l, sessions, dates) && d !in dates && cal(q.timestamp) != Some(d)
    ensures var l' := InsertQuery(l, s, q).0; DailyOf(l', d) == DateTotals(cal, l'.usageRows, d)
  {
    AppendedDateTotals(cal, l.usageRows, RowFor(s, q), d);
  }

  lemma InsertKeepsVacant(cal: Calendar, l: Ledger, sessions: set<string>, dates: set<string>, s: ImportSession, q: ImportQuery, key: SessionKey)
    requires MirrorsBut(cal, l, sessions, dates) && key !in l.sessionSources
    requires s.importedId == ImportedId(s.Key()) && s.Key() in l.sessionSources
    ensures var l' := InsertQuery(l, s, q).0; ImportedId(key) in l'.sessions || Vacant(l', ImportedId(key))
  {
    if ImportedId(key) == s.importedId { ImportedIdIsInjective(key, s.Key()); }
    AppendedSessionTotals(l.queries, RowFor(s, q), ImportedId(key));
    AppendedSessionTotals(l.usageRows, RowFor(s, q), ImportedId(key));
  }

  lemma InsertKeepsMirrors(cal: Calendar, l: Ledger, sessions: set<string>, dates: set<string>, s: ImportSession, q: ImportQuery)
    requires MirrorsBut(cal, l, sessions, dates)
    requires s.importedId == ImportedId(s.Key()) && s.Key() in l.sessionSources && s.importedId in l.sessions
    ensures MirrorsBut(cal, InsertQuery(l, s, q).0, sessions + {s.importedId},
                       dates + if cal(q.timestamp).Some? then {cal(q.timestamp).value} else {})
  {
    var l' := InsertQuery(l, s, q).0;
    forall id | id in l.sessions
      ensures SessionTotals(l'.queries, id) == SessionTotals(l'.usageRows, id)
      ensures id !in sessions + {s.importedId} ==> l'.sessions[id].totals == SessionTotals(l'.queries, id)
    {
      InsertKeepsSessionTotals(cal, l, sessions, dates, s, q, id);
    }
    forall d | d !in dates && cal(q.timestamp) != Some(d) ensures DailyOf(l', d) == DateTotals(cal, l'.usageRows, d) {
      InsertKeepsDaily(cal, l, sessions, dates, s, q, d);
    }
    forall key | key !in l.sessionSources ensures ImportedId(key) in l'.sessions || Vacant(l', ImportedId(key)) {
      InsertKeepsVacant(cal, l, sessions, dates, s, q, key);
    }
  }

  lemma CallsDoNotMirror(cal: Calendar, l: Ledger, calls: map<CallSource, Owner>, sessions: set<string>, dates: set<string>)
    requires MirrorsBut(cal, l, sessions, dates)
    ensures MirrorsBut(cal, l.(callSources := calls), sessions, dates)
  {
    var l' := l.(callSources := calls);
    assert forall d :: DailyOf(l', d) == DailyOf(l, d);
    assert forall id :: Vacant(l, id) ==> Vacant(l', id);
  }

  lemma ApplyQueryKeepsMirrors(cal: Calendar, p: Pending, s: ImportSession, q: ImportQuery)
    requires MirrorsBut(cal, p.ledger, p.sessions, p.dates) && ApplyQuery(cal, p, s, q).Ok?
    requires s.importedId == ImportedId(s.Key()) && s.Key() in p.ledger.sessionSources && s.importedId in p.ledger.sessions
    ensures var p' := ApplyQuery(cal, p, s, q).value;
            && MirrorsBut(cal, p'.ledger, p'.sessions, p'.dates)
            && p'.ledger.sessions == p.ledger.sessions && p'.ledger.sessionSources == p.ledger.sessionSources
  {
    var p' := ApplyQuery(cal, p, s, q).value;
    if q.sourceId in p.ledger.querySources {
      RecordCallsKeepsRows(p.ledger, q.callIds, p.ledger.querySources[q.sourceId].1);
      CallsDoNotMirror(cal, p.ledger, p'.ledger.callSources, p.sessions, p.dates);
    } else {
      var (inserted, owner) := InsertQuery(p.ledger, s, q);
      InsertKeepsMirrors(cal, p.ledger, p.sessions, p.dates, s, q);
      RecordCallsKeepsRows(inserted, q.callIds, owner);
      CallsDoNotMirror(cal, inserted, p'.ledger.callSources, p'.sessions, p'.dates);
    }
  }

  lemma {:induction false} ApplyQueriesKeepsMirrors(cal: Calendar, p: Pending, s: ImportSession, queries: seq<ImportQuery>)
    requires MirrorsBut(cal, p.ledger, p.sessions, p.dates) && ApplyQueries(cal, p, s, queries).Ok?
    requires s.importedId == ImportedId(s.Key()) && s.Key() in p.ledger.sessionSources && s.importedId in p.ledger.sessions
    ensures var p' := ApplyQueries(cal, p, s, queries).value;
            && MirrorsBut(cal, p'.ledger, p'.sessions, p'.dates)
            && p'.ledger.sessions == p.ledger.sessions && p'.ledger.sessionSources == p.ledger.sessionSources
  {
    if queries != [] {
      ApplyQueriesKeepsMirrors(cal, p, s, queries[..|queries| - 1]);
      ApplyQueryKeepsMirrors(cal, ApplyQueries(cal, p, s, queries[..|queries| - 1]).value, s, queries[|queries| - 1]);
    }
  }

  lemma AttachKeepsMirrors(cal: Calendar, l: Ledger, sessions: set<string>, dates: set<string>, s: ImportSession)
    requires MirrorsBut(cal, l, sessions, dates) && s.importedId in l.sessions
    ensures MirrorsBut(cal, Attach(l, s), sessions, dates)
  {
    assert Attach(l, s).sessions.Keys == l.sessions.Keys;
  }

  lemma CreateKeepsMirrors(cal: Calendar, l: Ledger, sessions: set<string>, dates: set<string>, s: ImportSession)
    requires MirrorsBut(cal, l, sessions, dates) && s.importedId == ImportedId(s.Key())
    requires s.Key() !in l.sessionSources && s.importedId !in l.sessions
    ensures MirrorsBut(cal, CreateSession(l, s), sessions, dates)
  {
    assert Vacant(l, s.importedId);
  }

  lemma OpenKeepsMirrors(cal: Calendar, l: Ledger, sessions: set<string>, dates: set<string>, s: ImportSession)
    requires MirrorsBut(cal, l, sessions, dates) && s.importedId == ImportedId(s.Key())
    requires OpenSession(l, s).Ok? && OpenSession(l, s).value.Some?
    ensures var l' := OpenSession(l, s).value.value;
            MirrorsBut(cal, l', sessions, dates) && s.Key() in l'.sessionSources && s.importedId in l'.sessions
  {
    if s.Key() in l.sessionSources {
      AttachKeepsMirrors(cal, l, sessions, dates, s);
    } else {
      CreateKeepsMirrors(cal, l, sessions, dates, s);
      AttachKeepsMirrors(cal, CreateSession(l, s), sessions, dates, s);
    }
  }

  lemma ApplySessionKeepsMirrors(cal: Calendar, p: Pending, s: ImportSession)
    requires MirrorsBut(cal, p.ledger, p.sessions, p.dates) && s.importedId == ImportedId(s.Key())
    requires ApplySession(cal, p, s).Ok?
    ensures var p' := ApplySession(cal, p, s).value; MirrorsBut(cal, p'.ledger, p'.sessions, p'.dates)
  {
    if OpenSession(p.ledger, s).value.Some? {
      OpenKeepsMirrors(cal, p.ledger, p.sessions, p.dates, s);
      ApplyQueriesKeepsMirrors(cal, p.(ledger := OpenSession(p.ledger, s).value.value), s, s.queries);
    }
  }

  lemma {:induction false} ApplySessionsKeepsMirrors(cal: Calendar, p: Pending, sessions: seq<ImportSession>)
    requires MirrorsBut(cal, p.ledger, p.sessions, p.dates) && WellNamed(sessions)
    requires ApplySessions(cal, p, sessions).Ok?
    ensures var p' := ApplySessions(cal, p, sessions).value; MirrorsBut(cal, p'.ledger, p'.sessions, p'.dates)
  {
    if sessions != [] {
      var init, last := sessions[..|sessions| - 1], sessions[|sessions| - 1];
      assert forall s :: s in init ==> s in sessions;
      assert last in sessions;
      ApplySessionsKeepsMirrors(cal, p, init);
      ApplySessionKeepsMirrors(cal, ApplySessions(cal, p, init).value, last);
    }
  }

  lemma RebuildRestoresMirrors(cal: Calendar, p: Pending)
    requires MirrorsBut(cal, p.ledger, p.sessions, p.dates)
    ensures Mirrors(cal, Rebuild(cal, p))
    ensures Verify(cal, Rebuild(cal, p), p.sessions, p.dates) == Ok(Rebuild(cal, p))
  {
    var l := Rebuild(cal, p);
    forall id | id in p.sessions ensures SessionVerified(l, id) {}
    forall d | d in p.dates ensures DateVerified(cal, l, d) {}
  }

  /** A committed import leaves every session and every date mirrored, also those it did not touch; and
      when they were mirrored before, the verification before the commit never fails. */
  lemma ImportKeepsMirrors(cal: Calendar, l: Ledger, manifest: seq<ImportSession>)
    requires Mirrors(cal, l) && WellNamed(manifest)
    ensures Mirrors(cal, Commit(cal, l, manifest))
    ensures Apply(cal, l, manifest).Err? ==>
              Apply(cal, l, manifest).error !in {LedgerDiverged, AggregateDiverged, DailyDiverged}
  {
    var applied := ApplySessions(cal, Pending(l, {}, {}), manifest);
    if applied.Ok? {
      ApplySessionsKeepsMirrors(cal, Pending(l, {}, {}), manifest);
      RebuildRestoresMirrors(cal, applied.value);
    } else {
      ApplyErrors(cal, Pending(l, {}, {}), manifest);
    }
  }

  /** Before the verification only provenance conflicts can stop the import. */
  lemma {:induction false} ApplyErrors(cal: Calendar, p: Pending, sessions: seq<ImportSession>)
    ensures ApplySessions(cal, p, sessions).Err? ==>
              ApplySessions(cal, p, sessions).error !in {LedgerDiverged, AggregateDiverged, DailyDiverged}
  {
    if sessions != [] {
      var init, last := sessions[..|sessions| - 1], sessions[|sessions| - 1];
      ApplyErrors(cal, p, init);
      var before := ApplySessions(cal, p, init);
      if before.Ok? && OpenSession(before.value.ledger, last).Ok? && OpenSession(before.value.ledger, last).value.Some? {
        QueryErrors(cal, before.value.(ledger := OpenSession(before.value.ledger, last).value.value), last, last.queries);
      }
    }
  }

  lemma {:induction false} QueryErrors(cal: Calendar, p: Pending, s: ImportSession, queries: seq<ImportQuery>)
    ensures ApplyQueries(cal, p, s, queries).Err? ==> ApplyQueries(cal, p, s, queries).error in {QueryConflict, CallConflict}
  {
    if queries != [] {
      var init, last := queries[..|queries| - 1], queries[|queries| - 1];
      QueryErrors(cal, p, s, init);
      var before := ApplyQueries(cal, p, s, init);
      if before.Ok? {
        var l := before.value.ledger;
        if last.sourceId in l.querySources {
          CallErrors(l, last.callIds, l.querySources[last.sourceId].1);
        } else {
          var (inserted, owner) := InsertQuery(l, s, last);
          CallErrors(inserted, last.callIds, owner);
        }
      }
    }
  }

  lemma {:induction false} CallErrors(l: Ledger, calls: seq<CallSource>, owner: Owner)
    ensures RecordCalls(l, calls, owner).Err? ==> RecordCalls(l, calls, owner).error == CallConflict
  {
    if calls != [] { CallErrors(l, calls[..|calls| - 1], owner); }
  }
}
