/**
 Charger-log imports: uploads, expiry and any number of post-upload pipelines interleave statement
 by statement. Each pipeline reads a row, works, and then writes under a guard.
 */
module ChargerLogImport {
  import opened Common

  datatype Status = Requested | Uploading | Received | Parsed | Reconciled | Failed | Expired

  datatype Import = Import(status: Status, payload: bool, session: bool, tokenHash: Option<nat>)

  /** What the parser makes of a payload. */
  datatype Parsing = NoParser | ParseError | Entries(count: nat)

  /** A pipeline: the statement about to happen. */
  datatype Pipeline =
    | ReadForParse(id: nat)
    | FailParse(id: nat)
    | StoreEntries(id: nat, count: nat)
    | ReadForReconcile(id: nat)
    | WriteResult(id: nat, parsed: bool)
    | FinishReconcile(id: nat)
    | FailPipeline(id: nat)

  /** `entries` counts log rows per import, `batches` the transactions that stored some, and `results`
      holds the imports with a reconciliation row. */
  datatype State = State(imports: map<nat, Import>, entries: multiset<nat>, batches: multiset<nat>,
                         results: set<nat>, pipelines: map<nat, Pipeline>)

  datatype Action =
    | Request(id: nat, session: bool, tokenHash: Option<nat>)
    | ChargerAcks(id: nat)
    | ChargerFails(id: nat)
    | Expire(id: nat)
    | Upload(id: nat, presented: nat, size: nat)
    | StartPipeline(p: nat, id: nat)
    | Go(p: nat, parsing: Parsing)
    | Throw(p: nat)
    | Crash(p: nat)

  // ---------------------------------------------------------------- statements

  function SetStatus(s: State, id: nat, status: Status): State
    requires id in s.imports
  {
    s.(imports := s.imports[id := s.imports[id].(status := status)])
  }

  /** An update with a status guard. */
  function Guarded(s: State, id: nat, from: set<Status>, to: Status): State {
    if id in s.imports && s.imports[id].status in from then SetStatus(s, id, to) else s
  }

  predicate Terminal(status: Status) {
    status.Reconciled? || status.Failed? || status.Expired?
  }

  function MarkFailed(s: State, id: nat): State {
    Guarded(s, id, {Requested, Uploading, Received, Parsed}, Failed)
  }

  /** `receive_upload`: the HTTP status of a refusal, or the row as it is stored. */
  function ReceiveUpload(imports: map<nat, Import>, id: nat, presented: nat, size: nat, maxSize: nat)
    : Result<Import, nat>
  {
    if size > maxSize then Err(413)
    else if size == 0 then Err(400)
    else if id !in imports then Err(404)
    else if imports[id].tokenHash.Some? && imports[id].tokenHash.value != presented then Err(401)
    else if imports[id].status in {Received, Parsed, Reconciled, Failed, Expired} then Err(409)
    else Ok(imports[id].(status := Received, payload := true))
  }

  function Move(s: State, p: nat, q: Pipeline): State {
    s.(pipelines := s.pipelines[p := q])
  }

  function End(s: State, p: nat): State {
    s.(pipelines := s.pipelines - {p})
  }

  function Repeat(id: nat, count: nat): (m: multiset<nat>)
    ensures forall x :: m[x] == if x == id then count else 0
  {
    multiset{}[id := count]
  }

  /** The read that decides what parsing will do. */
  function ParseStep(s: State, p: nat, id: nat, parsing: Parsing): State {
    if id !in s.imports || s.imports[id].status != Received then Move(s, p, ReadForReconcile(id))
    else if !s.imports[id].payload then Move(s, p, FailParse(id))
    else match parsing
         case NoParser => Move(s, p, ReadForReconcile(id))
         case ParseError => Move(s, p, FailParse(id))
         case Entries(count) => Move(s, p, StoreEntries(id, count))
  }

  /** The storing transaction inserts without a guard and then flips the status under one; an empty
      parse only flips the status. */
  function StoreStep(s: State, p: nat, id: nat, count: nat): State {
    var stored := if count == 0 then s
                  else s.(entries := s.entries + Repeat(id, count), batches := s.batches + multiset{id});
    Move(Guarded(stored, id, {Received}, Parsed), p, ReadForReconcile(id))
  }

  function GoStep(s: State, p: nat, parsing: Parsing): State {
    if p !in s.pipelines then s
    else
      match s.pipelines[p]
      case ReadForParse(id) => ParseStep(s, p, id, parsing)
      case FailParse(id) => Move(MarkFailed(s, id), p, ReadForReconcile(id))
      case StoreEntries(id, count) => StoreStep(s, p, id, count)
      case ReadForReconcile(id) =>
        if id in s.imports && s.imports[id].status in {Parsed, Failed} && s.imports[id].session
        then Move(s, p, WriteResult(id, s.imports[id].status == Parsed)) else End(s, p)
      case WriteResult(id, parsed) =>
        var written := s.(results := s.results + {id});
        if parsed then Move(written, p, FinishReconcile(id)) else End(written, p)
      case FinishReconcile(id) => End(Guarded(s, id, {Parsed}, Reconciled), p)
      case FailPipeline(id) => End(MarkFailed(s, id), p)
  }

  function Act(maxSize: nat, s: State, a: Action): State {
    match a
    case Request(id, session, tokenHash) =>
      if id in s.imports then s else s.(imports := s.imports[id := Import(Requested, false, session, tokenHash)])
    case ChargerAcks(id) => Guarded(s, id, {Requested}, Uploading)
    case ChargerFails(id) => Guarded(s, id, {Requested, Uploading}, Failed)
    case Expire(id) => Guarded(s, id, {Requested, Uploading}, Expired)
    case Upload(id, presented, size) =>
      var r := ReceiveUpload(s.imports, id, presented, size, maxSize);
      if r.Ok? then s.(imports := s.imports[id := r.value]) else s
    case StartPipeline(p, id) => if p in s.pipelines then s else Move(s, p, ReadForParse(id))
    case Go(p, parsing) => GoStep(s, p, parsing)
    case Throw(p) => if p in s.pipelines then Move(s, p, FailPipeline(s.pipelines[p].id)) else s
    case Crash(p) => End(s, p)
  }

  function Start(): State {
    State(map[], multiset{}, multiset{}, {}, map[])
  }

  /** The state that `actions` lead to from `s`. */
  function From(maxSize: nat, s: State, actions: seq<Action>): State {
    if actions == [] then s
    else Act(maxSize, From(maxSize, s, actions[..|actions| - 1]), actions[|actions| - 1])
  }

  function After(maxSize: nat, actions: seq<Action>): State {
    From(maxSize, Start(), actions)
  }

  // ---------------------------------------------------------------- status moves

  /** The only moves an import ever makes. */
  predicate Allowed(from: Status, to: Status) {
    || from == to
    || (from == Requested && to == Uploading)
    || (from in {Requested, Uploading} && to in {Expired, Received})
    || (from == Received && to == Parsed)
    || (from == Parsed && to == Reconciled)
    || (!Terminal(from) && to == Failed)
  }

  /** The storing transaction, column by column. */
  lemma StoreFacts(s: State, p: nat, id: nat, count: nat)
    ensures var t := StoreStep(s, p, id, count);
            && t.imports == Guarded(s, id, {Received}, Parsed).imports && t.results == s.results
            && t.pipelines == s.pipelines[p := ReadForReconcile(id)]
            && (forall x :: t.entries[x] == s.entries[x] + if x == id then count else 0)
            && (forall x :: t.batches[x] == s.batches[x] + if x == id && count > 0 then 1 else 0)
  {
  }

  /** All other statements leave the stored rows alone. */
  lemma OtherFacts(s: State, p: nat, parsing: Parsing)
    requires p !in s.pipelines || !s.pipelines[p].StoreEntries?
    ensures GoStep(s, p, parsing).entries == s.entries && GoStep(s, p, parsing).batches == s.batches
    ensures s.results <= GoStep(s, p, parsing).results
    ensures var t := GoStep(s, p, parsing);
            p in t.pipelines && t.pipelines[p].StoreEntries? ==>
              t.pipelines[p].id in s.imports && s.imports[t.pipelines[p].id].status == Received
    ensures GoStep(s, p, parsing).pipelines - {p} == s.pipelines - {p}
  {
  }

  /** Nothing but a pipeline's own statement stores rows, and of the pipelines the others touch at most one. */
  lemma OutsideFacts(maxSize: nat, s: State, a: Action)
    requires !a.Go?
    ensures var t := Act(maxSize, s, a);
            && t.entries == s.entries && t.batches == s.batches
            && forall q :: q in t.pipelines ==>
                 || (q in s.pipelines && t.pipelines[q] == s.pipelines[q])
                 || t.pipelines[q].FailPipeline?
                 || (a.StartPipeline? && q == a.p && q !in s.pipelines && t.pipelines[q] == ReadForParse(a.id))
  {
  }

  ghost predicate Moves(s: State, t: State, id: nat) {
    && id in t.imports && (id in s.imports ==>
        && Allowed(s.imports[id].status, t.imports[id].status)
        && (s.imports[id].payload ==> t.imports[id].payload)
        && (Terminal(s.imports[id].status) ==> t.imports[id] == s.imports[id]))
  }

  lemma GuardMoves(s: State, id: nat, from: set<Status>, to: Status, other: nat)
    requires other in s.imports
    requires forall f <- from :: Allowed(f, to) && !Terminal(f)
    ensures Moves(s, Guarded(s, id, from, to), other)
  {
  }

  lemma GoMoves(s: State, p: nat, parsing: Parsing, id: nat)
    requires id in s.imports
    ensures Moves(s, GoStep(s, p, parsing), id)
  {
    if p in s.pipelines {
      match s.pipelines[p]
      case StoreEntries(other, count) =>
        StoreFacts(s, p, other, count);
        GuardMoves(s, other, {Received}, Parsed, id);
      case FinishReconcile(other) => GuardMoves(s, other, {Parsed}, Reconciled, id);
      case FailParse(other) => GuardMoves(s, other, {Requested, Uploading, Received, Parsed}, Failed, id);
      case FailPipeline(other) => GuardMoves(s, other, {Requested, Uploading, Received, Parsed}, Failed, id);
      case _ =>
    }
  }

  /** Any statement of any actor moves an import along the allowed edges, so terminal states are never left. */
  lemma StatusMoves(maxSize: nat, s: State, a: Action, id: nat)
    requires id in s.imports
    ensures Moves(s, Act(maxSize, s, a), id)
  {
    match a
    case Go(p, parsing) => GoMoves(s, p, parsing, id);
    case Upload(_, _, _) =>
    case _ =>
  }

  // ---------------------------------------------------------------- invariant

  predicate Uploaded(status: Status) {
    status.Received? || status.Parsed? || status.Reconciled?
  }

  predicate PastReceived(status: Status) {
    status.Parsed? || status.Reconciled? || status.Failed?
  }

  predicate ImportOk(s: State, id: nat) {
    && (id in s.imports && Uploaded(s.imports[id].status) ==> s.imports[id].payload)
    && (id in s.imports && s.imports[id].status == Reconciled ==> id in s.results)
  }

  predicate EntriesOk(s: State, id: nat) {
    (s.entries[id] > 0 || s.batches[id] > 0) ==> id in s.imports && PastReceived(s.imports[id].status)
  }

  /** A pipeline about to store has read a received row, so the import is received or further on. */
  predicate PipelineOk(s: State, q: Pipeline) {
    && (q.StoreEntries? ==>
          q.id in s.imports && (s.imports[q.id].status == Received || PastReceived(s.imports[q.id].status)))
    && (q.FinishReconcile? ==> q.id in s.results)
  }

  ghost predicate Inv(s: State) {
    && (forall id: nat :: ImportOk(s, id) && EntriesOk(s, id))
    && (forall p :: p in s.pipelines ==> PipelineOk(s, s.pipelines[p]))
  }

  /** The statements that change an import row, other than storing: each is one guarded update. */
  lemma ImportFacts(s: State, p: nat, parsing: Parsing)
    requires p !in s.pipelines || !s.pipelines[p].StoreEntries?
    ensures var t := GoStep(s, p, parsing);
            if p in s.pipelines && (s.pipelines[p].FailParse? || s.pipelines[p].FailPipeline?)
            then t.imports == MarkFailed(s, s.pipelines[p].id).imports
            else if p in s.pipelines && s.pipelines[p].FinishReconcile?
            then t.imports == Guarded(s, s.pipelines[p].id, {Parsed}, Reconciled).imports
            else t.imports == s.imports
  {
  }

  lemma GoKeepsImports(s: State, p: nat, parsing: Parsing, id: nat)
    requires Inv(s)
    ensures ImportOk(GoStep(s, p, parsing), id) && EntriesOk(GoStep(s, p, parsing), id)
  {
    assert ImportOk(s, id) && EntriesOk(s, id);
    if p in s.pipelines { assert PipelineOk(s, s.pipelines[p]); }
    if p in s.pipelines && s.pipelines[p].StoreEntries? {
      StoreFacts(s, p, s.pipelines[p].id, s.pipelines[p].count);
    } else {
      OtherFacts(s, p, parsing);
      ImportFacts(s, p, parsing);
    }
  }

  /** What one statement does to the pipelines: the acting one moves on, the others stay. */
  lemma GoKeepsPipelines(s: State, p: nat, parsing: Parsing, other: nat)
    requires Inv(s) && other in GoStep(s, p, parsing).pipelines
    ensures PipelineOk(GoStep(s, p, parsing), GoStep(s, p, parsing).pipelines[other])
  {
    var t := GoStep(s, p, parsing);
    if p in s.pipelines && s.pipelines[p].StoreEntries? {
      StoreFacts(s, p, s.pipelines[p].id, s.pipelines[p].count);
    } else {
      OtherFacts(s, p, parsing);
      ImportFacts(s, p, parsing);
    }
    if other != p {
      assert other in t.pipelines - {p};
      assert other in s.pipelines && t.pipelines[other] == s.pipelines[other];
      assert PipelineOk(s, s.pipelines[other]);
      if s.pipelines[other].StoreEntries? { GoMoves(s, p, parsing, s.pipelines[other].id); }
    }
  }

  lemma ActKeeps(maxSize: nat, s: State, a: Action)
    requires Inv(s)
    ensures Inv(Act(maxSize, s, a))
  {
    if a.Go? {
      forall id: nat
        ensures ImportOk(Act(maxSize, s, a), id) && EntriesOk(Act(maxSize, s, a), id)
      {
        GoKeepsImports(s, a.p, a.parsing, id);
      }
      forall p | p in Act(maxSize, s, a).pipelines
        ensures PipelineOk(Act(maxSize, s, a), Act(maxSize, s, a).pipelines[p])
      {
        GoKeepsPipelines(s, a.p, a.parsing, p);
      }
    } else {
      OutsideKeeps(maxSize, s, a);
    }
  }

  lemma OutsideKeeps(maxSize: nat, s: State, a: Action)
    requires Inv(s) && !a.Go?
    ensures Inv(Act(maxSize, s, a))
  {
    var t := Act(maxSize, s, a);
    OutsideFacts(maxSize, s, a);
    forall id: nat
      ensures ImportOk(t, id) && EntriesOk(t, id)
    {
      assert ImportOk(s, id) && EntriesOk(s, id);
    }
    forall p | p in t.pipelines
      ensures PipelineOk(t, t.pipelines[p])
    {
      var q := t.pipelines[p];
      if p in s.pipelines && q == s.pipelines[p] { assert PipelineOk(s, q); }
      if q.StoreEntries? { StatusMoves(maxSize, s, a, q.id); }
    }
  }

  lemma {:induction false} RunKeeps(maxSize: nat, s: State, actions: seq<Action>)
    requires Inv(s)
    ensures Inv(From(maxSize, s, actions))
  {
    if actions != [] {
      RunKeeps(maxSize, s, actions[..|actions| - 1]);
      ActKeeps(maxSize, From(maxSize, s, actions[..|actions| - 1]), actions[|actions| - 1]);
    }
  }

  // ---------------------------------------------------------------- the theorems

  /** From `received` on the payload is there: the NULL-payload branch of the parser stage is dead. */
  lemma PayloadIsThere(maxSize: nat, actions: seq<Action>, id: nat)
    ensures var s := After(maxSize, actions);
            id in s.imports && Uploaded(s.imports[id].status) ==> s.imports[id].payload
  {
    RunKeeps(maxSize, Start(), actions);
    assert ImportOk(After(maxSize, actions), id);
  }

  /** Log entries exist only for imports that are past `received`. */
  lemma EntriesFollowParse(maxSize: nat, actions: seq<Action>, id: nat)
    ensures var s := After(maxSize, actions);
            s.entries[id] > 0 ==> id in s.imports && PastReceived(s.imports[id].status)
  {
    RunKeeps(maxSize, Start(), actions);
    assert EntriesOk(After(maxSize, actions), id);
  }

  /** An import is reconciled only after its reconciliation row was written. */
  lemma ReconciledHasResult(maxSize: nat, actions: seq<Action>, id: nat)
    ensures var s := After(maxSize, actions);
            id in s.imports && s.imports[id].status == Reconciled ==> id in s.results
  {
    RunKeeps(maxSize, Start(), actions);
    assert ImportOk(After(maxSize, actions), id);
  }

  /** Over any further run an import moves along allowed edges only, so a terminal import stays as it is. */
  lemma {:induction false} TerminalStays(maxSize: nat, s: State, actions: seq<Action>, id: nat)
    requires id in s.imports
    ensures var t := From(maxSize, s, actions);
            && id in t.imports
            && (PastReceived(s.imports[id].status) ==> PastReceived(t.imports[id].status))
            && (Terminal(s.imports[id].status) ==> t.imports[id] == s.imports[id])
  {
    if actions != [] {
      var before := actions[..|actions| - 1];
      TerminalStays(maxSize, s, before, id);
      StatusMoves(maxSize, From(maxSize, s, before), actions[|actions| - 1], id);
    }
  }

  // ---------------------------------------------------------------- double parsing

  /** The pipelines that have read `id` as received and are about to store its entries. */
  function Pending(s: State, id: nat): set<nat> {
    set p | p in s.pipelines && s.pipelines[p].StoreEntries? && s.pipelines[p].id == id && s.pipelines[p].count > 0
  }

  /** The import can no longer be received. */
  ghost predicate Closed(s: State, id: nat) {
    id in s.imports && (PastReceived(s.imports[id].status) || s.imports[id].status == Expired)
  }

  lemma GoShrinks(s: State, p: nat, parsing: Parsing, id: nat)
    requires Closed(s, id)
    ensures var t := GoStep(s, p, parsing);
            && Pending(t, id) <= Pending(s, id)
            && (t.batches[id] == s.batches[id] ||
                (t.batches[id] == s.batches[id] + 1 && p in Pending(s, id) - Pending(t, id)))
  {
    if p in s.pipelines && s.pipelines[p].StoreEntries? {
      StoreFacts(s, p, s.pipelines[p].id, s.pipelines[p].count);
    } else {
      OtherFacts(s, p, parsing);
      forall q | q in Pending(GoStep(s, p, parsing), id)
        ensures q in Pending(s, id)
      {
        if q != p { assert q in GoStep(s, p, parsing).pipelines - {p}; }
      }
    }
  }

  /** Once an import is closed no further pipeline gets ready to store, and each that does store is
      used up. */
  lemma PendingShrinks(maxSize: nat, s: State, a: Action, id: nat)
    requires Closed(s, id)
    ensures var t := Act(maxSize, s, a);
            s.batches[id] <= t.batches[id] && t.batches[id] + |Pending(t, id)| <= s.batches[id] + |Pending(s, id)|
  {
    var t := Act(maxSize, s, a);
    if a.Go? {
      GoShrinks(s, a.p, a.parsing, id);
      if t.batches[id] > s.batches[id] {
        Subset(Pending(t, id), Pending(s, id) - {a.p});
      }
    }
    assert Pending(t, id) <= Pending(s, id);
    Subset(Pending(t, id), Pending(s, id));
  }

  lemma {:induction false} Subset(a: set<nat>, b: set<nat>)
    requires a <= b
    ensures |a| <= |b|
  {
    assert b == a + (b - a);
  }

  lemma {:induction false} BatchesBounded(maxSize: nat, s: State, actions: seq<Action>, id: nat)
    requires Closed(s, id)
    ensures var t := From(maxSize, s, actions);
            t.batches[id] + |Pending(t, id)| <= s.batches[id] + |Pending(s, id)|
  {
    if actions != [] {
      var before := actions[..|actions| - 1];
      BatchesBounded(maxSize, s, before, id);
      TerminalStays(maxSize, s, before, id);
      PendingShrinks(maxSize, From(maxSize, s, before), actions[|actions| - 1], id);
    }
  }

  lemma Extend(maxSize: nat, s: State, actions: seq<Action>, a: Action)
    ensures From(maxSize, s, actions + [a]) == Act(maxSize, From(maxSize, s, actions), a)
  {
    assert (actions + [a])[..|actions|] == actions;
  }

  lemma TwoMore(maxSize: nat, s: State, actions: seq<Action>, a: Action, b: Action)
    ensures From(maxSize, s, actions + [a] + [b]) == Act(maxSize, Act(maxSize, From(maxSize, s, actions), a), b)
  {
    Extend(maxSize, s, actions, a);
    Extend(maxSize, s, actions + [a], b);
  }

  /** A pending pipeline can store next; that adds its batch and leaves the others pending. */
  lemma PendingStores(maxSize: nat, s: State, id: nat, p: nat)
    requires p in Pending(s, id)
    ensures var t := Act(maxSize, s, Go(p, NoParser));
            && t.batches[id] == s.batches[id] + 1 && t.entries[id] == s.entries[id] + s.pipelines[p].count
            && Pending(t, id) == Pending(s, id) - {p}
            && t.pipelines - {p} == s.pipelines - {p} && (Closed(s, id) ==> Closed(t, id))
  {
    StoreFacts(s, p, id, s.pipelines[p].count);
    if Closed(s, id) { StatusMoves(maxSize, s, Go(p, NoParser), id); }
  }

  /** Every pending pipeline can store its batch. */
  lemma {:induction false} AllPendingStore(maxSize: nat, s: State, id: nat) returns (actions: seq<Action>)
    ensures From(maxSize, s, actions).batches[id] == s.batches[id] + |Pending(s, id)|
  {
    actions := [];
    ghost var t := s;
    while Pending(t, id) != {}
      invariant t == From(maxSize, s, actions)
      invariant t.batches[id] + |Pending(t, id)| == s.batches[id] + |Pending(s, id)|
      decreases |Pending(t, id)|
    {
      ghost var p :| p in Pending(t, id);
      PendingStores(maxSize, t, id, p);
      Extend(maxSize, s, actions, Go(p, NoParser));
      actions := actions + [Go(p, NoParser)];
      t := Act(maxSize, t, Go(p, NoParser));
    }
  }

  predicate IsReceived(s: State, id: nat) {
    id in s.imports && s.imports[id].status == Received && s.imports[id].payload
  }

  /** A pipeline started on a received import can get ready to store. */
  lemma GetsReady(maxSize: nat, s: State, id: nat, p: nat, count: nat)
    requires IsReceived(s, id) && p !in s.pipelines
    ensures Act(maxSize, Act(maxSize, s, StartPipeline(p, id)), Go(p, Entries(count))) ==
            Move(s, p, StoreEntries(id, count))
  {
    assert s.pipelines[p := ReadForParse(id)][p := StoreEntries(id, count)] ==
           s.pipelines[p := StoreEntries(id, count)];
  }

  lemma BothStore(maxSize: nat, s: State, id: nat, p: nat, q: nat, count: nat)
    requires p != q && count > 0
    ensures var both := Move(Move(s, p, StoreEntries(id, count)), q, StoreEntries(id, count));
            var t := Act(maxSize, Act(maxSize, both, Go(p, NoParser)), Go(q, NoParser));
            t.batches[id] == s.batches[id] + 2 && t.entries[id] == s.entries[id] + 2 * count
  {
    var both := Move(Move(s, p, StoreEntries(id, count)), q, StoreEntries(id, count));
    PendingStores(maxSize, both, id, p);
    var stored := Act(maxSize, both, Go(p, NoParser));
    assert q in both.pipelines - {p} && (stored.pipelines - {p})[q] == (both.pipelines - {p})[q];
    PendingStores(maxSize, stored, id, q);
  }

  /** Two pipelines started on a received import can both read it before either stores, and then
      store every entry twice. `before` led to the received state from `start`. */
  lemma OverlapStoresTwice(maxSize: nat, start: State, before: seq<Action>, id: nat, count: nat)
    returns (actions: seq<Action>)
    requires IsReceived(From(maxSize, start, before), id) && count > 0
    ensures before <= actions
    ensures var s, t := From(maxSize, start, before), From(maxSize, start, actions);
            t.batches[id] == s.batches[id] + 2 && t.entries[id] == s.entries[id] + 2 * count
  {
    var s := From(maxSize, start, before);
    var p := FreeId(s.pipelines.Keys);
    var q := p + 1;
    GetsReady(maxSize, s, id, p, count);
    TwoMore(maxSize, start, before, StartPipeline(p, id), Go(p, Entries(count)));
    var first := before + [StartPipeline(p, id)] + [Go(p, Entries(count))];
    GetsReady(maxSize, Move(s, p, StoreEntries(id, count)), id, q, count);
    TwoMore(maxSize, start, first, StartPipeline(q, id), Go(q, Entries(count)));
    var second := first + [StartPipeline(q, id)] + [Go(q, Entries(count))];
    BothStore(maxSize, s, id, p, q, count);
    TwoMore(maxSize, start, second, Go(p, NoParser), Go(q, NoParser));
    actions := second + [Go(p, NoParser)] + [Go(q, NoParser)];
  }

  // ---------------------------------------------------------------- when entries are stored once

  /** The import may still be requested or uploaded. */
  ghost predicate Open(s: State, id: nat) {
    id in s.imports ==> s.imports[id].status in {Requested, Uploading}
  }

  ghost predicate StoredOnceFrom(maxSize: nat, s: State, id: nat) {
    forall actions :: From(maxSize, s, actions).batches[id] <= 1
  }

  /** An open import can be received. */
  lemma GetsReceived(maxSize: nat, s: State, id: nat) returns (actions: seq<Action>)
    requires Open(s, id) && maxSize > 0
    ensures IsReceived(From(maxSize, s, actions), id)
    ensures From(maxSize, s, actions).batches == s.batches
  {
    var token := if id in s.imports && s.imports[id].tokenHash.Some? then s.imports[id].tokenHash.value else 0;
    TwoMore(maxSize, s, [], Request(id, true, None), Upload(id, token, 1));
    actions := [] + [Request(id, true, None)] + [Upload(id, token, 1)];
  }

  /** Nothing is stored of an import that cannot be uploaded. */
  ghost predicate Untouched(s: State, id: nat) {
    && s.batches[id] == 0 && Pending(s, id) == {}
    && (id in s.imports ==> s.imports[id].status in {Requested, Uploading, Failed, Expired})
  }

  lemma GoStaysUntouched(s: State, p: nat, parsing: Parsing, id: nat)
    requires Untouched(s, id)
    ensures var t := GoStep(s, p, parsing); t.batches[id] == 0 && Pending(t, id) == {}
  {
    var t := GoStep(s, p, parsing);
    if p in s.pipelines && s.pipelines[p].StoreEntries? {
      StoreFacts(s, p, s.pipelines[p].id, s.pipelines[p].count);
      assert p !in Pending(s, id);
    } else {
      OtherFacts(s, p, parsing);
    }
    forall q | q in t.pipelines
      ensures q !in Pending(t, id)
    {
      if q != p {
        assert q in t.pipelines - {p};
        assert q in s.pipelines && t.pipelines[q] == s.pipelines[q] && q !in Pending(s, id);
      }
    }
  }

  lemma StaysUntouched(s: State, a: Action, id: nat)
    requires Untouched(s, id)
    ensures Untouched(Act(0, s, a), id)
  {
    var t := Act(0, s, a);
    if id in s.imports { StatusMoves(0, s, a, id); }
    if a.Go? {
      GoStaysUntouched(s, a.p, a.parsing, id);
    } else {
      OutsideFacts(0, s, a);
      forall q | q in t.pipelines
        ensures q !in Pending(t, id)
      {
        assert q !in Pending(s, id);
      }
    }
  }

  lemma {:induction false} StaysUntouchedOver(s: State, actions: seq<Action>, id: nat)
    requires Untouched(s, id)
    ensures Untouched(From(0, s, actions), id)
  {
    if actions != [] {
      StaysUntouchedOver(s, actions[..|actions| - 1], id);
      StaysUntouched(From(0, s, actions[..|actions| - 1]), actions[|actions| - 1], id);
    }
  }

  /** A pipeline that is ready to store refers to a row that was received. */
  lemma OpenIsUntouched(s: State, id: nat)
    requires Inv(s) && Open(s, id)
    ensures Untouched(s, id)
  {
    assert EntriesOk(s, id);
    forall p | p in s.pipelines
      ensures p !in Pending(s, id)
    {
      assert PipelineOk(s, s.pipelines[p]);
    }
  }

  /** Whether pipelines on `id`, started freely, store its entries at most once from here on: never while the
      import is received or can be; afterwards when the batches stored and the pipelines ready to
      store number at most one. */
  ghost predicate StoresOnce(maxSize: nat, s: State, id: nat) {
    if Open(s, id) then maxSize == 0
    else if s.imports[id].status == Received then false
    else s.batches[id] + |Pending(s, id)| <= 1
  }

  lemma StoresOnceIsEnough(maxSize: nat, s: State, id: nat, actions: seq<Action>)
    requires Inv(s) && StoresOnce(maxSize, s, id)
    ensures From(maxSize, s, actions).batches[id] <= 1
  {
    if Open(s, id) {
      OpenIsUntouched(s, id);
      StaysUntouchedOver(s, actions, id);
    } else {
      BatchesBounded(maxSize, s, actions, id);
    }
  }

  lemma StoresTwice(maxSize: nat, s: State, id: nat) returns (actions: seq<Action>)
    requires Inv(s) && !StoresOnce(maxSize, s, id)
    ensures From(maxSize, s, actions).batches[id] > 1
  {
    if Open(s, id) {
      var first := GetsReceived(maxSize, s, id);
      actions := OverlapStoresTwice(maxSize, s, first, id, 1);
    } else if s.imports[id].status == Received {
      assert ImportOk(s, id);
      assert From(maxSize, s, []) == s;
      actions := OverlapStoresTwice(maxSize, s, [], id, 1);
    } else {
      actions := AllPendingStore(maxSize, s, id);
    }
  }

  /** Repeated pipelines are not idempotent. In every reachable state, the entries of an import are stored at
      most once in every continuation if and only if `StoresOnce` holds. */
  lemma StoredOnceExactly(maxSize: nat, past: seq<Action>, id: nat)
    ensures var s := After(maxSize, past); StoredOnceFrom(maxSize, s, id) <==> StoresOnce(maxSize, s, id)
  {
    var s := After(maxSize, past);
    RunKeeps(maxSize, Start(), past);
    if StoresOnce(maxSize, s, id) {
      forall actions
        ensures From(maxSize, s, actions).batches[id] <= 1
      {
        StoresOnceIsEnough(maxSize, s, id, actions);
      }
    } else {
      var actions := StoresTwice(maxSize, s, id);
      assert From(maxSize, s, actions).batches[id] > 1;
    }
  }

  // ---------------------------------------------------------------- one pipeline per upload

  predicate Accepts(maxSize: nat, s: State, a: Action, id: nat) {
    a.Upload? && a.id == id && ReceiveUpload(s.imports, id, a.presented, a.size, maxSize).Ok?
  }

  predicate StartsOn(s: State, a: Action, id: nat) {
    a.StartPipeline? && a.id == id && a.p !in s.pipelines
  }

  /** How many uploads of `id` were accepted. */
  function Uploads(maxSize: nat, actions: seq<Action>, id: nat): nat {
    if actions == [] then 0
    else
      var before := actions[..|actions| - 1];
      Uploads(maxSize, before, id) + Bit(Accepts(maxSize, After(maxSize, before), actions[|actions| - 1], id))
  }

  /** How many pipelines were started on `id`. */
  function Starts(maxSize: nat, actions: seq<Action>, id: nat): nat {
    if actions == [] then 0
    else
      var before := actions[..|actions| - 1];
      Starts(maxSize, before, id) + Bit(StartsOn(After(maxSize, before), actions[|actions| - 1], id))
  }

  lemma {:induction false} AcceptedOnce(maxSize: nat, actions: seq<Action>, id: nat)
    ensures Uploads(maxSize, actions, id) <= 1
    ensures Uploads(maxSize, actions, id) == 1 ==> !Open(After(maxSize, actions), id)
  {
    if actions != [] {
      var before, a := actions[..|actions| - 1], actions[|actions| - 1];
      AcceptedOnce(maxSize, before, id);
      var s := After(maxSize, before);
      if id in s.imports { StatusMoves(maxSize, s, a, id); }
    }
  }

  /** The pipelines that may still store entries of `id`. */
  function Runners(s: State, id: nat): set<nat> {
    set p | p in s.pipelines && s.pipelines[p].id == id &&
            (s.pipelines[p].ReadForParse? || s.pipelines[p].StoreEntries?)
  }

  lemma GoRuns(s: State, p: nat, parsing: Parsing, id: nat)
    ensures var t := GoStep(s, p, parsing);
            && Runners(t, id) <= Runners(s, id)
            && (t.batches[id] == s.batches[id] ||
                (t.batches[id] == s.batches[id] + 1 && p in Runners(s, id) - Runners(t, id)))
  {
    var t := GoStep(s, p, parsing);
    if p in s.pipelines && s.pipelines[p].StoreEntries? {
      StoreFacts(s, p, s.pipelines[p].id, s.pipelines[p].count);
    } else {
      OtherFacts(s, p, parsing);
      forall q | q in Runners(t, id)
        ensures q in Runners(s, id)
      {
        if q != p { assert q in t.pipelines - {p}; }
      }
    }
  }

  lemma OutsideRuns(maxSize: nat, s: State, a: Action, id: nat)
    requires !a.Go?
    ensures var t := Act(maxSize, s, a);
            t.batches == s.batches && Runners(t, id) <= Runners(s, id) + if StartsOn(s, a, id) then {a.p} else {}
  {
    OutsideFacts(maxSize, s, a);
  }

  lemma StepRuns(maxSize: nat, s: State, a: Action, id: nat)
    ensures var t := Act(maxSize, s, a);
            t.batches[id] + |Runners(t, id)| <= s.batches[id] + |Runners(s, id)| + Bit(StartsOn(s, a, id))
  {
    var before, after := Runners(s, id), Runners(Act(maxSize, s, a), id);
    if a.Go? {
      GoRuns(s, a.p, a.parsing, id);
      Subset(after, before);
      if a.p in before - after { Subset(after, before - {a.p}); }
    } else {
      OutsideRuns(maxSize, s, a, id);
      Subset(after, before + if StartsOn(s, a, id) then {a.p} else {});
    }
  }

  lemma {:induction false} BatchesWithinStarts(maxSize: nat, actions: seq<Action>, id: nat)
    ensures var s := After(maxSize, actions); s.batches[id] + |Runners(s, id)| <= Starts(maxSize, actions, id)
  {
    if actions != [] {
      var before := actions[..|actions| - 1];
      BatchesWithinStarts(maxSize, before, id);
      StepRuns(maxSize, After(maxSize, before), actions[|actions| - 1], id);
    }
  }

  /** The upload endpoint starts one pipeline per accepted upload, and an import is accepted once: then its
      entries are stored at most once, whatever else interleaves. */
  lemma UploadsStoreOnce(maxSize: nat, actions: seq<Action>, id: nat)
    requires Starts(maxSize, actions, id) <= Uploads(maxSize, actions, id)
    ensures After(maxSize, actions).batches[id] <= 1
  {
    AcceptedOnce(maxSize, actions, id);
    BatchesWithinStarts(maxSize, actions, id);
  }

  // ---------------------------------------------------------------- uploads

  predicate TokenFits(row: Import, presented: nat) {
    row.tokenHash == None || row.tokenHash == Some(presented)
  }

  /** An upload is accepted exactly if its size is allowed, the import is known, its token fits and the import still
      waits for it; what refuses it decides the answer. */
  lemma UploadMeans(imports: map<nat, Import>, id: nat, presented: nat, size: nat, maxSize: nat)
    ensures var r := ReceiveUpload(imports, id, presented, size, maxSize);
            var sized := 1 <= size <= maxSize;
            && (r.Ok? <==> sized && id in imports && TokenFits(imports[id], presented)
                           && imports[id].status in {Requested, Uploading})
            && (r.Ok? ==> r.value == imports[id].(status := Received, payload := true))
            && (r == Err(413) <==> size > maxSize)
            && (r == Err(400) <==> size == 0)
            && (r == Err(404) <==> sized && id !in imports)
            && (r == Err(401) <==> sized && id in imports && !TokenFits(imports[id], presented))
            && (r == Err(409) <==> sized && id in imports && TokenFits(imports[id], presented)
                                   && imports[id].status !in {Requested, Uploading})
  {
    if id in imports {
      match imports[id].tokenHash
      case None =>
      case Some(hash) =>
    }
    if id in imports {
      match imports[id].status
      case Requested =>
      case Uploading =>
      case _ => assert imports[id].status in {Received, Parsed, Reconciled, Failed, Expired};
    }
  }

  lemma PayloadStep(maxSize: nat, s: State, a: Action, id: nat)
    requires id in Act(maxSize, s, a).imports && Act(maxSize, s, a).imports[id].payload
    ensures (id in s.imports && s.imports[id].payload) || Accepts(maxSize, s, a, id)
  {
    if a.Go? {
      if a.p in s.pipelines && s.pipelines[a.p].StoreEntries? {
        StoreFacts(s, a.p, s.pipelines[a.p].id, s.pipelines[a.p].count);
      } else {
        ImportFacts(s, a.p, a.parsing);
      }
    }
  }

  /** An import holds a payload only after exactly one accepted upload of it. */
  lemma {:induction false} PayloadWasUploaded(maxSize: nat, actions: seq<Action>, id: nat)
    ensures var s := After(maxSize, actions);
            id in s.imports && s.imports[id].payload ==> Uploads(maxSize, actions, id) == 1
  {
    AcceptedOnce(maxSize, actions, id);
    if actions != [] {
      var before, a := actions[..|actions| - 1], actions[|actions| - 1];
      PayloadWasUploaded(maxSize, before, id);
      var s := After(maxSize, before);
      var t := Act(maxSize, s, a);
      if id in t.imports && t.imports[id].payload { PayloadStep(maxSize, s, a, id); }
    }
  }

  /** What the charger and the expiry job do to an import: nothing once it was received. */
  lemma ChargerMeans(maxSize: nat, s: State, id: nat)
    requires id in s.imports
    ensures var row := s.imports[id];
            var waits := row.status == Requested || row.status == Uploading;
            var acked := if row.status == Requested then row.(status := Uploading) else row;
            && Act(maxSize, s, ChargerAcks(id)).imports == s.imports[id := acked]
            && Act(maxSize, s, ChargerFails(id)).imports ==
               s.imports[id := if waits then row.(status := Failed) else row]
            && Act(maxSize, s, Expire(id)).imports == s.imports[id := if waits then row.(status := Expired) else row]
  {
    assert s.imports[id := s.imports[id]] == s.imports;
  }

  function Rank(status: Status): nat {
    match status
    case Requested => 0
    case Uploading => 1
    case Received => 2
    case Parsed => 3
    case _ => 4
  }

  /** The allowed moves only lead forward. */
  lemma MovesRise(from: Status, to: Status)
    requires Allowed(from, to) && from != to
    ensures Rank(from) < Rank(to)
  {
  }

  // ---------------------------------------------------------------- a pipeline gets through

  predicate At(s: State, p: nat, q: Pipeline) {
    p in s.pipelines && s.pipelines[p] == q
  }

  /** Storing a parsed log: the entries are there and the import is parsed. */
  lemma StoringParses(maxSize: nat, s: State, p: nat, id: nat, count: nat)
    requires At(s, p, StoreEntries(id, count)) && IsReceived(s, id)
    ensures var t := Act(maxSize, s, Go(p, NoParser));
            && At(t, p, ReadForReconcile(id)) && t.imports == s.imports[id := s.imports[id].(status := Parsed)]
            && t.entries[id] == s.entries[id] + count && t.results == s.results
  {
    StoreFacts(s, p, id, count);
  }

  /** Reconciling writes a result for parsed and for failed imports of a session, and advances parsed ones only. */
  lemma ReconcilingFinishes(maxSize: nat, s: State, p: nat, id: nat)
    requires At(s, p, ReadForReconcile(id)) && id in s.imports && s.imports[id].session
    requires s.imports[id].status in {Parsed, Failed}
    ensures var t := Act(maxSize, Act(maxSize, s, Go(p, NoParser)), Go(p, NoParser));
            && id in t.results && t.imports == s.imports && t.entries == s.entries
            && (s.imports[id].status == Parsed ==> At(t, p, FinishReconcile(id)))
            && (s.imports[id].status == Failed ==> p !in t.pipelines)
  {
    var mid := Act(maxSize, s, Go(p, NoParser));
    assert At(mid, p, WriteResult(id, s.imports[id].status == Parsed)) && mid.imports == s.imports;
  }

  lemma FinishAdvances(maxSize: nat, s: State, p: nat, id: nat)
    requires At(s, p, FinishReconcile(id)) && id in s.imports && s.imports[id].status == Parsed
    ensures var t := Act(maxSize, s, Go(p, NoParser));
            t.imports == s.imports[id := s.imports[id].(status := Reconciled)] && p !in t.pipelines
            && t.results == s.results && t.entries == s.entries
  {
  }

  /** A received import of a session, one pipeline and a log that parses: the import ends reconciled, with its
      entries and its result stored. */
  lemma PipelineReconciles(maxSize: nat, start: State, id: nat, count: nat) returns (actions: seq<Action>)
    requires IsReceived(start, id) && start.imports[id].session
    ensures var t := From(maxSize, start, actions);
            && id in t.imports && t.imports[id].status == Reconciled && id in t.results
            && t.entries[id] == start.entries[id] + count
  {
    var p := FreeId(start.pipelines.Keys);
    assert From(maxSize, start, []) == start;
    GetsReady(maxSize, start, id, p, count);
    TwoMore(maxSize, start, [], StartPipeline(p, id), Go(p, Entries(count)));
    var ready := [] + [StartPipeline(p, id)] + [Go(p, Entries(count))];
    StoringParses(maxSize, From(maxSize, start, ready), p, id, count);
    Extend(maxSize, start, ready, Go(p, NoParser));
    var parsed := ready + [Go(p, NoParser)];
    ReconcilingFinishes(maxSize, From(maxSize, start, parsed), p, id);
    TwoMore(maxSize, start, parsed, Go(p, NoParser), Go(p, NoParser));
    var written := parsed + [Go(p, NoParser)] + [Go(p, NoParser)];
    FinishAdvances(maxSize, From(maxSize, start, written), p, id);
    Extend(maxSize, start, written, Go(p, NoParser));
    actions := written + [Go(p, NoParser)];
  }

  /** A log that does not parse fails the import; without a parser it stays received for a later one. */
  lemma ParsingDecides(maxSize: nat, s: State, p: nat, id: nat)
    requires At(s, p, ReadForParse(id)) && IsReceived(s, id)
    ensures var t := Act(maxSize, Act(maxSize, s, Go(p, ParseError)), Go(p, NoParser));
            && id in t.imports && t.imports[id] == s.imports[id].(status := Failed)
            && At(t, p, ReadForReconcile(id)) && t.entries == s.entries
    ensures var t := Act(maxSize, s, Go(p, NoParser));
            t.imports == s.imports && t.entries == s.entries && At(t, p, ReadForReconcile(id))
  {
    var mid := Act(maxSize, s, Go(p, ParseError));
    assert At(mid, p, FailParse(id)) && mid.imports == s.imports;
  }

  /** A pipeline that throws fails its import, unless it is in a terminal state already. */
  lemma ThrowingFails(maxSize: nat, s: State, p: nat, parsing: Parsing)
    requires p in s.pipelines && s.pipelines[p].id in s.imports
    ensures var id := s.pipelines[p].id;
            var t := Act(maxSize, Act(maxSize, s, Throw(p)), Go(p, parsing));
            && id in t.imports && p !in t.pipelines
            && t.imports[id] == if Terminal(s.imports[id].status) then s.imports[id]
                                else s.imports[id].(status := Failed)
  {
    var mid := Act(maxSize, s, Throw(p));
    assert At(mid, p, FailPipeline(s.pipelines[p].id)) && mid.imports == s.imports;
  }
}
