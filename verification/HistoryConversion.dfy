/**
 Conversion of a persisted transcript into history rows (desktop/app.go:5478-5669).

 `ConvertState.ConvertHistoryMessage` turns one provider message into its rows and advances the planner
 queues and the canonical-turn suppression flag; `ConvertState.ConsumeHistoryPlannerState` is the skip form
 that windowed pages run over the prefix they do not render. The module determines for which messages
 and which transcripts the two keep in lock-step.
 */
module HistoryConversion {
  import opened Common

  datatype Role = User | Assistant | Tool | System
  datatype Origin = Unrecorded | FromUser | FromHost

  /** Persisted protocol recovery record: absent, undecodable, or decoded with its state. */
  datatype ProtocolRecovery = NoRecovery | Undecodable | Decoded(id: string, pending: bool)

  datatype Readiness = Readiness(pending: bool, missing: seq<string>)

  /** The fields of a provider message that the conversion branches on. */
  datatype Message = Message(
    role: Role,
    origin: Origin,
    content: string,
    rawContent: string,
    localOnly: bool,
    decisionReceipt: Option<string>,
    decisionReceipts: seq<Option<string>>,
    readPause: bool,
    protocolRecovery: ProtocolRecovery,
    finalReadiness: Option<Readiness>,
    interruptedTurn: Option<string>)

  /** The rendered part of an ordinary row; it depends on the message alone, never on planner state. */
  datatype Body = Body(content: string, reasoning: string, toolCalls: seq<string>)

  datatype Row =
    | ReceiptNotice(receipt: string)
    | ReadPauseNotice
    | ProtocolNotice(id: string)
    | ReadinessNotice(missing: seq<string>)
    | SteerNotice(text: string, unapplied: bool)
    | BodyRow(role: Role, body: Body, checkpointTurn: Option<int>)
    | InterruptedNotice(turn: string)
    | CancelledTurnNotice(text: string)

  /** One recorded planner display: the hash of the user text it answers and the rows to show. */
  datatype PlannerTurn = PlannerTurn(userHash: string, messages: seq<Row>)

  /** The text recognisers and the per-message rendering, as arbitrary functions. */
  datatype Env = Env(
    steerText: string -> Option<string>,
    hostGuidance: string -> bool,
    syntheticText: string -> bool,
    trimmed: string -> string,
    previewText: string -> string,
    blankUserText: string -> bool,
    displayKey: string -> string,
    render: Message -> Body)

  /** What crosses message boundaries: planner displays queued per user-text hash, and suppression. */
  datatype PlannerState = PlannerState(queues: map<string, seq<PlannerTurn>>, suppress: bool) {
    function Queue(key: string): seq<PlannerTurn> { Lookup(queues, key, []) }
  }

  // ---- Message classifiers (internal/agent/preview.go:206-211, 329-398) ----

  predicate HostGenerated(env: Env, m: Message) {
    m.role.User? &&
    match m.origin
    case FromHost => true
    case FromUser => false
    case Unrecorded => env.syntheticText(m.content)
  }

  function UserMessageText(env: Env, m: Message): string {
    if m.rawContent != "" then env.trimmed(m.rawContent) else env.previewText(m.content)
  }

  predicate Steer(env: Env, m: Message) { env.steerText(m.content).Some? }

  predicate UserAuthoredTurn(env: Env, m: Message) {
    m.role.User? && !HostGenerated(env, m) && !env.blankUserText(UserMessageText(env, m)) && !Steer(env, m)
  }

  function Key(env: Env, m: Message): string { env.displayKey(UserMessageText(env, m)) }

  predicate SuppressesCanonical(turn: PlannerTurn) {
    exists i :: 0 <= i < |turn.messages| && turn.messages[i].CancelledTurnNotice?
  }

  // ---- Rows produced by the early branches ----

  /** Steer text replays as a notice; steered host guidance is recognised but shows nothing. */
  function SteerRows(env: Env, content: string, unapplied: bool): Option<seq<Row>> {
    match env.steerText(content)
    case None => None
    case Some(text) =>
      var shown := if env.hostGuidance(text) then "" else text;
      Some(if shown == "" then [] else [SteerNotice(shown, unapplied)])
  }

  /** Local-only records that replay as a notice of their own; None when the record is not one of them. */
  function LocalOnlyRows(env: Env, m: Message): Option<seq<Row>> {
    if !m.localOnly then None
    else if m.readPause then Some([ReadPauseNotice])
    else if !m.protocolRecovery.NoRecovery? then
      Some(if m.protocolRecovery.Decoded? && m.protocolRecovery.pending then [ProtocolNotice(m.protocolRecovery.id)] else [])
    else if m.finalReadiness.Some? && m.finalReadiness.value.pending then
      Some([ReadinessNotice(m.finalReadiness.value.missing)])
    else SteerRows(env, m.content, true)
  }

  function ReceiptRows(receipts: seq<Option<string>>): seq<Row> {
    if receipts == [] then []
    else
      var rest := ReceiptRows(receipts[..|receipts| - 1]);
      match receipts[|receipts| - 1]
      case None => rest
      case Some(r) => rest + [ReceiptNotice(r)]
  }

  predicate BodyVisible(env: Env, m: Message) {
    var body := env.render(m);
    || !m.localOnly
    || env.trimmed(body.content) != ""
    || env.trimmed(body.reasoning) != ""
    || |body.toolCalls| > 0
  }

  function OwnRows(env: Env, checkpointTurns: map<int, int>, index: int, m: Message): seq<Row> {
    var turn := if m.role.User? && index in checkpointTurns then Some(checkpointTurns[index]) else None;
    var role := if m.localOnly then Assistant else m.role;
    (if BodyVisible(env, m) then [BodyRow(role, env.render(m), turn)] else [])
    + ReceiptRows(m.decisionReceipts)
    + (if m.localOnly && m.interruptedTurn.Some? then [InterruptedNotice(m.interruptedTurn.value)] else [])
  }

  /** The receipts that rows show, in order. */
  function ShownReceipts(rows: seq<Row>): seq<string> {
    if rows == [] then []
    else (if rows[0].ReceiptNotice? then [rows[0].receipt] else []) + ShownReceipts(rows[1..])
  }

  /** The receipts that are present, in order. */
  function PresentReceipts(receipts: seq<Option<string>>): seq<string> {
    if receipts == [] then []
    else (if receipts[0].Some? then [receipts[0].value] else []) + PresentReceipts(receipts[1..])
  }

  lemma {:induction false} ShownReceiptsConcat(a: seq<Row>, b: seq<Row>)
    ensures ShownReceipts(a + b) == ShownReceipts(a) + ShownReceipts(b)
  {
    if a == [] {
      assert a + b == b;
    } else {
      assert (a + b)[1..] == a[1..] + b;
      ShownReceiptsConcat(a[1..], b);
    }
  }

  lemma {:induction false} PresentReceiptsSnoc(receipts: seq<Option<string>>, last: Option<string>)
    ensures PresentReceipts(receipts + [last]) == PresentReceipts(receipts) + if last.Some? then [last.value] else []
  {
    if receipts == [] {
      assert [last][1..] == [];
    } else {
      assert (receipts + [last])[1..] == receipts[1..] + [last];
      PresentReceiptsSnoc(receipts[1..], last);
      var first := if receipts[0].Some? then [receipts[0].value] else [];
      var end := if last.Some? then [last.value] else [];
      assert PresentReceipts(receipts + [last]) == first + PresentReceipts(receipts[1..] + [last]);
      assert first + (PresentReceipts(receipts[1..]) + end) == (first + PresentReceipts(receipts[1..])) + end;
    }
  }

  lemma {:induction false} ReceiptRowsShowPresent(receipts: seq<Option<string>>)
    ensures ShownReceipts(ReceiptRows(receipts)) == PresentReceipts(receipts)
    ensures forall i :: 0 <= i < |ReceiptRows(receipts)| ==> ReceiptRows(receipts)[i].ReceiptNotice?
    ensures |ReceiptRows(receipts)| == |PresentReceipts(receipts)|
  {
    if receipts != [] {
      var (rest, last) := (receipts[..|receipts| - 1], receipts[|receipts| - 1]);
      ReceiptRowsShowPresent(rest);
      PresentReceiptsSnoc(rest, last);
      assert receipts == rest + [last];
      if last.Some? {
        ShownReceiptsConcat(ReceiptRows(rest), [ReceiptNotice(last.value)]);
        assert [ReceiptNotice(last.value)][1..] == [];
      }
    }
  }

  lemma OwnRowsShowReceipts(env: Env, checkpointTurns: map<int, int>, index: int, m: Message)
    ensures ShownReceipts(OwnRows(env, checkpointTurns, index, m)) == PresentReceipts(m.decisionReceipts)
  {
    var turn := if m.role.User? && index in checkpointTurns then Some(checkpointTurns[index]) else None;
    var body := if BodyVisible(env, m) then [BodyRow(if m.localOnly then Assistant else m.role, env.render(m), turn)] else [];
    var notice := if m.localOnly && m.interruptedTurn.Some? then [InterruptedNotice(m.interruptedTurn.value)] else [];
    ReceiptRowsShowPresent(m.decisionReceipts);
    ShownReceiptsConcat(body, ReceiptRows(m.decisionReceipts));
    ShownReceiptsConcat(body + ReceiptRows(m.decisionReceipts), notice);
    assert ShownReceipts(body) == [] && ShownReceipts(notice) == [];
    assert PresentReceipts(m.decisionReceipts) + [] == PresentReceipts(m.decisionReceipts);
  }

  /**
   What a reader of the rows of one ordinary message finds: its body once and first unless the message is a local
   record with nothing to show, every present receipt once and in order, the interruption of a local record last,
   and nothing else. Only a user message at a checkpoint carries a turn to rewind to.
   */
  lemma OwnRowsContent(env: Env, checkpointTurns: map<int, int>, index: int, m: Message)
    ensures
      var rows := OwnRows(env, checkpointTurns, index, m);
      var interrupted := m.localOnly && m.interruptedTurn.Some?;
      var turn := if m.role.User? && index in checkpointTurns then Some(checkpointTurns[index]) else None;
      var body := env.render(m);
      var visible := !m.localOnly || env.trimmed(body.content) != "" || env.trimmed(body.reasoning) != "" || body.toolCalls != [];
      && ShownReceipts(rows) == PresentReceipts(m.decisionReceipts)
      && (forall i :: 0 <= i < |rows| ==>
            && (rows[i].BodyRow? || rows[i].ReceiptNotice? || rows[i].InterruptedNotice?)
            && (rows[i].BodyRow? <==> i == 0 && visible)
            && (rows[i].InterruptedNotice? <==> i == |rows| - 1 && interrupted)
            && (rows[i].BodyRow? ==> rows[i].body == body && rows[i].checkpointTurn == turn)
            && (rows[i].BodyRow? ==> rows[i].role == if m.localOnly then Assistant else m.role))
      && (visible ==> rows != [] && rows[0].BodyRow?)
      && (interrupted ==> rows != [] && rows[|rows| - 1] == InterruptedNotice(m.interruptedTurn.value))
  {
    OwnRowsShowReceipts(env, checkpointTurns, index, m);
    ReceiptRowsShowPresent(m.decisionReceipts);
  }

  // ---- Specification of the two forms ----

  /** Takes the next planner display queued for a user message, if there is one. */
  function TakePlanner(env: Env, s: PlannerState, m: Message): (PlannerState, seq<Row>) {
    var turns := s.Queue(Key(env, m));
    if turns == [] then (s, [])
    else (PlannerState(s.queues[Key(env, m) := turns[1..]], SuppressesCanonical(turns[0])), turns[0].messages)
  }

  /** One message, rendered. */
  function Convert(env: Env, checkpointTurns: map<int, int>, s: PlannerState, index: int, m: Message): (PlannerState, seq<Row>) {
    if m.decisionReceipt.Some? then (s, [ReceiptNotice(m.decisionReceipt.value)])
    else if LocalOnlyRows(env, m).Some? then (s, LocalOnlyRows(env, m).value)
    else if s.suppress && !UserAuthoredTurn(env, m) then (s, [])
    else
      var s := s.(suppress := false);
      if m.role.User? && Steer(env, m) then (s, SteerRows(env, m.content, false).value)
      else if HostGenerated(env, m) then (s, [])
      else
        var own := OwnRows(env, checkpointTurns, index, m);
        if !m.role.User? then (s, own)
        else
          var (s', planned) := TakePlanner(env, s, m);
          (s', own + planned)
  }

  /** One message, skipped. */
  function Skip(env: Env, s: PlannerState, m: Message): PlannerState {
    if m.decisionReceipt.Some? then s
    else if m.localOnly && Steer(env, m) then s
    else if s.suppress && !UserAuthoredTurn(env, m) then s
    else
      var s := s.(suppress := false);
      if !m.role.User? || HostGenerated(env, m) then s
      else TakePlanner(env, s, m).0
  }

  /** A whole pass; message i of msgs has position base + i. */
  function ConvertAll(env: Env, checkpointTurns: map<int, int>, s: PlannerState, base: int, msgs: seq<Message>): (PlannerState, seq<Row>)
    decreases msgs
  {
    if msgs == [] then (s, [])
    else
      var (s', rows) := Convert(env, checkpointTurns, s, base, msgs[0]);
      var (s'', rest) := ConvertAll(env, checkpointTurns, s', base + 1, msgs[1..]);
      (s'', rows + rest)
  }

  function SkipAll(env: Env, s: PlannerState, msgs: seq<Message>): PlannerState
    decreases msgs
  {
    if msgs == [] then s else SkipAll(env, Skip(env, s, msgs[0]), msgs[1..])
  }

  // ---- The stateful forms ----

  /** The message's own row, its decision receipts and its interruption notice. */
  method RenderOwnRows(env: Env, checkpointTurns: map<int, int>, index: int, m: Message) returns (rows: seq<Row>)
    ensures rows == OwnRows(env, checkpointTurns, index, m)
  {
    var checkpointTurn: Option<int> := None;
    if m.role.User? && index in checkpointTurns {
      checkpointTurn := Some(checkpointTurns[index]);
    }
    var displayRole := if m.localOnly then Assistant else m.role;
    rows := [];
    if BodyVisible(env, m) {
      rows := rows + [BodyRow(displayRole, env.render(m), checkpointTurn)];
    }
    rows := AppendReceipts(rows, m.decisionReceipts);
    if m.localOnly && m.interruptedTurn.Some? {
      rows := rows + [InterruptedNotice(m.interruptedTurn.value)];
    }
  }

  method AppendReceipts(before: seq<Row>, receipts: seq<Option<string>>) returns (rows: seq<Row>)
    ensures rows == before + ReceiptRows(receipts)
  {
    rows := before;
    for i := 0 to |receipts|
      invariant rows == before + ReceiptRows(receipts[..i])
    {
      assert receipts[..i + 1][..i] == receipts[..i];
      if receipts[i].Some? {
        rows := rows + [ReceiptNotice(receipts[i].value)];
      }
    }
    assert receipts[..|receipts|] == receipts;
  }

  class ConvertState {
    var plannerByUserHash: map<string, seq<PlannerTurn>>
    var suppressCanonicalTurn: bool

    ghost function Planner(): PlannerState
      reads this
    {
      PlannerState(plannerByUserHash, suppressCanonicalTurn)
    }

    /** Groups the recorded planner displays by user-text hash, in order, dropping unusable ones. */
    constructor (plannerTurns: seq<PlannerTurn>, blank: string -> bool)
      ensures Planner() == InitialState(plannerTurns, blank)
    {
      var queues: map<string, seq<PlannerTurn>> := map[];
      for i := 0 to |plannerTurns|
        invariant queues == InitialState(plannerTurns[..i], blank).queues
      {
        var turn := plannerTurns[i];
        assert plannerTurns[..i + 1][..i] == plannerTurns[..i];
        if blank(turn.userHash) || turn.messages == [] {
          continue;
        }
        queues := queues[turn.userHash := Lookup(queues, turn.userHash, []) + [turn]];
      }
      assert plannerTurns[..|plannerTurns|] == plannerTurns;
      assert !InitialState(plannerTurns, blank).suppress by { InitialNeverSuppresses(plannerTurns, blank); }
      plannerByUserHash := queues;
      suppressCanonicalTurn := false;
    }

    method ConvertHistoryMessage(env: Env, checkpointTurns: map<int, int>, index: int, m: Message) returns (rows: seq<Row>)
      modifies this
      ensures (Planner(), rows) == Convert(env, checkpointTurns, old(Planner()), index, m)
    {
      if m.decisionReceipt.Some? {
        return [ReceiptNotice(m.decisionReceipt.value)];
      }
      var localRows := LocalOnlyRows(env, m);
      if localRows.Some? {
        return localRows.value;
      }
      if suppressCanonicalTurn {
        if !UserAuthoredTurn(env, m) {
          return [];
        }
        suppressCanonicalTurn := false;
      }
      if m.role.User? {
        var steerRows := SteerRows(env, m.content, false);
        if steerRows.Some? {
          return steerRows.value;
        }
        if HostGenerated(env, m) {
          return [];
        }
      }
      rows := RenderOwnRows(env, checkpointTurns, index, m);
      ghost var own := rows;
      assert own + [] == own;
      if m.role.User? {
        var key := Key(env, m);
        var turns := Lookup(plannerByUserHash, key, []);
        if |turns| > 0 {
          rows := rows + turns[0].messages;
          suppressCanonicalTurn := SuppressesCanonical(turns[0]);
          plannerByUserHash := plannerByUserHash[key := turns[1..]];
        }
      }
    }

    method ConsumeHistoryPlannerState(env: Env, m: Message)
      modifies this
      ensures Planner() == Skip(env, old(Planner()), m)
    {
      if m.decisionReceipt.Some? {
        return;
      }
      if m.localOnly {
        if Steer(env, m) {
          return;
        }
      }
      if suppressCanonicalTurn {
        if !UserAuthoredTurn(env, m) {
          return;
        }
        suppressCanonicalTurn := false;
      }
      if !m.role.User? {
        return;
      }
      if HostGenerated(env, m) {
        return;
      }
      var key := Key(env, m);
      var turns := Lookup(plannerByUserHash, key, []);
      if |turns| > 0 {
        suppressCanonicalTurn := SuppressesCanonical(turns[0]);
        plannerByUserHash := plannerByUserHash[key := turns[1..]];
      }
    }

    /** Skips the unrendered prefix of a windowed page; nothing is read when no display is queued. */
    method PrimePlannerState(env: Env, prefix: seq<Message>)
      requires !suppressCanonicalTurn
      modifies this
      ensures Planner() == SkipAll(env, old(Planner()), prefix)
    {
      if |prefix| == 0 {
        return;
      }
      if |plannerByUserHash| == 0 {
        NothingQueuedNothingSkipped(env, Planner(), prefix);
        return;
      }
      for i := 0 to |prefix|
        invariant Planner() == SkipAll(env, old(Planner()), prefix[..i])
      {
        SkipAllAppend(env, old(Planner()), prefix[..i], prefix[i]);
        assert prefix[..i] + [prefix[i]] == prefix[..i + 1];
        ConsumeHistoryPlannerState(env, prefix[i]);
      }
      assert prefix[..|prefix|] == prefix;
    }

    /** A windowed page: the prefix is skipped, the window rendered at its absolute positions. */
    method ConvertWindow(env: Env, checkpointTurns: map<int, int>, msgs: seq<Message>, lo: nat, hi: nat) returns (rows: seq<Row>)
      requires lo <= hi <= |msgs|
      requires !suppressCanonicalTurn
      modifies this
      ensures (Planner(), rows) == ConvertAll(env, checkpointTurns, SkipAll(env, old(Planner()), msgs[..lo]), lo, msgs[lo..hi])
    {
      PrimePlannerState(env, msgs[..lo]);
      ghost var primed := Planner();
      rows := [];
      for i := lo to hi
        invariant (Planner(), rows) == ConvertAll(env, checkpointTurns, primed, lo, msgs[lo..i])
      {
        ConvertOneMore(env, checkpointTurns, primed, lo, msgs, i);
        var next := ConvertHistoryMessage(env, checkpointTurns, i, msgs[i]);
        rows := rows + next;
      }
    }
  }

  /** Converting one more message of a window appends its rows. */
  lemma ConvertOneMore(env: Env, checkpointTurns: map<int, int>, s: PlannerState, lo: nat, msgs: seq<Message>, i: nat)
    requires lo <= i < |msgs|
    ensures
      var (before, rows) := ConvertAll(env, checkpointTurns, s, lo, msgs[lo..i]);
      var (after, next) := Convert(env, checkpointTurns, before, i, msgs[i]);
      ConvertAll(env, checkpointTurns, s, lo, msgs[lo..i + 1]) == (after, rows + next)
  {
    ConvertAllSplit(env, checkpointTurns, s, lo, msgs[lo..i + 1], i - lo);
    assert msgs[lo..i + 1][..i - lo] == msgs[lo..i] && msgs[lo..i + 1][i - lo..] == [msgs[i]];
    var before := ConvertAll(env, checkpointTurns, s, lo, msgs[lo..i]).0;
    var (after, next) := Convert(env, checkpointTurns, before, i, msgs[i]);
    assert [msgs[i]][1..] == [];
    assert ConvertAll(env, checkpointTurns, before, i, [msgs[i]]) == (after, next + []);
    assert next + [] == next;
  }

  function InitialState(turns: seq<PlannerTurn>, blank: string -> bool): PlannerState {
    if turns == [] then PlannerState(map[], false)
    else
      var rest := InitialState(turns[..|turns| - 1], blank);
      var turn := turns[|turns| - 1];
      if blank(turn.userHash) || turn.messages == [] then rest
      else rest.(queues := rest.queues[turn.userHash := rest.Queue(turn.userHash) + [turn]])
  }

  lemma {:induction false} InitialNeverSuppresses(turns: seq<PlannerTurn>, blank: string -> bool)
    ensures !InitialState(turns, blank).suppress
  {
    if turns != [] {
      InitialNeverSuppresses(turns[..|turns| - 1], blank);
    }
  }

  /** The displays kept for one hash, in recording order. */
  function Usable(turns: seq<PlannerTurn>, blank: string -> bool, key: string): seq<PlannerTurn> {
    if turns == [] then []
    else
      var rest := Usable(turns[..|turns| - 1], blank, key);
      var turn := turns[|turns| - 1];
      if turn.userHash == key && !blank(key) && turn.messages != [] then rest + [turn] else rest
  }

  /** The usable displays of a recording are those of its parts, one after the other. */
  lemma {:induction false} UsableInOrder(turns: seq<PlannerTurn>, later: seq<PlannerTurn>, blank: string -> bool, key: string)
    ensures Usable(turns + later, blank, key) == Usable(turns, blank, key) + Usable(later, blank, key)
    decreases |later|
  {
    if later == [] {
      assert turns + later == turns;
      assert Usable(turns, blank, key) + [] == Usable(turns, blank, key);
    } else {
      var (front, last) := (later[..|later| - 1], later[|later| - 1]);
      var all := turns + later;
      UsableInOrder(turns, front, blank, key);
      assert all[..|all| - 1] == turns + front && all[|all| - 1] == last;
      var (u, v) := (Usable(turns, blank, key), Usable(front, blank, key));
      assert (u + v) + [last] == u + (v + [last]);
    }
  }

  /** Every queue is exactly the subsequence of usable displays recorded for its hash. */
  lemma {:induction false} InitialQueueIsUsable(turns: seq<PlannerTurn>, blank: string -> bool, key: string)
    ensures InitialState(turns, blank).Queue(key) == Usable(turns, blank, key)
  {
    if turns != [] {
      InitialQueueIsUsable(turns[..|turns| - 1], blank, key);
    }
  }

  // ---- Which display a message gets ----

  /** Receipts and local-only records answered with a notice of their own. */
  predicate AnsweredEarly(env: Env, m: Message) { m.decisionReceipt.Some? || LocalOnlyRows(env, m).Some? }

  /** The message gets as far as the planner displays. */
  predicate Reaches(env: Env, suppressed: bool, m: Message) {
    m.role.User? && !AnsweredEarly(env, m) && (suppressed ==> UserAuthoredTurn(env, m)) && !Steer(env, m) && !HostGenerated(env, m)
  }

  /** What is recorded, and what a pass over it has read; the rest of this section reads a pass without its queues. */
  datatype Recorded = Recorded(turns: seq<PlannerTurn>, blank: string -> bool) {
    function For(key: string): seq<PlannerTurn> { Usable(turns, blank, key) }
  }

  /** How many messages with this key have reached the displays. */
  ghost function Served(env: Env, recorded: Recorded, msgs: seq<Message>, key: string): nat
    decreases |msgs|
  {
    if msgs == [] then 0
    else
      var (front, m) := (msgs[..|msgs| - 1], msgs[|msgs| - 1]);
      Served(env, recorded, front, key)
      + (if Reaches(env, Suppressed(env, recorded, front), m) && Key(env, m) == key then 1 else 0)
  }

  /** The display shown last was cut off by a cancelled turn, and no user-authored turn has followed. */
  ghost predicate Suppressed(env: Env, recorded: Recorded, msgs: seq<Message>)
    decreases |msgs|
  {
    msgs != [] &&
    var (front, m) := (msgs[..|msgs| - 1], msgs[|msgs| - 1]);
    var was := Suppressed(env, recorded, front);
    if AnsweredEarly(env, m) || (was && !UserAuthoredTurn(env, m)) then was
    else
      var n := Served(env, recorded, front, Key(env, m));
      && Reaches(env, was, m) && n < |recorded.For(Key(env, m))|
      && exists row :: row in recorded.For(Key(env, m))[n].messages && row.CancelledTurnNotice?
  }

  function After(turns: seq<PlannerTurn>, n: nat): seq<PlannerTurn> { if n < |turns| then turns[n..] else [] }

  ghost predicate QueueTracks(env: Env, recorded: Recorded, s: PlannerState, msgs: seq<Message>, key: string) {
    s.Queue(key) == After(recorded.For(key), Served(env, recorded, msgs, key))
  }

  /** The planner state is what the messages read so far leave of the recorded displays. */
  ghost predicate Tracks(env: Env, recorded: Recorded, s: PlannerState, msgs: seq<Message>) {
    s.suppress == Suppressed(env, recorded, msgs) && forall key :: QueueTracks(env, recorded, s, msgs, key)
  }

  lemma StartTracks(env: Env, recorded: Recorded)
    ensures Tracks(env, recorded, InitialState(recorded.turns, recorded.blank), [])
  {
    InitialNeverSuppresses(recorded.turns, recorded.blank);
    forall key ensures QueueTracks(env, recorded, InitialState(recorded.turns, recorded.blank), [], key) {
      InitialQueueIsUsable(recorded.turns, recorded.blank, key);
    }
  }

  lemma ConvertTracks(env: Env, recorded: Recorded, checkpointTurns: map<int, int>, s: PlannerState, msgs: seq<Message>, m: Message)
    requires Tracks(env, recorded, s, msgs)
    ensures Tracks(env, recorded, Convert(env, checkpointTurns, s, |msgs|, m).0, msgs + [m])
  {
    var all := msgs + [m];
    var s' := Convert(env, checkpointTurns, s, |msgs|, m).0;
    assert all[..|msgs|] == msgs && all[|msgs|] == m;
    assert QueueTracks(env, recorded, s, msgs, Key(env, m));
    forall key ensures QueueTracks(env, recorded, s', all, key) {
      assert QueueTracks(env, recorded, s, msgs, key);
    }
  }

  lemma {:induction false} PassTracks(env: Env, recorded: Recorded, checkpointTurns: map<int, int>, msgs: seq<Message>)
    ensures
      var start := InitialState(recorded.turns, recorded.blank);
      Tracks(env, recorded, ConvertAll(env, checkpointTurns, start, 0, msgs).0, msgs)
    decreases |msgs|
  {
    if msgs == [] {
      StartTracks(env, recorded);
    } else {
      var (n, start) := (|msgs| - 1, InitialState(recorded.turns, recorded.blank));
      PassTracks(env, recorded, checkpointTurns, msgs[..n]);
      ConvertOneMore(env, checkpointTurns, start, 0, msgs, n);
      ConvertTracks(env, recorded, checkpointTurns, ConvertAll(env, checkpointTurns, start, 0, msgs[..n]).0, msgs[..n], msgs[n]);
      assert msgs[0..n] == msgs[..n] && msgs[0..n + 1] == msgs == msgs[..n] + [msgs[n]];
    }
  }

  /** The text a steer shows: none if it is guidance of the host. */
  predicate ShowsSteer(env: Env, m: Message, text: string) { env.steerText(m.content) == Some(text) && text != "" && !env.hostGuidance(text) }

  /**
   Messages that the planner state cannot change are replaced by at most one notice: a receipt by itself, a local record
   by the first of its pause, its recovery or its readiness if those are pending, a steer by its text.
   */
  lemma EarlyRowsContent(env: Env, checkpointTurns: map<int, int>, s: PlannerState, index: int, m: Message)
    ensures
      var (s', rows) := Convert(env, checkpointTurns, s, index, m);
      var recovers := m.protocolRecovery.Decoded? && m.protocolRecovery.pending;
      var unready := m.finalReadiness.Some? && m.finalReadiness.value.pending;
      if m.decisionReceipt.Some? then s' == s && rows == [ReceiptNotice(m.decisionReceipt.value)]
      else if m.localOnly && m.readPause then s' == s && rows == [ReadPauseNotice]
      else if m.localOnly && !m.protocolRecovery.NoRecovery? then
        s' == s && rows == if recovers then [ProtocolNotice(m.protocolRecovery.id)] else []
      else if m.localOnly && unready then s' == s && rows == [ReadinessNotice(m.finalReadiness.value.missing)]
      else if m.localOnly && Steer(env, m) then
        s' == s && |rows| <= 1 && forall text :: SteerNotice(text, true) in rows <==> ShowsSteer(env, m, text)
      else if s.suppress && !UserAuthoredTurn(env, m) then s' == s && rows == []
      else if m.role.User? && Steer(env, m) then
        s' == s.(suppress := false) && |rows| <= 1 && forall text :: SteerNotice(text, false) in rows <==> ShowsSteer(env, m, text)
      else if HostGenerated(env, m) then s' == s.(suppress := false) && rows == []
      else !AnsweredEarly(env, m) && OwnRows(env, checkpointTurns, index, m) <= rows
  {
  }

  /** What the next message of a pass adds to the rows, told from the recorded displays and the messages before it. */
  ghost function RowsOf(env: Env, recorded: Recorded, checkpointTurns: map<int, int>, before: seq<Message>, m: Message): seq<Row> {
    var (n, turns) := (Served(env, recorded, before, Key(env, m)), recorded.For(Key(env, m)));
    if Reaches(env, Suppressed(env, recorded, before), m)
    then OwnRows(env, checkpointTurns, |before|, m) + if n < |turns| then turns[n].messages else []
    else if Suppressed(env, recorded, before) && !AnsweredEarly(env, m) && !UserAuthoredTurn(env, m) then []
    else Convert(env, checkpointTurns, PlannerState(map[], false), |before|, m).1
  }

  lemma ConvertShows(env: Env, recorded: Recorded, checkpointTurns: map<int, int>, s: PlannerState, before: seq<Message>, m: Message)
    requires s.suppress == Suppressed(env, recorded, before) && QueueTracks(env, recorded, s, before, Key(env, m))
    ensures Convert(env, checkpointTurns, s, |before|, m).1 == RowsOf(env, recorded, checkpointTurns, before, m)
  {
    assert OwnRows(env, checkpointTurns, |before|, m) + [] == OwnRows(env, checkpointTurns, |before|, m);
  }

  /**
   The n-th message of a key to reach the displays shows the n-th usable display recorded for that key, none when they
   are used up. A display with a cancelled-turn notice silences what follows up to the next user-authored turn, apart
   from receipts and notices of local records. Every other message shows what it would without any display.
   */
  lemma PassServesInOrder(env: Env, recorded: Recorded, checkpointTurns: map<int, int>, msgs: seq<Message>, i: nat)
    requires i < |msgs|
    ensures
      var start := InitialState(recorded.turns, recorded.blank);
      ConvertAll(env, checkpointTurns, start, 0, msgs[..i + 1]).1 ==
        ConvertAll(env, checkpointTurns, start, 0, msgs[..i]).1 + RowsOf(env, recorded, checkpointTurns, msgs[..i], msgs[i])
  {
    var start := InitialState(recorded.turns, recorded.blank);
    var s := ConvertAll(env, checkpointTurns, start, 0, msgs[..i]).0;
    ConvertOneMore(env, checkpointTurns, start, 0, msgs, i);
    assert msgs[0..i] == msgs[..i] && msgs[0..i + 1] == msgs[..i + 1];
    PassTracks(env, recorded, checkpointTurns, msgs[..i]);
    assert QueueTracks(env, recorded, s, msgs[..i], Key(env, msgs[i]));
    ConvertShows(env, recorded, checkpointTurns, s, msgs[..i], msgs[i]);
  }

  // ---- Lock-step of the two forms ----

  /** Local-only records other than steers that the rendering form answers before touching planner state. */
  predicate AnsweredLocally(env: Env, m: Message) { LocalOnlyRows(env, m).Some? && !Steer(env, m) }

  /** Steers stored as ordinary user messages: rendered as a notice, skipped as if they were a turn. */
  predicate CanonicalSteer(env: Env, m: Message) { Steer(env, m) && !m.localOnly }

  /** Messages whose skipping can differ from their rendering in some planner state. */
  predicate Misaligned(env: Env, m: Message) {
    && m.decisionReceipt.None?
    && m.role.User?
    && !HostGenerated(env, m)
    && (AnsweredLocally(env, m) || CanonicalSteer(env, m))
  }

  /** The planner state makes the difference visible: a display is queued, or suppression would be lifted. */
  predicate Exposed(env: Env, s: PlannerState, m: Message) {
    if s.suppress then AnsweredLocally(env, m) && UserAuthoredTurn(env, m)
    else s.Queue(Key(env, m)) != []
  }

  /** Skipping one message equals rendering it exactly when it is not misaligned in an exposing state. */
  lemma SkipMatchesConvertExactly(env: Env, checkpointTurns: map<int, int>, s: PlannerState, index: int, m: Message)
    ensures Skip(env, s, m) == Convert(env, checkpointTurns, s, index, m).0 <==> !(Misaligned(env, m) && Exposed(env, s, m))
  {
    var key := Key(env, m);
    if Misaligned(env, m) && Exposed(env, s, m) {
      var cleared := s.(suppress := false);
      var turns := cleared.Queue(key);
      if turns != [] {
        assert Skip(env, s, m).Queue(key) == turns[1..];
        assert Convert(env, checkpointTurns, s, index, m).0 == s;
      }
    }
  }

  predicate Aligned(env: Env, msgs: seq<Message>) { forall i :: 0 <= i < |msgs| ==> !Misaligned(env, msgs[i]) }

  /** Converting a run is converting its first k messages and then the rest from the state they lead to. */
  ghost predicate Splits(env: Env, checkpointTurns: map<int, int>, s: PlannerState, base: int, msgs: seq<Message>, k: nat)
    requires k <= |msgs|
  {
    var head := ConvertAll(env, checkpointTurns, s, base, msgs[..k]);
    var tail := ConvertAll(env, checkpointTurns, head.0, base + k, msgs[k..]);
    ConvertAll(env, checkpointTurns, s, base, msgs) == (tail.0, head.1 + tail.1)
  }

  lemma SplitsAtZero(env: Env, checkpointTurns: map<int, int>, s: PlannerState, base: int, msgs: seq<Message>)
    ensures Splits(env, checkpointTurns, s, base, msgs, 0)
  {
    assert msgs[0..] == msgs && msgs[..0] == [];
    var all := ConvertAll(env, checkpointTurns, s, base, msgs);
    assert [] + all.1 == all.1;
  }

  lemma SplitsFurther(env: Env, checkpointTurns: map<int, int>, s: PlannerState, base: int, msgs: seq<Message>, k: nat)
    requires 0 < k <= |msgs|
    requires Splits(env, checkpointTurns, Convert(env, checkpointTurns, s, base, msgs[0]).0, base + 1, msgs[1..], k - 1)
    ensures Splits(env, checkpointTurns, s, base, msgs, k)
  {
    var (s', rows) := Convert(env, checkpointTurns, s, base, msgs[0]);
    assert msgs[..k][1..] == msgs[1..][..k - 1] && msgs[1..][k - 1..] == msgs[k..];
    var head := ConvertAll(env, checkpointTurns, s', base + 1, msgs[1..][..k - 1]);
    var tail := ConvertAll(env, checkpointTurns, head.0, base + k, msgs[k..]);
    assert rows + (head.1 + tail.1) == (rows + head.1) + tail.1;
  }

  lemma {:induction false} ConvertAllSplit(env: Env, checkpointTurns: map<int, int>, s: PlannerState, base: int, msgs: seq<Message>, k: nat)
    requires k <= |msgs|
    ensures Splits(env, checkpointTurns, s, base, msgs, k)
    decreases k
  {
    if k == 0 {
      SplitsAtZero(env, checkpointTurns, s, base, msgs);
    } else {
      ConvertAllSplit(env, checkpointTurns, Convert(env, checkpointTurns, s, base, msgs[0]).0, base + 1, msgs[1..], k - 1);
      SplitsFurther(env, checkpointTurns, s, base, msgs, k);
    }
  }

  lemma {:induction false} SkipAllAppend(env: Env, s: PlannerState, msgs: seq<Message>, m: Message)
    ensures SkipAll(env, s, msgs + [m]) == Skip(env, SkipAll(env, s, msgs), m)
    decreases msgs
  {
    if msgs == [] {
      assert [m][1..] == [];
    } else {
      SkipAllAppend(env, Skip(env, s, msgs[0]), msgs[1..], m);
      assert (msgs + [m])[1..] == msgs[1..] + [m];
    }
  }

  lemma {:induction false} NothingQueuedNothingSkipped(env: Env, s: PlannerState, msgs: seq<Message>)
    requires s.queues == map[] && !s.suppress
    ensures SkipAll(env, s, msgs) == s
  {
    if msgs != [] {
      assert Skip(env, s, msgs[0]) == s;
      NothingQueuedNothingSkipped(env, s, msgs[1..]);
    }
  }

  lemma {:induction false} AlignedPassesAgree(env: Env, checkpointTurns: map<int, int>, s: PlannerState, base: int, msgs: seq<Message>)
    requires Aligned(env, msgs)
    ensures SkipAll(env, s, msgs) == ConvertAll(env, checkpointTurns, s, base, msgs).0
    decreases msgs
  {
    if msgs != [] {
      assert !Misaligned(env, msgs[0]);
      SkipMatchesConvertExactly(env, checkpointTurns, s, base, msgs[0]);
      AlignedPassesAgree(env, checkpointTurns, Skip(env, s, msgs[0]), base + 1, msgs[1..]);
    }
  }

  /**
   Window theorem: when the prefix holds no misaligned message, skipping it and rendering the rest at its
   absolute positions yields exactly the tail of the full pass, and the same final planner state.
   */
  lemma WindowIsTailOfFullPass(env: Env, checkpointTurns: map<int, int>, s: PlannerState, msgs: seq<Message>, k: nat)
    requires k <= |msgs|
    requires Aligned(env, msgs[..k])
    ensures
      var full := ConvertAll(env, checkpointTurns, s, 0, msgs);
      var prefix := ConvertAll(env, checkpointTurns, s, 0, msgs[..k]);
      var window := ConvertAll(env, checkpointTurns, SkipAll(env, s, msgs[..k]), k, msgs[k..]);
      full == (window.0, prefix.1 + window.1)
  {
    ConvertAllSplit(env, checkpointTurns, s, 0, msgs, k);
    AlignedPassesAgree(env, checkpointTurns, s, 0, msgs[..k]);
  }

  /** The two forms reach the same planner state over every prefix, from every starting state. */
  ghost predicate LockStep(env: Env, msgs: seq<Message>) {
    forall s: PlannerState, k :: 0 <= k <= |msgs| ==> SkipAll(env, s, msgs[..k]) == ConvertAll(env, map[], s, 0, msgs[..k]).0
  }

  /** n harmless displays queued under one key. */
  function Loaded(key: string, n: nat): PlannerState { PlannerState(map[key := seq(n, _ => PlannerTurn(key, []))], false) }

  /** Rendering takes at most one display per message and harmless displays never suppress. */
  lemma {:induction false} LoadedStaysExposed(env: Env, msgs: seq<Message>, key: string, n: nat, base: int) returns (left: nat)
    requires n > |msgs|
    ensures left >= n - |msgs|
    ensures ConvertAll(env, map[], Loaded(key, n), base, msgs).0 == Loaded(key, left)
  {
    if msgs == [] {
      left := n;
    } else {
      var s' := Convert(env, map[], Loaded(key, n), base, msgs[0]).0;
      var turns := Loaded(key, n).Queue(key);
      assert !SuppressesCanonical(turns[0]);
      var n' := if s' == Loaded(key, n) then n else n - 1;
      assert s' == Loaded(key, n') by {
        if s' != Loaded(key, n) {
          assert s'.queues == map[key := turns[1..]];
          assert turns[1..] == seq(n - 1, _ => PlannerTurn(key, []));
        }
      }
      left := LoadedStaysExposed(env, msgs[1..], key, n', base + 1);
    }
  }

  /** The skip form is faithful for every starting state exactly on the transcripts without misaligned messages. */
  lemma LockStepExactlyWhenAligned(env: Env, msgs: seq<Message>)
    ensures LockStep(env, msgs) <==> Aligned(env, msgs)
  {
    if Aligned(env, msgs) {
      forall s: PlannerState, k | 0 <= k <= |msgs|
        ensures SkipAll(env, s, msgs[..k]) == ConvertAll(env, map[], s, 0, msgs[..k]).0
      {
        AlignedPassesAgree(env, map[], s, 0, msgs[..k]);
      }
    } else {
      var i :| 0 <= i < |msgs| && Misaligned(env, msgs[i]);
      var key := Key(env, msgs[i]);
      var start := Loaded(key, i + 1);
      var left := LoadedStaysExposed(env, msgs[..i], key, i + 1, 0);
      if LockStep(env, msgs) {
        assert SkipAll(env, start, msgs[..i]) == Loaded(key, left);
        assert msgs[..i] + [msgs[i]] == msgs[..i + 1];
        SkipAllAppend(env, start, msgs[..i], msgs[i]);
        ConvertAllSplit(env, map[], start, 0, msgs[..i + 1], i);
        assert msgs[..i + 1][..i] == msgs[..i] && msgs[..i + 1][i..] == [msgs[i]];
        assert ConvertAll(env, map[], Loaded(key, left), i, [msgs[i]]).0 == Convert(env, map[], Loaded(key, left), i, msgs[i]).0;
        SkipMatchesConvertExactly(env, map[], Loaded(key, left), i, msgs[i]);
        assert Exposed(env, Loaded(key, left), msgs[i]);
        assert false;
      }
    }
  }

  /**
   A mid-turn steer is stored with user origin (internal/agent/run_loop.go:199-203). When its text equals a
   user text that still has a planner display queued, skipping it drops that display.
   */
  lemma UserOriginSteerDropsPlannerDisplay(env: Env, m: Message, turn: PlannerTurn)
    requires m.role.User? && m.origin.FromUser? && Steer(env, m)
    requires !m.localOnly && m.decisionReceipt.None?
    ensures
      var s := PlannerState(map[Key(env, m) := [turn]], false);
      && Convert(env, map[], s, 0, m).0.Queue(Key(env, m)) == [turn]
      && Skip(env, s, m).Queue(Key(env, m)) == []
  {
    var s := PlannerState(map[Key(env, m) := [turn]], false);
    assert s.Queue(Key(env, m))[1..] == [];
  }
}
