/**
 Turn-range paging of a transcript (desktop/app.go:5286-5340, 5688-5771): page bounds, the window a turn
 range selects, its index list and its re-based checkpoint map, and the walk from the newest page back.
 */
module HistoryPaging {
  import opened Common
  import opened HistoryConversion

  const DEFAULT_PAGE_TURNS := 60
  const MAX_PAGE_TURNS := 200

  function NormalizeLimit(limit: int): (n: int)
    ensures 1 <= n <= MAX_PAGE_TURNS
    ensures 1 <= limit <= MAX_PAGE_TURNS ==> n == limit
    ensures limit <= 0 ==> n == 60
    ensures limit > MAX_PAGE_TURNS ==> n == 200
  {
    if limit <= 0 then DEFAULT_PAGE_TURNS else if limit > MAX_PAGE_TURNS then MAX_PAGE_TURNS else limit
  }

  /** How many messages of msgs start a turn. */
  function Turns<T>(msgs: seq<T>, starts: T -> bool): nat {
    if msgs == [] then 0 else (if starts(msgs[0]) then 1 else 0) + Turns(msgs[1..], starts)
  }

  /** Position of the message that starts turn t, or the length when there are not that many turns. */
  function TurnStart<T>(msgs: seq<T>, starts: T -> bool, t: nat): nat {
    if msgs == [] then 0
    else if starts(msgs[0]) then (if t == 0 then 0 else 1 + TurnStart(msgs[1..], starts, t - 1))
    else 1 + TurnStart(msgs[1..], starts, t)
  }

  /** Where the window of a turn range begins: messages before the first turn belong to turn 0. */
  function Lo<T>(msgs: seq<T>, starts: T -> bool, startTurn: nat): nat {
    if startTurn == 0 then 0 else TurnStart(msgs, starts, startTurn)
  }

  function Hi<T>(msgs: seq<T>, starts: T -> bool, startTurn: nat, endTurn: nat): nat {
    if startTurn == 0 || startTurn < endTurn then TurnStart(msgs, starts, endTurn) else Lo(msgs, starts, startTurn)
  }

  function Range(lo: int, hi: int): (r: seq<int>)
    requires lo <= hi
    ensures |r| == hi - lo && forall j :: 0 <= j < |r| ==> r[j] == lo + j
  {
    seq(hi - lo, j => lo + j)
  }

  lemma {:induction false} TurnsAppend<T>(msgs: seq<T>, starts: T -> bool, m: T)
    ensures Turns(msgs + [m], starts) == Turns(msgs, starts) + if starts(m) then 1 else 0
  {
    if msgs == [] {
      assert ([m])[1..] == [];
    } else {
      TurnsAppend(msgs[1..], starts, m);
      assert (msgs + [m])[1..] == msgs[1..] + [m];
    }
  }

  /** A position has reached turn t exactly when more than t turns have started up to and including it. */
  lemma {:induction false} TurnStartByCount<T>(msgs: seq<T>, starts: T -> bool, t: nat, i: nat)
    requires i < |msgs|
    ensures TurnStart(msgs, starts, t) <= i <==> t < Turns(msgs[..i + 1], starts)
  {
    var first := msgs[..i + 1];
    assert first[0] == msgs[0] && first[1..] == msgs[1..][..i];
    if i == 0 {
      assert Turns(first[1..], starts) == 0;
    } else if starts(msgs[0]) {
      if t > 0 {
        TurnStartByCount(msgs[1..], starts, t - 1, i - 1);
      }
    } else {
      TurnStartByCount(msgs[1..], starts, t, i - 1);
    }
  }

  lemma {:induction false} TurnStartBounds<T>(msgs: seq<T>, starts: T -> bool, t: nat, u: nat)
    requires t <= u
    ensures TurnStart(msgs, starts, t) <= TurnStart(msgs, starts, u) <= |msgs|
    ensures t < Turns(msgs, starts) <==> TurnStart(msgs, starts, t) < |msgs|
    ensures t < Turns(msgs, starts) ==> starts(msgs[TurnStart(msgs, starts, t)])
    ensures t < u && t < Turns(msgs, starts) ==> TurnStart(msgs, starts, t) < TurnStart(msgs, starts, u)
  {
    if msgs != [] {
      if starts(msgs[0]) {
        if t > 0 {
          TurnStartBounds(msgs[1..], starts, t - 1, u - 1);
        } else if u > 0 {
          TurnStartBounds(msgs[1..], starts, u - 1, u - 1);
        }
      } else {
        TurnStartBounds(msgs[1..], starts, t, u);
      }
    }
  }

  lemma WindowOrdered<T>(msgs: seq<T>, starts: T -> bool, startTurn: nat, endTurn: nat)
    ensures Lo(msgs, starts, startTurn) <= Hi(msgs, starts, startTurn, endTurn) <= |msgs|
  {
    TurnStartBounds(msgs, starts, startTurn, startTurn);
    TurnStartBounds(msgs, starts, endTurn, endTurn);
    if startTurn < endTurn {
      TurnStartBounds(msgs, starts, startTurn, endTurn);
    }
  }

  /** Membership in the window, by turn number: turn is -1 before the first turn. */
  lemma WindowByTurn<T>(msgs: seq<T>, starts: T -> bool, startTurn: nat, endTurn: nat, i: nat)
    requires i < |msgs|
    ensures
      var turn := Turns(msgs[..i + 1], starts) - 1;
      Lo(msgs, starts, startTurn) <= i < Hi(msgs, starts, startTurn, endTurn)
      <==> if turn < 0 then startTurn == 0 else startTurn <= turn < endTurn
  {
    TurnStartByCount(msgs, starts, startTurn, i);
    TurnStartByCount(msgs, starts, endTurn, i);
  }

  /** The messages of a turn range and their original positions: one contiguous slice of the transcript. */
  method MessagesForTurnRange<T>(msgs: seq<T>, starts: T -> bool, startTurn: nat, endTurn: nat) returns (out: seq<T>, indexes: seq<int>)
    ensures Lo(msgs, starts, startTurn) <= Hi(msgs, starts, startTurn, endTurn) <= |msgs|
    ensures out == msgs[Lo(msgs, starts, startTurn)..Hi(msgs, starts, startTurn, endTurn)]
    ensures indexes == Range(Lo(msgs, starts, startTurn), Hi(msgs, starts, startTurn, endTurn))
  {
    ghost var lo, hi := Lo(msgs, starts, startTurn), Hi(msgs, starts, startTurn, endTurn);
    WindowOrdered(msgs, starts, startTurn, endTurn);
    out, indexes := [], [];
    var turn := -1;
    for i := 0 to |msgs|
      invariant turn == Turns(msgs[..i], starts) - 1
      invariant out == if i <= lo then [] else msgs[lo..Min(i, hi)]
      invariant indexes == if i <= lo then [] else Range(lo, Min(i, hi))
    {
      var msg := msgs[i];
      TurnsAppend(msgs[..i], starts, msg);
      assert msgs[..i] + [msg] == msgs[..i + 1];
      WindowByTurn(msgs, starts, startTurn, endTurn, i);
      if starts(msg) {
        turn := turn + 1;
      }
      if turn < 0 {
        if startTurn == 0 {
          out, indexes := out + [msg], indexes + [i];
        }
        continue;
      }
      if startTurn <= turn < endTurn {
        out, indexes := out + [msg], indexes + [i];
      }
    }
  }

  function Min(a: int, b: int): int { if a < b then a else b }

  // ---- Pages ----

  datatype Page<T> = Page(messages: seq<T>, indexes: seq<int>, startTurn: nat, endTurn: nat, totalTurns: nat, hasOlder: bool)

  function EffectiveBefore(beforeTurn: int, total: nat): nat {
    if beforeTurn <= 0 || beforeTurn > total then total else beforeTurn
  }

  function PageStart(before: nat, limit: int): nat {
    if before - NormalizeLimit(limit) < 0 then 0 else before - NormalizeLimit(limit)
  }

  function PageOf<T>(msgs: seq<T>, starts: T -> bool, beforeTurn: int, limit: int): Page<T> {
    var total := Turns(msgs, starts);
    var before := EffectiveBefore(beforeTurn, total);
    var start := PageStart(before, limit);
    if before == 0 then Page([], [], start, before, total, start > 0)
    else
      WindowOrdered(msgs, starts, start, before);
      var lo, hi := Lo(msgs, starts, start), Hi(msgs, starts, start, before);
      Page(msgs[lo..hi], Range(lo, hi), start, before, total, start > 0)
  }

  /** One page, counted and sliced as the source does it. */
  method HistoryPage<T>(msgs: seq<T>, starts: T -> bool, beforeTurn: int, limit: int) returns (page: Page<T>)
    ensures page == PageOf(msgs, starts, beforeTurn, limit)
  {
    var turns := NormalizeLimit(limit);
    var totalTurns: nat := 0;
    for i := 0 to |msgs|
      invariant totalTurns == Turns(msgs[..i], starts)
    {
      TurnsAppend(msgs[..i], starts, msgs[i]);
      assert msgs[..i] + [msgs[i]] == msgs[..i + 1];
      if starts(msgs[i]) {
        totalTurns := totalTurns + 1;
      }
    }
    assert msgs[..|msgs|] == msgs;
    var before: nat := if beforeTurn <= 0 || beforeTurn > totalTurns then totalTurns else beforeTurn;
    var start: nat := if before - turns < 0 then 0 else before - turns;
    page := Page([], [], start, before, totalTurns, start > 0);
    if |msgs| == 0 || start >= before {
      return;
    }
    var messages, indexes := MessagesForTurnRange(msgs, starts, start, before);
    page := page.(messages := messages, indexes := indexes);
  }

  lemma {:induction false} TurnsConcat<T>(a: seq<T>, b: seq<T>, starts: T -> bool)
    ensures Turns(a + b, starts) == Turns(a, starts) + Turns(b, starts)
  {
    if a == [] {
      assert a + b == b;
    } else {
      assert (a + b)[1..] == a[1..] + b;
      TurnsConcat(a[1..], b, starts);
    }
  }

  lemma {:induction false} TurnsBeforeStart<T>(msgs: seq<T>, starts: T -> bool, t: nat)
    ensures TurnStart(msgs, starts, t) <= |msgs|
    ensures Turns(msgs[..TurnStart(msgs, starts, t)], starts) == Min(t, Turns(msgs, starts))
  {
    TurnStartBounds(msgs, starts, t, t);
    var before := msgs[..TurnStart(msgs, starts, t)];
    if before != [] {
      var u: nat := if starts(msgs[0]) then t - 1 else t;
      TurnsBeforeStart(msgs[1..], starts, u);
      assert before[1..] == msgs[1..][..TurnStart(msgs[1..], starts, u)];
    }
  }

  /**
   A page ends before the turn it was asked for, the newest if that is none of the transcript's, and holds exactly as
   many turns as the limit allows, or all that remain; there are older ones exactly if more remain.
   */
  lemma PageSpansExactly<T>(msgs: seq<T>, starts: T -> bool, beforeTurn: int, limit: int)
    ensures
      var page := PageOf(msgs, starts, beforeTurn, limit);
      && page.totalTurns == Turns(msgs, starts)
      && page.endTurn == (if 1 <= beforeTurn <= page.totalTurns then beforeTurn else page.totalTurns)
      && page.startTurn <= page.endTurn && page.endTurn - page.startTurn == Min(NormalizeLimit(limit), page.endTurn)
      && Turns(page.messages, starts) == Min(NormalizeLimit(limit), page.endTurn)
      && (page.hasOlder <==> page.endTurn > NormalizeLimit(limit))
  {
    var page := PageOf(msgs, starts, beforeTurn, limit);
    if page.endTurn > 0 {
      var (lo, hi) := (Lo(msgs, starts, page.startTurn), Hi(msgs, starts, page.startTurn, page.endTurn));
      WindowOrdered(msgs, starts, page.startTurn, page.endTurn);
      TurnsBeforeStart(msgs, starts, page.startTurn);
      TurnsBeforeStart(msgs, starts, page.endTurn);
      TurnsConcat(msgs[..lo], msgs[lo..hi], starts);
      assert msgs[..lo] + msgs[lo..hi] == msgs[..hi];
    }
  }

  /** Pages from the newest back, listed oldest first; the caller may change its limit at every step. */
  function Walk<T>(msgs: seq<T>, starts: T -> bool, beforeTurn: int, limitAt: nat -> int, step: nat): (pages: seq<Page<T>>)
    decreases EffectiveBefore(beforeTurn, Turns(msgs, starts))
  {
    var page := PageOf(msgs, starts, beforeTurn, limitAt(step));
    if page.hasOlder then Walk(msgs, starts, page.startTurn, limitAt, step + 1) + [page] else [page]
  }

  function JoinMessages<T>(pages: seq<Page<T>>): seq<T> {
    if pages == [] then [] else JoinMessages(pages[..|pages| - 1]) + pages[|pages| - 1].messages
  }

  function JoinIndexes<T>(pages: seq<Page<T>>): seq<int> {
    if pages == [] then [] else JoinIndexes(pages[..|pages| - 1]) + pages[|pages| - 1].indexes
  }

  /** The pages, oldest first, are exactly the messages before end, with their positions. */
  ghost predicate JoinsUpTo<T>(pages: seq<Page<T>>, msgs: seq<T>, end: int) {
    0 <= end <= |msgs| && JoinMessages(pages) == msgs[..end] && JoinIndexes(pages) == Range(0, end)
  }

  lemma JoinsOneMore<T>(older: seq<Page<T>>, page: Page<T>, msgs: seq<T>, start: nat, end: nat)
    requires JoinsUpTo(older, msgs, start) && start <= end <= |msgs|
    requires page.messages == msgs[start..end] && page.indexes == Range(start, end)
    ensures JoinsUpTo(older + [page], msgs, end)
  {
    assert (older + [page])[..|older|] == older;
    assert msgs[..end] == msgs[..start] + msgs[start..end];
    assert Range(0, end) == Range(0, start) + Range(start, end);
  }

  lemma {:induction false} WalkJoins<T>(msgs: seq<T>, starts: T -> bool, beforeTurn: int, limitAt: nat -> int, step: nat)
    requires Turns(msgs, starts) > 0
    ensures JoinsUpTo(Walk(msgs, starts, beforeTurn, limitAt, step), msgs,
                      TurnStart(msgs, starts, EffectiveBefore(beforeTurn, Turns(msgs, starts))))
    decreases EffectiveBefore(beforeTurn, Turns(msgs, starts))
  {
    var before := EffectiveBefore(beforeTurn, Turns(msgs, starts));
    var page := PageOf(msgs, starts, beforeTurn, limitAt(step));
    var end := TurnStart(msgs, starts, before);
    TurnStartBounds(msgs, starts, before, before);
    TurnStartBounds(msgs, starts, page.startTurn, before);
    if page.hasOlder {
      WalkJoins(msgs, starts, page.startTurn, limitAt, step + 1);
      JoinsOneMore(Walk(msgs, starts, page.startTurn, limitAt, step + 1), page, msgs, TurnStart(msgs, starts, page.startTurn), end);
    } else {
      JoinsOneMore([], page, msgs, 0, end);
      assert [] + [page] == [page];
    }
  }

  /**
   Round trip: the pages reached from the newest one join, oldest first, to the whole transcript, each
   message once and in place. It fails exactly for a non-empty transcript in which no turn starts.
   */
  lemma WalkRestoresTranscript<T>(msgs: seq<T>, starts: T -> bool, limitAt: nat -> int)
    ensures JoinMessages(Walk(msgs, starts, 0, limitAt, 0)) == msgs <==> Turns(msgs, starts) > 0 || msgs == []
    ensures Turns(msgs, starts) > 0 ==> JoinIndexes(Walk(msgs, starts, 0, limitAt, 0)) == Range(0, |msgs|)
  {
    if Turns(msgs, starts) > 0 {
      WalkJoins(msgs, starts, 0, limitAt, 0);
      TurnStartBounds(msgs, starts, Turns(msgs, starts), Turns(msgs, starts));
      assert msgs[..|msgs|] == msgs;
    } else {
      NoTurnsNoMessages(msgs, starts, limitAt);
    }
  }

  lemma NoTurnsNoMessages<T>(msgs: seq<T>, starts: T -> bool, limitAt: nat -> int)
    requires Turns(msgs, starts) == 0
    ensures JoinMessages(Walk(msgs, starts, 0, limitAt, 0)) == []
  {
    var page := PageOf(msgs, starts, 0, limitAt(0));
    assert Walk(msgs, starts, 0, limitAt, 0) == [page];
    assert JoinMessages([page]) == JoinMessages([]) + page.messages == [];
  }

  /** Messages before the first turn appear only in the page that starts at turn 0; others open with a turn. */
  lemma LeadingMessagesOnlyInFirstPage<T>(msgs: seq<T>, starts: T -> bool, beforeTurn: int, limit: int)
    ensures
      var page := PageOf(msgs, starts, beforeTurn, limit);
      && |page.messages| == |page.indexes|
      && (forall j :: 0 <= j < |page.indexes| ==> 0 <= page.indexes[j] < |msgs| && page.messages[j] == msgs[page.indexes[j]])
      && (forall j, k :: 0 <= j < k < |page.indexes| ==> page.indexes[j] < page.indexes[k])
      && (page.startTurn > 0 ==> page.messages != [] && starts(page.messages[0]) && TurnStart(msgs, starts, 0) < page.indexes[0])
  {
    var page := PageOf(msgs, starts, beforeTurn, limit);
    WindowOrdered(msgs, starts, page.startTurn, page.endTurn);
    if page.startTurn > 0 {
      TurnStartBounds(msgs, starts, page.startTurn, page.endTurn);
      TurnStartBounds(msgs, starts, 0, page.startTurn);
    }
  }

  // ---- Checkpoints of a window ----

  function RebasedCheckpoints(checkpointTurns: map<int, int>, indexes: seq<int>): map<int, int> {
    map j | 0 <= j < |indexes| && indexes[j] in checkpointTurns :: checkpointTurns[indexes[j]]
  }

  method CheckpointTurnsForWindow(checkpointTurns: map<int, int>, indexes: seq<int>) returns (out: map<int, int>)
    ensures out == RebasedCheckpoints(checkpointTurns, indexes)
  {
    out := map[];
    if |checkpointTurns| == 0 || |indexes| == 0 {
      return;
    }
    for pageIndex := 0 to |indexes|
      invariant out == RebasedCheckpoints(checkpointTurns, indexes[..pageIndex])
    {
      if indexes[pageIndex] in checkpointTurns {
        out := out[pageIndex := checkpointTurns[indexes[pageIndex]]];
      }
    }
    assert indexes[..|indexes|] == indexes;
  }

  predicate SameCheckpoint(a: map<int, int>, b: map<int, int>, i: int, shift: int) {
    (i in a <==> i + shift in b) && (i in a ==> a[i] == b[i + shift])
  }

  /** Rendering depends on positions only through the checkpoint map, so shifting both changes nothing. */
  lemma {:induction false} ShiftedPass(env: Env, a: map<int, int>, b: map<int, int>, s: PlannerState, base: int, shift: int, msgs: seq<Message>)
    requires forall i :: base <= i < base + |msgs| ==> SameCheckpoint(a, b, i, shift)
    ensures ConvertAll(env, a, s, base, msgs) == ConvertAll(env, b, s, base + shift, msgs)
    decreases msgs
  {
    if msgs != [] {
      assert SameCheckpoint(a, b, base, shift);
      assert Convert(env, a, s, base, msgs[0]) == Convert(env, b, s, base + shift, msgs[0]);
      ShiftedPass(env, a, b, Convert(env, a, s, base, msgs[0]).0, base + 1, shift, msgs[1..]);
      assert base + 1 + shift == base + shift + 1;
    }
  }

  /** A provider window with its re-based checkpoints renders as the same messages at their original positions. */
  lemma WindowKeepsCheckpointPositions(env: Env, checkpointTurns: map<int, int>, s: PlannerState, window: seq<Message>, lo: nat)
    ensures ConvertAll(env, RebasedCheckpoints(checkpointTurns, Range(lo, lo + |window|)), s, 0, window)
         == ConvertAll(env, checkpointTurns, s, lo, window)
  {
    var rebased := RebasedCheckpoints(checkpointTurns, Range(lo, lo + |window|));
    forall i | 0 <= i < |window|
      ensures SameCheckpoint(rebased, checkpointTurns, i, lo)
    {
      assert Range(lo, lo + |window|)[i] == lo + i;
    }
    ShiftedPass(env, rebased, checkpointTurns, s, 0, lo, window);
  }

  method RenderWindow(
    env: Env, window: seq<Message>, indexes: seq<int>, plannerTurns: seq<PlannerTurn>, blank: string -> bool,
    checkpointTurns: map<int, int>, ghost lo: nat)
    returns (rows: seq<Row>)
    requires indexes == Range(lo, lo + |window|)
    ensures rows == ConvertAll(env, checkpointTurns, InitialState(plannerTurns, blank), lo, window).1
  {
    var rebased := CheckpointTurnsForWindow(checkpointTurns, indexes);
    var state := new ConvertState(plannerTurns, blank);
    InitialNeverSuppresses(plannerTurns, blank);
    rows := state.ConvertWindow(env, rebased, window, 0, |window|);
    assert window[0..|window|] == window && window[..0] == [];
    WindowKeepsCheckpointPositions(env, checkpointTurns, InitialState(plannerTurns, blank), window, lo);
  }

  /** The provider page of the history API: window, re-based checkpoints and a fresh planner pass. */
  method HistoryPageFromProviderMessages(
    env: Env, msgs: seq<Message>, plannerTurns: seq<PlannerTurn>, blank: string -> bool,
    checkpointTurns: map<int, int>, beforeTurn: int, limit: int)
    returns (rows: seq<Row>, page: Page<Message>)
    ensures page == PageOf(msgs, (m: Message) => UserAuthoredTurn(env, m), beforeTurn, limit)
    ensures |page.indexes| == |page.messages|
    ensures page.messages == [] ==> rows == []
    ensures page.messages != [] ==>
      rows == ConvertAll(env, checkpointTurns, InitialState(plannerTurns, blank), page.indexes[0], page.messages).1
  {
    var starts := (m: Message) => UserAuthoredTurn(env, m);
    page := HistoryPage(msgs, starts, beforeTurn, limit);
    LeadingMessagesOnlyInFirstPage(msgs, starts, beforeTurn, limit);
    rows := [];
    if |page.messages| == 0 {
      return;
    }
    ghost var lo := Lo(msgs, starts, page.startTurn);
    rows := RenderWindow(env, page.messages, page.indexes, plannerTurns, blank, checkpointTurns, lo);
  }
}
