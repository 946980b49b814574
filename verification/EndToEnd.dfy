/**
 * Plugin, connection and CLI together: what a waiting dsh command prints as a turn's final message is the text it
 * folded from the stream, which is the last text the plugin's log holds of that turn.
 */
module EndToEnd {
  import opened Wrappers
  import opened JsonValue
  import opened SessionLog
  import opened Protocol
  import opened ProtocolHeard
  import opened ClientWire
  import opened StreamRuns
  import Compose
  import Decimal
  import Machine = Session
  import Normalize
  import ProtocolRuns
  import ProtocolTurns
  import Transport
  import Turns

  // ---- texts among frames ----

  /** The nonempty text a frame says on thread `t`. */
  function SaidBy(f: Frame, t: ThreadId): Option<string> {
    if f.EventFrame? && f.thread == t && f.event.AssistantMessage? then Normalize.Nonempty(MessageText(f.event.message))
    else None
  }

  /** The last nonempty text said on `t`. */
  function Said(frames: seq<Frame>, t: ThreadId): Option<string> {
    if frames == [] then None
    else
      var last := SaidBy(frames[|frames| - 1], t);
      if last.Some? then last else Said(frames[..|frames| - 1], t)
  }

  function OrElse(a: Option<string>, b: Option<string>): Option<string> { if a.Some? then a else b }

  lemma {:induction false} SaidAppend(a: seq<Frame>, b: seq<Frame>, t: ThreadId)
    ensures Said(a + b, t) == OrElse(Said(b, t), Said(a, t))
  {
    if b == [] {
      assert a + b == a;
    } else {
      SaidAppend(a, b[..|b| - 1], t);
      assert (a + b)[..|a + b| - 1] == a + b[..|b| - 1];
    }
  }

  lemma {:induction false} SaidInNews(frames: seq<Frame>, t: ThreadId)
    ensures Said(News(frames, t), t) == Said(frames, t)
  {
    if frames != [] {
      var init, last := frames[..|frames| - 1], frames[|frames| - 1];
      SaidInNews(init, t);
      if IsNews(last, t) {
        SaidAppend(News(init, t), [last], t);
        assert Said([last], t) == SaidBy(last, t) by { assert [last][..0] == []; }
      } else {
        assert News(frames, t) == News(init, t);
      }
    }
  }

  lemma {:induction false} NewsHolds(frames: seq<Frame>, t: ThreadId, f: Frame)
    requires f in frames && IsNews(f, t)
    ensures f in News(frames, t)
  {
    if frames[|frames| - 1] != f {
      assert f in frames[..|frames| - 1];
      NewsHolds(frames[..|frames| - 1], t, f);
    }
  }

  // ---- the plugin's side ----

  /** Every message in `frames` is of turn `k`, and no other event passes for a message. */
  ghost predicate OnlyTurn(frames: seq<Frame>, k: int) {
    forall f | f in frames && f.EventFrame? ::
      && (f.event.AssistantMessage? ==> f.event.turn == k)
      && (f.event.OtherEvent? ==> f.event.kind != "assistant/message")
  }

  lemma TextsOfMove(s: State, m: Move, t: ThreadId, k: int, inputs: seq<Turns.Input>)
    requires OnlyTurn(BroadcastsNow(s, m, t), k)
    ensures Turns.LogText(inputs + ProtocolTurns.InputsStep(s, m, t), k)
         == OrElse(Said(BroadcastsNow(s, m, t), t), Turns.LogText(inputs, k))
  {
    var step := ProtocolTurns.InputsStep(s, m, t);
    if step == [] {
      assert inputs + step == inputs;
      QuietOnTexts(s, m, t);
    } else {
      TextsOfInput(s, m, t, k, inputs, step[0]);
    }
  }

  /** A move that is no turn input of `t` says nothing on it. */
  lemma QuietOnTexts(s: State, m: Move, t: ThreadId)
    requires ProtocolTurns.InputsStep(s, m, t) == []
    ensures Said(BroadcastsNow(s, m, t), t) == None
  {
    var frames := BroadcastsNow(s, m, t);
    if frames != [] {
      assert frames[..|frames| - 1] == [];
    }
  }

  lemma TextsOfInput(s: State, m: Move, t: ThreadId, k: int, inputs: seq<Turns.Input>, input: Turns.Input)
    requires OnlyTurn(BroadcastsNow(s, m, t), k) && ProtocolTurns.InputsStep(s, m, t) == [input]
    ensures Turns.LogText(inputs + [input], k) == OrElse(Said(BroadcastsNow(s, m, t), t), Turns.LogText(inputs, k))
  {
    assert (inputs + [input])[..|inputs|] == inputs;
    Turns.LogTextStep(inputs + [input], k);
    InputSays(s, m, t, input);
    if input.Log? && input.event.AssistantMessage? && m.TurnInput? {
      assert EventFrame(t, input.event) in BroadcastsNow(s, m, t);
    }
  }

  lemma InputSays(s: State, m: Move, t: ThreadId, input: Turns.Input)
    requires ProtocolTurns.InputsStep(s, m, t) == [input]
    ensures Said(BroadcastsNow(s, m, t), t)
         == if input.Log? && input.event.AssistantMessage? then Normalize.Nonempty(MessageText(input.event.message))
           else None
    ensures m.TurnInput? ==> BroadcastsNow(s, m, t) == TurnFrames(s, t, input)
    ensures input.Log? ==> m.TurnInput?
  {
    if m.TurnInput? {
      var event := if input.Log? && Forwarded(input.event) then [EventFrame(t, input.event)] else [];
      var note := match Turns.NoteFor(s.threads[t].turn, input) { case Some(x) => [FrameOfNote(t, x)] case None => [] };
      assert BroadcastsNow(s, m, t) == event + note;
      SaidAppend(event, note, t);
      assert Said(note, t) == None;
      assert event != [] ==> event[..|event| - 1] == [];
    }
  }

  /** The log's last text of turn `k` is the last one broadcast since move `n`, or what it was then. */
  lemma {:induction false} TextsAreBroadcast(ms: seq<Move>, n: nat, t: ThreadId, k: int)
    requires n <= |ms| && OnlyTurn(BroadcastsFrom(ms, n, t), k)
    ensures Turns.LogText(ProtocolTurns.InputsOf(ms, t), k)
         == OrElse(Said(BroadcastsFrom(ms, n, t), t), Turns.LogText(ProtocolTurns.InputsOf(ms[..n], t), k))
  {
    if n == |ms| {
      assert ms[..n] == ms;
    } else {
      var init, m := ms[..|ms| - 1], ms[|ms| - 1];
      assert init[..n] == ms[..n];
      BroadcastsStep(ms, n, t);
      TextsAreBroadcast(init, n, t, k);
      SaidAppend(BroadcastsFrom(init, n, t), BroadcastsNow(Run(init), m, t), t);
      TextsOfMove(Run(init), m, t, k, ProtocolTurns.InputsOf(init, t));
    }
  }

  // ---- who sent a completion ----

  /** The move that sent the j-th frame. */
  lemma {:induction false} SentByMove(ms: seq<Move>, c: ConnId, j: nat, q: nat) returns (p: nat)
    requires q <= |ms| && j < |SentTo(ms[..q], c)|
    ensures p < q && |SentTo(ms[..p], c)| <= j < |SentTo(ms[..p + 1], c)|
  {
    if q > 0 && j < |SentTo(ms[..q - 1], c)| {
      p := SentByMove(ms, c, j, q - 1);
    } else {
      p := q - 1;
    }
  }

  /** A completion is broadcast only for the end of its turn in the log, right after that event. */
  lemma CompletionBroadcast(s: State, m: Move, t: ThreadId, f: Frame)
    requires t in s.threads && f in Broadcasts(s, m, t) && f.CompletedFrame?
    ensures m.TurnInput? && m.thread == t && m.input.Log? && m.input.event.TurnEnd?
      && m.input.event.turn == f.summary.turn
    ensures Turns.NoteFor(s.threads[t].turn, m.input) == Some(Turns.Completed(f.summary))
    ensures TurnFrames(s, t, m.input) == [EventFrame(t, m.input.event), f]
  {
  }

  lemma NewsComesFromMove(s: State, m: Move, t: ThreadId, c: ConnId, i: nat)
    requires Listens(s, t, c) && c in Step(s, m).conns && |s.conns[c].sent| <= i < |Step(s, m).conns[c].sent|
    requires IsNews(Step(s, m).conns[c].sent[i], t)
    ensures Step(s, m).conns[c].sent[i] in Broadcasts(s, m, t)
  {
    MoveIsHeard(s, m, t, c);
    AddedNewsIsSince(s.conns[c].sent, Step(s, m).conns[c].sent, t, HeardNow(s, m, t, c), i);
  }

  lemma AddedNewsIsSince(before: seq<Frame>, after: seq<Frame>, t: ThreadId, since: seq<Frame>, i: nat)
    requires before <= after && News(after, t) == News(before, t) + since
    requires |before| <= i < |after| && IsNews(after[i], t)
    ensures after[i] in since
  {
    NewsSince(before, after, t, since);
    assert after[|before|..][i - |before|] == after[i];
    NewsHolds(after[|before|..], t, after[i]);
  }

  lemma CompletionSentBy(s: State, m: Move, t: ThreadId, c: ConnId, i: nat)
    requires Listens(s, t, c) && c in Step(s, m).conns && |s.conns[c].sent| <= i < |Step(s, m).conns[c].sent|
    requires var f := Step(s, m).conns[c].sent[i]; f.CompletedFrame? && f.thread == t
    ensures var f := Step(s, m).conns[c].sent[i];
      && m.TurnInput? && m.thread == t && m.input.Log? && m.input.event.TurnEnd? && m.input.event.turn == f.summary.turn
      && Turns.NoteFor(s.threads[t].turn, m.input) == Some(Turns.Completed(f.summary))
      && i == |s.conns[c].sent| + 1
      && Step(s, m).conns[c].sent[..i] == s.conns[c].sent + [EventFrame(t, m.input.event)]
  {
    var f := Step(s, m).conns[c].sent[i];
    NewsComesFromMove(s, m, t, c, i);
    CompletionBroadcast(s, m, t, f);
    EndSends(s, t, m.input, c, f);
  }

  lemma EndSends(s: State, t: ThreadId, input: Turns.Input, c: ConnId, f: Frame)
    requires Listens(s, t, c) && input.Log? && TurnFrames(s, t, input) == [EventFrame(t, input.event), f]
    ensures c in TurnStep(s, t, input).conns
    ensures TurnStep(s, t, input).conns[c].sent == s.conns[c].sent + [EventFrame(t, input.event)] + [f]
  {
    TurnFramesReach(s, t, input, c);
  }

  /** The text a completion brings is the log's last of its turn. */
  lemma CompletionBringsLastText(ms: seq<Move>, t: ThreadId, input: Turns.Input, summary: Turns.Summary)
    requires Legal(ms) && t in Run(ms).threads && input.Log?
    requires Turns.NoteFor(Run(ms).threads[t].turn, input) == Some(Turns.Completed(summary))
    requires Turns.TextsFollowOpening(ProtocolTurns.InputsOf(ms, t), summary.turn)
    ensures summary.finalMessage == Turns.LogText(ProtocolTurns.InputsOf(ms, t), summary.turn)
  {
    ProtocolTurns.ThreadTurnIsRun(ms, t);
    Turns.OnlineTextIsLast(ProtocolTurns.InputsOf(ms, t), summary.turn);
  }

  // ---- the CLI's side ----

  /** A message of thread `t` that reached the client, whose text both sides read the same. */
  predicate MessageAgrees(t: ThreadId, raw: Transport.Event) {
    raw.Notification? && raw.name == "thread/event" && GetStr(raw.params, "threadId") == Some(t)
    && GetStr(raw.params, "type") == Some("assistant/message")
    ==> Compose.TextAgrees(GetOrNull(raw.params, "data"))
  }

  ghost predicate MessagesAgree(t: ThreadId, feed: Machine.Feed) {
    forall i | 0 <= i < |feed.arrivals| :: MessageAgrees(t, feed.arrivals[i].raw)
  }

  /** No event of `t` passes for a message without being one. */
  predicate Honest(f: Frame, t: ThreadId) {
    f.EventFrame? && f.thread == t && f.event.OtherEvent? ==> f.event.kind != "assistant/message"
  }

  /** The session's text after a carried frame is what the frame says. */
  lemma FrameIsRead(cfg: Machine.Config, f: Frame, raw: Transport.Event)
    requires cfg.backend.Dsh? && Carries(f, raw) && MessageAgrees(cfg.threadId, raw) && Honest(f, cfg.threadId)
    ensures TextIn(cfg, raw) == SaidBy(f, cfg.threadId)
  {
    var detail :| raw == EventOfFrame(f, detail) && (f.EventFrame? ==> DataFits(f.event, detail.data));
    if f.EventFrame? {
      EventIsRead(cfg, f.thread, f.event, detail);
    }
  }

  lemma EventIsRead(cfg: Machine.Config, t: ThreadId, e: SessionEvent, detail: Detail)
    requires cfg.backend.Dsh? && DataFits(e, detail.data) && Honest(EventFrame(t, e), cfg.threadId)
    requires MessageAgrees(cfg.threadId, EventOfFrame(EventFrame(t, e), detail))
    ensures TextIn(cfg, EventOfFrame(EventFrame(t, e), detail)) == SaidBy(EventFrame(t, e), cfg.threadId)
  {
    var params := EventOfFrame(EventFrame(t, e), detail).params;
    assert GetStr(params, "threadId") == Some(t) && GetStr(params, "type") == Some(EventName(e));
    assert params.Get("data") == Some(detail.data);
    if e.AssistantMessage? && t == cfg.threadId {
      Compose.MessageTextAgreesExactly(e.turn, e.message, detail.data);
    }
  }

  ghost predicate AllHonest(frames: seq<Frame>, t: ThreadId) {
    forall f | f in frames :: Honest(f, t)
  }

  /** The i-th arrival leaves as the session's text what the i-th frame says. */
  predicate ReadsAs(cfg: Machine.Config, sent: seq<Frame>, feed: Machine.Feed, i: nat) {
    i < |sent| && i < |feed.arrivals| && TextIn(cfg, feed.arrivals[i].raw) == SaidBy(sent[i], cfg.threadId)
  }

  lemma ArrivalIsRead(cfg: Machine.Config, sent: seq<Frame>, feed: Machine.Feed, i: nat)
    requires cfg.backend.Dsh? && Relays(sent, feed) && MessagesAgree(cfg.threadId, feed)
    requires i < |sent| && i + 1 < |feed.arrivals| && Honest(sent[i], cfg.threadId)
    ensures ReadsAs(cfg, sent, feed, i)
  {
    FrameOrClose(sent, feed, i);
    FrameIsRead(cfg, sent[i], feed.arrivals[i].raw);
  }

  /** The session's text over a relayed stretch is the last one the frames say. */
  lemma StretchIsRead(cfg: Machine.Config, sent: seq<Frame>, feed: Machine.Feed, from: nat, to: nat)
    requires cfg.backend.Dsh? && Relays(sent, feed) && MessagesAgree(cfg.threadId, feed)
    requires from <= to <= |sent| && to < |feed.arrivals| && AllHonest(sent[from..to], cfg.threadId)
    ensures TextAfter(cfg, feed, from, to, "") == Said(sent[from..to], cfg.threadId).GetOr("")
  {
    forall i | from <= i < to ensures ReadsAs(cfg, sent, feed, i) {
      assert sent[i] == sent[from..to][i - from];
      ArrivalIsRead(cfg, sent, feed, i);
    }
    FoldIsRead(cfg, sent, feed, from, to);
  }

  lemma {:induction false} FoldIsRead(cfg: Machine.Config, sent: seq<Frame>, feed: Machine.Feed, from: nat, to: nat)
    requires from <= to <= |sent| && to < |feed.arrivals|
    requires forall i | from <= i < to :: ReadsAs(cfg, sent, feed, i)
    ensures TextAfter(cfg, feed, from, to, "") == Said(sent[from..to], cfg.threadId).GetOr("")
  {
    if from < to {
      FoldIsRead(cfg, sent, feed, from, to - 1);
      assert ReadsAs(cfg, sent, feed, to - 1);
      SaidLast(sent, from, to, cfg.threadId);
    }
  }

  lemma SaidLast(sent: seq<Frame>, from: nat, to: nat, t: ThreadId)
    requires from < to <= |sent|
    ensures Said(sent[from..to], t).GetOr("") == SaidBy(sent[to - 1], t).GetOr(Said(sent[from..to - 1], t).GetOr(""))
  {
    assert sent[from..to][..to - from - 1] == sent[from..to - 1];
  }

  /** Everything but the last arrival is a frame. */
  lemma FrameOrClose(sent: seq<Frame>, feed: Machine.Feed, i: nat)
    requires Relays(sent, feed) && i < |feed.arrivals|
    ensures !feed.arrivals[i].raw.Closed? || i < |feed.arrivals| - 1 ==>
      i < |sent| && Carries(sent[i], feed.arrivals[i].raw)
  {
  }

  lemma DetailOf(f: Frame, raw: Transport.Event) returns (detail: Detail)
    requires Carries(f, raw)
    ensures raw == EventOfFrame(f, detail)
  {
    detail :| raw == EventOfFrame(f, detail) && (f.EventFrame? ==> DataFits(f.event, detail.data));
  }

  /** A carried completion of the session's turn names that turn's number. */
  lemma CompletionIsRead(cfg: Machine.Config, f: Frame, raw: Transport.Event, turn: Option<string>, k: int)
    requires cfg.backend.Dsh? && Carries(f, raw) && EndingOf(cfg, raw, turn).Ends?
    requires EndingOf(cfg, raw, turn).done.turn == Some(Decimal.Print(k))
    ensures f.CompletedFrame? && f.thread == cfg.threadId && f.summary.turn == k
    ensures EndingOf(cfg, raw, turn).done.status == f.summary.status
      && EndingOf(cfg, raw, turn).done.text == f.summary.finalMessage
  {
    var detail := DetailOf(f, raw);
    assert f.CompletedFrame?;
    Compose.SummaryReadsBack(f.thread, f.summary);
    Decimal.PrintInjective(f.summary.turn, k);
  }

  // ---- the whole ----

  /** Prefixes of a run say no more than the run. */
  lemma PrefixBroadcasts(ms: seq<Move>, p: nat, n: nat, t: ThreadId)
    requires n <= p <= |ms|
    ensures BroadcastsFrom(ms[..p], n, t) <= BroadcastsFrom(ms, n, t)
    decreases |ms|
  {
    if p == |ms| {
      assert ms[..p] == ms;
    } else {
      PrefixBroadcasts(ms[..|ms| - 1], p, n, t);
      assert ms[..|ms| - 1][..p] == ms[..p];
      BroadcastsStep(ms, n, t);
    }
  }

  lemma PrefixInputs(ms: seq<Move>, p: nat, t: ThreadId)
    requires p <= |ms|
    ensures ProtocolTurns.InputsOf(ms[..p], t) <= ProtocolTurns.InputsOf(ms, t)
    decreases |ms|
  {
    if p == |ms| {
      assert ms[..p] == ms;
    } else {
      PrefixInputs(ms[..|ms| - 1], p, t);
      assert ms[..|ms| - 1][..p] == ms[..p];
    }
  }

  lemma PrefixFollows(inputs: seq<Turns.Input>, prefix: seq<Turns.Input>, k: int)
    requires prefix <= inputs && Turns.TextsFollowOpening(inputs, k)
    ensures Turns.TextsFollowOpening(prefix, k)
  {
    forall i, j | 0 <= i < j < |prefix| && Turns.IsText(prefix[i], k) ensures !Turns.IsOpening(prefix[j], k) {
      assert prefix[i] == inputs[i] && prefix[j] == inputs[j];
    }
  }

  /**
   * A run in which `c` is attached to `t` from move `n` on, before turn `k` said anything; only turn `k` speaks from
   * there.
   */
  ghost predicate HearsTurn(ms: seq<Move>, n: nat, t: ThreadId, c: ConnId, k: int) {
    && Legal(ms) && Attached(ms, n, t, c)
    && OnlyTurn(BroadcastsFrom(ms, n, t), k)
    && Turns.TextsFollowOpening(ProtocolTurns.InputsOf(ms, t), k)
    && Turns.LogText(ProtocolTurns.InputsOf(ms[..n], t), k).None?
  }

  /** The plugin's half: a completion sent at `j` brings the last text sent before it since the attachment. */
  lemma SentTextIsSummarised(ms: seq<Move>, n: nat, t: ThreadId, c: ConnId, k: int, j: nat)
    requires HearsTurn(ms, n, t, c, k)
    requires |SentTo(ms[..n], c)| <= j < |SentTo(ms, c)|
    requires var f := SentTo(ms, c)[j]; f.CompletedFrame? && f.thread == t && f.summary.turn == k
    ensures SentTo(ms, c)[j].summary.finalMessage == Said(SentTo(ms, c)[|SentTo(ms[..n], c)|..j], t)
  {
    var p, end := CompletionMove(ms, n, t, c, j);
    CompletionBringsLastText(ms[..p], t, Turns.Log(end), SentTo(ms, c)[j].summary) by {
      ProtocolRuns.LegalPrefix(ms, p);
      PrefixInputs(ms, p, t);
      PrefixFollows(ProtocolTurns.InputsOf(ms, t), ProtocolTurns.InputsOf(ms[..p], t), k);
    }
    SaidSoFar(ms, n, p, t, c, k);
    SaidBeforeEnd(SentTo(ms, c), SentTo(ms[..p], c), |SentTo(ms[..n], c)|, j, t, end);
  }

  /** A completion heard while attached was sent by the end of its turn in the log, right after that event. */
  lemma CompletionMove(ms: seq<Move>, n: nat, t: ThreadId, c: ConnId, j: nat) returns (p: nat, end: SessionEvent)
    requires Attached(ms, n, t, c) && |SentTo(ms[..n], c)| <= j < |SentTo(ms, c)|
    requires SentTo(ms, c)[j].CompletedFrame? && SentTo(ms, c)[j].thread == t
    ensures n <= p < |ms| && t in Run(ms[..p]).threads && end.TurnEnd? && end.turn == SentTo(ms, c)[j].summary.turn
    ensures Turns.NoteFor(Run(ms[..p]).threads[t].turn, Turns.Log(end))
      == Some(Turns.Completed(SentTo(ms, c)[j].summary))
    ensures j == |SentTo(ms[..p], c)| + 1 && SentTo(ms, c)[..j] == SentTo(ms[..p], c) + [EventFrame(t, end)]
  {
    assert ms[..|ms|] == ms;
    p := SentByMove(ms, c, j, |ms|);
    MoveInside(ms, n, p, c, j);
    assert ListensAt(ms, p, t, c);
    SentEarlier(ms, p + 1, c, j);
    end := CompletionSentAt(ms, p, t, c, j, SentTo(ms, c)[j]);
  }

  /** What had been sent by some move is what has been sent in the end. */
  lemma SentEarlier(ms: seq<Move>, q: nat, c: ConnId, j: nat)
    requires q <= |ms| && j < |SentTo(ms[..q], c)|
    ensures j < |SentTo(ms, c)| && SentTo(ms, c)[j] == SentTo(ms[..q], c)[j]
    ensures SentTo(ms, c)[..j] == SentTo(ms[..q], c)[..j]
  {
    SentGrows(ms, q, c);
  }

  /** A completion that move `p` sent. */
  lemma CompletionSentAt(ms: seq<Move>, p: nat, t: ThreadId, c: ConnId, j: nat, f: Frame) returns (end: SessionEvent)
    requires p < |ms| && Listens(Run(ms[..p]), t, c)
    requires |SentTo(ms[..p], c)| <= j < |SentTo(ms[..p + 1], c)| && f == SentTo(ms[..p + 1], c)[j]
    requires f.CompletedFrame? && f.thread == t
    ensures end.TurnEnd? && end.turn == f.summary.turn
    ensures Turns.NoteFor(Run(ms[..p]).threads[t].turn, Turns.Log(end)) == Some(Turns.Completed(f.summary))
    ensures j == |SentTo(ms[..p], c)| + 1 && SentTo(ms[..p + 1], c)[..j] == SentTo(ms[..p], c) + [EventFrame(t, end)]
  {
    assert ms[..p + 1][..p] == ms[..p];
    SentByStep(ms[..p + 1], c);
    CompletionSentBy(Run(ms[..p]), ms[p], t, c, j);
    end := ms[p].input.event;
  }

  lemma SentByStep(ms: seq<Move>, c: ConnId)
    requires ms != [] && c in Run(ms[..|ms| - 1]).conns
    ensures var s' := Step(Run(ms[..|ms| - 1]), ms[|ms| - 1]);
      c in s'.conns && SentTo(ms, c) == s'.conns[c].sent
        && SentTo(ms[..|ms| - 1], c) == Run(ms[..|ms| - 1]).conns[c].sent
  {
    MoveSends(Run(ms[..|ms| - 1]), ms[|ms| - 1], c);
  }

  /** A frame sent after the attachment was sent by a move after it. */
  lemma MoveInside(ms: seq<Move>, n: nat, p: nat, c: ConnId, j: nat)
    requires n <= |ms| && p < |ms| && |SentTo(ms[..n], c)| <= j < |SentTo(ms[..p + 1], c)|
    ensures n <= p
  {
    if p < n {
      assert ms[..n][..p + 1] == ms[..p + 1];
      SentGrows(ms[..n], p + 1, c);
    }
  }

  /** What has been said to an attached connection is the log's last text. */
  lemma SaidSoFar(ms: seq<Move>, n: nat, p: nat, t: ThreadId, c: ConnId, k: int)
    requires HearsTurn(ms, n, t, c, k) && n <= p <= |ms|
    ensures |SentTo(ms[..n], c)| <= |SentTo(ms[..p], c)|
    ensures Turns.LogText(ProtocolTurns.InputsOf(ms[..p], t), k) == Said(SentTo(ms[..p], c)[|SentTo(ms[..n], c)|..], t)
  {
    assert ms[..p][..n] == ms[..n];
    SentGrows(ms[..p], n, c);
    AttachedBefore(ms, p, n, t, c);
    PrefixBroadcasts(ms, p, n, t);
    AttachedNews(ms[..p], n, t, c);
    SaidInNews(SentTo(ms[..p], c)[|SentTo(ms[..n], c)|..], t);
    TextsAreBroadcast(ms[..p], n, t, k);
  }

  /** The end event right before a completion says nothing. */
  lemma SaidBeforeEnd(sent: seq<Frame>, before: seq<Frame>, from: nat, j: nat, t: ThreadId, end: SessionEvent)
    requires from <= |before| && j <= |sent| && sent[..j] == before + [EventFrame(t, end)] && end.TurnEnd?
    ensures Said(sent[from..j], t) == Said(before[from..], t)
  {
    assert sent[from..j] == sent[..j][from..] == before[from..] + [EventFrame(t, end)];
    SaidAppend(before[from..], [EventFrame(t, end)], t);
    assert [EventFrame(t, end)][..0] == [];
  }

  /**
   * From position `from` on, completions of turn `k` bring the last text sent before them, and no event poses as a
   * message.
   */
  ghost predicate Speaks(sent: seq<Frame>, from: nat, t: ThreadId, k: int) {
    && from <= |sent|
    && AllHonest(sent[from..], t)
    && (forall j | from <= j < |sent| && IsCompletion(sent[j], t, k) ::
      sent[j].summary.finalMessage == Said(sent[from..j], t))
  }

  predicate IsCompletion(f: Frame, t: ThreadId, k: int) { f.CompletedFrame? && f.thread == t && f.summary.turn == k }

  lemma SentIsHonest(ms: seq<Move>, n: nat, t: ThreadId, c: ConnId, k: int)
    requires HearsTurn(ms, n, t, c, k)
    ensures AllHonest(SentSince(ms, n, c), t)
  {
    AttachedNews(ms, n, t, c);
    var since := SentSince(ms, n, c);
    forall f | f in since ensures Honest(f, t) {
      if IsNews(f, t) {
        NewsHolds(since, t, f);
      }
    }
  }

  /** What an attached connection is sent speaks for the log. */
  lemma SentSpeaks(ms: seq<Move>, n: nat, t: ThreadId, c: ConnId, k: int)
    requires HearsTurn(ms, n, t, c, k)
    ensures Speaks(SentTo(ms, c), |SentTo(ms[..n], c)|, t, k)
  {
    SentGrows(ms, n, c);
    SentIsHonest(ms, n, t, c, k);
    var sent, from := SentTo(ms, c), |SentTo(ms[..n], c)|;
    forall j | from <= j < |sent| && IsCompletion(sent[j], t, k)
      ensures sent[j].summary.finalMessage == Said(sent[from..j], t)
    {
      SentTextIsSummarised(ms, n, t, c, k, j);
    }
  }

  /** A wait whose last line is that of turn `k`. */
  predicate PrintsTurn(start: Machine.State, s: Machine.State, k: int) {
    && start.out.stdout < s.out.stdout
    && var line := s.out.stdout[|s.out.stdout| - 1];
       line.TurnLine? && line.turnId == Some(Decimal.Print(k))
  }

  /**
   * The last line has the folded text; the last frame taken is the turn's completion, with the same text and status.
   */
  ghost predicate PrintsFolded(sent: seq<Frame>, cfg: Machine.Config, feed: Machine.Feed, from: nat, s: Machine.State,
    k: int) {
    && from < s.taken <= |sent| && s.taken <= |feed.arrivals| && s.out.stdout != []
    && var line, f := s.out.stdout[|s.out.stdout| - 1], sent[s.taken - 1];
    && line.TurnLine? && IsCompletion(f, cfg.threadId, k)
    && line.finalMessage == TextAfter(cfg, feed, from, s.taken - 1, "")
    && line.finalMessage == f.summary.finalMessage.GetOr("")
    && line.status == f.summary.status
  }

  lemma CompletionTaken(sent: seq<Frame>, cfg: Machine.Config, feed: Machine.Feed, start: Machine.State,
                        s: Machine.State, end: Option<Machine.End>, k: int)
    requires cfg.backend.Dsh? && Relays(sent, feed) && PrintsTurn(start, s, k)
      && EndsWithCompletion(cfg, feed, start, s, end)
    ensures start.taken < s.taken <= |sent| && s.taken <= |feed.arrivals|
      && IsCompletion(sent[s.taken - 1], cfg.threadId, k)
    ensures var line, summary := s.out.stdout[|s.out.stdout| - 1], sent[s.taken - 1].summary;
      && line.TurnLine? && line.status == summary.status
      && line.finalMessage
         == summary.finalMessage.GetOr(TextAfter(cfg, feed, start.taken, s.taken - 1, start.finalMessage))
  {
    LastEnds(cfg, feed, start, s, end, k);
    var from, j := start.taken, s.taken - 1;
    CarriedEnd(sent, cfg, feed, j, TurnAfter(cfg, feed, from, j, start.turnId), k);
  }

  /** A wait that printed the turn's line took its ending last, and printed that. */
  lemma LastEnds(
      cfg: Machine.Config, feed: Machine.Feed, start: Machine.State, s: Machine.State, end: Option<Machine.End>, k: int)
    requires PrintsTurn(start, s, k) && EndsWithCompletion(cfg, feed, start, s, end)
    ensures start.taken < s.taken <= |feed.arrivals|
    ensures var line, ending := s.out.stdout[|s.out.stdout| - 1], EndingAt(cfg, feed, start, s.taken - 1);
      && ending.Ends? && ending.done.turn == Some(Decimal.Print(k)) && line.status == ending.done.status
      && line.finalMessage == ending.done.text.GetOr(TextAfter(cfg, feed, start.taken, s.taken - 1, start.finalMessage))
  {
    assert LastIsTurn(s.out.stdout[|start.out.stdout|..]);
  }

  lemma CarriedEnd(
      sent: seq<Frame>, cfg: Machine.Config, feed: Machine.Feed, j: nat, turn: Option<string>, k: int)
    requires cfg.backend.Dsh? && Relays(sent, feed) && j < |feed.arrivals|
    requires EndingOf(cfg, feed.arrivals[j].raw, turn).Ends?
    requires EndingOf(cfg, feed.arrivals[j].raw, turn).done.turn == Some(Decimal.Print(k))
    ensures j < |sent| && IsCompletion(sent[j], cfg.threadId, k)
    ensures var done := EndingOf(cfg, feed.arrivals[j].raw, turn).done;
      done.status == sent[j].summary.status && done.text == sent[j].summary.finalMessage
  {
    FrameOrClose(sent, feed, j);
    CompletionIsRead(cfg, sent[j], feed.arrivals[j].raw, turn, k);
  }

  lemma PrintedFrom(sent: seq<Frame>, cfg: Machine.Config, feed: Machine.Feed, start: Machine.State,
                    s: Machine.State, end: Option<Machine.End>, k: int)
    requires cfg.backend.Dsh? && Relays(sent, feed) && MessagesAgree(cfg.threadId, feed)
    requires start.finalMessage == "" && Speaks(sent, start.taken, cfg.threadId, k)
    requires PrintsTurn(start, s, k) && EndsWithCompletion(cfg, feed, start, s, end)
    ensures PrintsFolded(sent, cfg, feed, start.taken, s, k)
  {
    CompletionTaken(sent, cfg, feed, start, s, end, k);
    var from, j := start.taken, s.taken - 1;
    forall f | f in sent[from..j] ensures Honest(f, cfg.threadId) {
      assert f in sent[from..];
    }
    StretchIsRead(cfg, sent, feed, from, j);
  }

  /**
   * A dsh wait attached before turn `k` spoke, over everything the plugin sends it: when it ends with that turn's
   * line, the line's text is the text the session had folded, which is the completion's own and the log's last.
   */
  lemma PrintedTextIsFolded(ms: seq<Move>, n: nat, c: ConnId, k: int, cfg: Machine.Config, feed: Machine.Feed,
                            start: Machine.State, started: nat, ticks: seq<Machine.Tick>)
    requires cfg.backend.Dsh? && HearsTurn(ms, n, cfg.threadId, c, k)
    requires Relays(SentTo(ms, c), feed) && MessagesAgree(cfg.threadId, feed)
    requires start.taken == |SentTo(ms[..n], c)| <= |feed.arrivals| && start.reply.None? && start.finalMessage == ""
    requires PrintsTurn(start, Machine.WaitRun(cfg, feed, Machine.Begin(start, started), ticks).s, k)
    ensures PrintsFolded(SentTo(ms, c), cfg, feed, start.taken,
                         Machine.WaitRun(cfg, feed, Machine.Begin(start, started), ticks).s, k)
  {
    SentSpeaks(ms, n, cfg.threadId, c, k);
    WaitFollowsStream(cfg, feed, start, started, ticks);
    var w := Machine.WaitRun(cfg, feed, Machine.Begin(start, started), ticks);
    PrintedFrom(SentTo(ms, c), cfg, feed, start, w.s, w.end, k);
  }
}
