/**
 * The logging handler that forwards warnings and errors to a Telegram chat
 * (src/app/common/telegram_logging_handler.py): records are buffered until an
 * event loop is registered, repeated texts are dropped inside the dedupe window,
 * and sends are throttled to a capacity per sliding window.
 *
 * The monotonic clock is the `now` parameter of each operation (one reading per
 * call); seconds are integers here. Scheduling `bot.send_message` is modelled as
 * appending the text to `outbox`.
 */
module LogHandler {
  import opened Text

  const MAX_MESSAGE_BODY: nat := 3600
  const MAX_TELEGRAM_LENGTH: nat := 4096
  /** `deque(maxlen=50)` of the pending records. */
  const MAX_PENDING: nat := 50

  /** `html.escape(s)`, with quotes. */
  function Escape(s: string): (r: string)
    ensures |r| >= |s|
  {
    if s == [] then []
    else
      var c := s[0];
      var e := if c == '&' then "&amp;" else if c == '<' then "&lt;" else if c == '>' then "&gt;"
        else if c == '"' then "&quot;" else if c == '\'' then "&#x27;" else [c];
      e + Escape(s[1..])
  }

  /** An escaped text holds no raw '<' or '>'. */
  lemma {:induction false} EscapeHasNoTags(s: string)
    ensures '<' !in Escape(s) && '>' !in Escape(s)
  {
    if s != [] {
      EscapeHasNoTags(s[1..]);
    }
  }

  /** `s[:n - 1] + "…"` when `s` is longer than `n`. */
  function Clip(s: string, n: nat): (r: string)
    requires n >= 1
    ensures |r| <= n || r == s
    ensures |s| <= n ==> r == s
    ensures |s| > n ==> |r| == n && r[..n - 1] == s[..n - 1] && r[n - 1] == '…'
  {
    if |s| > n then s[..n - 1] + "…" else s
  }

  /** The `<pre>` body of a message: the escaped record, clipped to MAX_MESSAGE_BODY. */
  function Body(rendered: string): (r: string)
    ensures |r| <= MAX_MESSAGE_BODY
    ensures |Escape(rendered)| <= MAX_MESSAGE_BODY ==> r == Escape(rendered)
  {
    Clip(Escape(rendered), MAX_MESSAGE_BODY)
  }

  /**
   * _render_message. `rendered` is `self.format(record)` and `timestamp` the
   * record's creation time formatted as "%Y-%m-%d %H:%M:%S" in local time.
   */
  function RenderMessage(levelName: string, loggerName: string, timestamp: string, rendered: string): (r: string)
    ensures |r| <= MAX_TELEGRAM_LENGTH
  {
    var header := "<b>" + Escape(levelName) + "</b> · <code>" + Escape(loggerName) + "</code>"
      + "\n<code>" + Escape(timestamp) + "</code>";
    Clip(header + "\n\n<pre>" + Body(rendered) + "</pre>", MAX_TELEGRAM_LENGTH)
  }

  /** A message that fits is the header, a blank line and the body inside `<pre>`. */
  lemma RenderedShape(levelName: string, loggerName: string, timestamp: string, rendered: string)
    requires |Escape(levelName)| + |Escape(loggerName)| + |Escape(timestamp)| <= 200
    ensures var r := RenderMessage(levelName, loggerName, timestamp, rendered);
      StartsWith(r, "<b>" + Escape(levelName) + "</b>")
      && r[|r| - 6..] == "</pre>"
  {
    var header := "<b>" + Escape(levelName) + "</b> · <code>" + Escape(loggerName) + "</code>"
      + "\n<code>" + Escape(timestamp) + "</code>";
    var t := header + "\n\n<pre>" + Body(rendered) + "</pre>";
    assert |t| <= MAX_TELEGRAM_LENGTH;
    var pre := "<b>" + Escape(levelName) + "</b>";
    assert t[..|pre|] == pre;
  }

  /** Appending to a `deque(maxlen=m)`: the oldest entries make room. */
  function AppendBounded<T>(q: seq<T>, x: T, m: nat): (r: seq<T>)
    ensures |r| <= m
    ensures m > 0 && |q| < m ==> r == q + [x]
    ensures m > 0 ==> r != [] && r[|r| - 1] == x
  {
    if m == 0 then []
    else if |q| >= m then q[|q| - m + 1..] + [x]
    else q + [x]
  }

  /** The timestamps still inside the window at `now`, dropped from the oldest end. */
  function Evict(ts: seq<int>, now: int, window: int): (r: seq<int>)
    ensures |r| <= |ts| && r == ts[|ts| - |r|..]
    ensures r != [] ==> now - r[0] <= window
  {
    if ts != [] && now - ts[0] > window then Evict(ts[1..], now, window) else ts
  }

  /** A sorted window keeps exactly the timestamps no older than the window. */
  lemma {:induction false} EvictSorted(ts: seq<int>, now: int, window: int)
    requires forall i, j :: 0 <= i < j < |ts| ==> ts[i] <= ts[j]
    ensures forall i :: 0 <= i < |Evict(ts, now, window)| ==> now - Evict(ts, now, window)[i] <= window
    ensures forall i :: 0 <= i < |ts| - |Evict(ts, now, window)| ==> now - ts[i] > window
  {
    if ts != [] && now - ts[0] > window {
      var tail := ts[1..];
      assert forall i, j :: 0 <= i < j < |tail| ==> tail[i] <= tail[j] by {
        forall i, j | 0 <= i < j < |tail| ensures tail[i] <= tail[j] {
          assert tail[i] == ts[i + 1] && tail[j] == ts[j + 1];
        }
      }
      EvictSorted(tail, now, window);
      var r := Evict(tail, now, window);
      assert Evict(ts, now, window) == r;
      forall i | 0 <= i < |ts| - |r| ensures now - ts[i] > window {
        if i > 0 {
          assert ts[i] == tail[i - 1];
        }
      }
    } else if ts != [] {
      forall i | 0 <= i < |ts| ensures now - ts[i] <= window {
        if i > 0 {
          assert ts[0] <= ts[i];
        }
      }
    }
  }

  /** The handler's settings: `maxlen` of the timestamp deque and the two windows. */
  datatype Config = Config(capacity: nat, throttlingWindow: int, dedupeWindow: int)

  /** The handler's mutable state, as a value. */
  datatype Snapshot = Snapshot(
    loopSet: bool,
    pending: seq<string>,
    sentTimestamps: seq<int>,
    lastText: Option<string>,
    lastSentAt: int,
    outbox: seq<string>)

  /** The deque bounds. */
  predicate Bounded(s: Snapshot, cfg: Config) {
    |s.pending| <= MAX_PENDING && |s.sentTimestamps| <= cfg.capacity
  }

  /** _should_dedupe: the same non-empty text as the last send, inside the dedupe window. */
  predicate Dedupes(s: Snapshot, cfg: Config, text: string, now: int) {
    Truthy(s.lastText) && text == s.lastText.value && now - s.lastSentAt < cfg.dedupeWindow
  }

  /** The admission test of _allow_throughput on the evicted timestamps; a zero `maxlen` never limits. */
  predicate Admits(kept: seq<int>, cfg: Config) {
    cfg.capacity == 0 || |kept| < cfg.capacity
  }

  /** The state after _enqueue(text) at time `now`. */
  function Enqueued(s: Snapshot, cfg: Config, text: string, now: int): (r: Snapshot)
    ensures Bounded(s, cfg) ==> Bounded(r, cfg)
    ensures r.loopSet == s.loopSet
  {
    if !s.loopSet then s.(pending := AppendBounded(s.pending, text, MAX_PENDING))
    else if Dedupes(s, cfg, text, now) then s
    else
      var kept := Evict(s.sentTimestamps, now, cfg.throttlingWindow);
      if !Admits(kept, cfg) then s.(sentTimestamps := kept)
      else s.(sentTimestamps := AppendBounded(kept, now, cfg.capacity), lastText := Some(text),
              lastSentAt := now, outbox := s.outbox + [text])
  }

  /** The state after enqueuing `texts` in order. */
  function Flushed(s: Snapshot, cfg: Config, texts: seq<string>, now: int): (r: Snapshot)
    ensures Bounded(s, cfg) ==> Bounded(r, cfg)
    ensures r.loopSet == s.loopSet
    decreases |texts|
  {
    if texts == [] then s else Flushed(Enqueued(s, cfg, texts[0], now), cfg, texts[1..], now)
  }

  /** The state after set_event_loop: the loop is registered, then the buffer is replayed. */
  function EventLoopSet(s: Snapshot, cfg: Config, now: int): Snapshot {
    Flushed(s.(loopSet := true, pending := []), cfg, s.pending, now)
  }

  /**
   * Without a loop a record is only buffered; with one, it is sent exactly when it
   * is not a duplicate and the throttle admits it, and nothing is buffered.
   */
  lemma EnqueueSends(s: Snapshot, cfg: Config, text: string, now: int)
    ensures var r := Enqueued(s, cfg, text, now);
      && (!s.loopSet ==> r.outbox == s.outbox && r.pending == AppendBounded(s.pending, text, MAX_PENDING))
      && (s.loopSet ==> r.pending == s.pending)
      && (s.loopSet ==>
            (r.outbox == s.outbox + [text]
             <==> !Dedupes(s, cfg, text, now) && Admits(Evict(s.sentTimestamps, now, cfg.throttlingWindow), cfg)))
      && (r.outbox == s.outbox || r.outbox == s.outbox + [text])
  {
    var r := Enqueued(s, cfg, text, now);
    assert r.outbox != s.outbox + [text] || r.outbox != s.outbox by {
      assert |s.outbox + [text]| != |s.outbox|;
    }
  }

  /** A text that was just sent is dropped when it recurs inside the dedupe window. */
  lemma DuplicateDropped(s: Snapshot, cfg: Config, text: string, now: int, later: int)
    requires s.loopSet && text != ""
    requires Enqueued(s, cfg, text, now).outbox == s.outbox + [text]
    requires later - now < cfg.dedupeWindow
    ensures var once := Enqueued(s, cfg, text, now);
      Enqueued(once, cfg, text, later) == once
  {
    var once := Enqueued(s, cfg, text, now);
    assert once.outbox != s.outbox;
    assert once.lastText == Some(text) && once.lastSentAt == now;
  }

  /** Replaying a buffer keeps the loop set, leaves the buffer empty and sends at most one message per text. */
  lemma {:induction false} FlushedSends(s: Snapshot, cfg: Config, texts: seq<string>, now: int)
    requires s.loopSet && s.pending == []
    ensures var r := Flushed(s, cfg, texts, now);
      r.loopSet && r.pending == [] && s.outbox <= r.outbox && |r.outbox| <= |s.outbox| + |texts|
    decreases |texts|
  {
    if texts != [] {
      var s1 := Enqueued(s, cfg, texts[0], now);
      EnqueueSends(s, cfg, texts[0], now);
      FlushedSends(s1, cfg, texts[1..], now);
    }
  }

  /** After set_event_loop the buffer is empty and every message sent came from it. */
  lemma EventLoopEmptiesBuffer(s: Snapshot, cfg: Config, now: int)
    ensures var r := EventLoopSet(s, cfg, now);
      r.loopSet && r.pending == [] && s.outbox <= r.outbox && |r.outbox| <= |s.outbox| + |s.pending|
  {
    FlushedSends(s.(loopSet := true, pending := []), cfg, s.pending, now);
  }

  class TelegramLogHandler {
    var loopSet: bool
    /** The buffered texts (`_pending`), oldest first. */
    var pending: seq<string>
    var sentTimestamps: seq<int>
    /** `maxlen` of `_sent_timestamps`. */
    const capacity: nat
    const throttlingWindow: int
    const dedupeWindow: int
    var lastText: Option<string>
    var lastSentAt: int
    /** The texts handed to `bot.send_message`, in order. */
    var outbox: seq<string>

    ghost function Cfg(): Config
      reads this
    {
      Config(capacity, throttlingWindow, dedupeWindow)
    }

    ghost function State(): Snapshot
      reads this
    {
      Snapshot(loopSet, pending, sentTimestamps, lastText, lastSentAt, outbox)
    }

    ghost predicate Valid()
      reads this
    {
      Bounded(State(), Cfg())
    }

    constructor(capacity: nat, throttlingWindow: int, dedupeWindow: int)
      ensures Valid()
      ensures Cfg() == Config(capacity, throttlingWindow, dedupeWindow)
      ensures State() == Snapshot(false, [], [], None, 0, [])
    {
      this.capacity := capacity;
      this.throttlingWindow := throttlingWindow;
      this.dedupeWindow := dedupeWindow;
      loopSet := false;
      pending := [];
      sentTimestamps := [];
      lastText := None;
      lastSentAt := 0;
      outbox := [];
    }

    /** _should_dedupe. */
    method ShouldDedupe(text: string, now: int) returns (b: bool)
      ensures b == Dedupes(State(), Cfg(), text, now)
    {
      b := lastText.Some? && lastText.value != "" && text == lastText.value && now - lastSentAt < dedupeWindow;
    }

    /** _allow_throughput: evicts stale timestamps from the oldest end, then applies the limit. */
    method AllowThroughput(now: int) returns (ok: bool)
      requires Valid()
      modifies this
      ensures Valid()
      ensures State() == old(State()).(sentTimestamps := Evict(old(sentTimestamps), now, throttlingWindow))
      ensures ok == Admits(sentTimestamps, Cfg())
    {
      while sentTimestamps != [] && now - sentTimestamps[0] > throttlingWindow
        invariant |sentTimestamps| <= capacity
        invariant Evict(sentTimestamps, now, throttlingWindow) == Evict(old(sentTimestamps), now, throttlingWindow)
        invariant State() == old(State()).(sentTimestamps := sentTimestamps)
        decreases |sentTimestamps|
      {
        sentTimestamps := sentTimestamps[1..];
      }
      ok := capacity == 0 || |sentTimestamps| < capacity;
    }

    /** _enqueue. */
    method Enqueue(text: string, now: int)
      requires Valid()
      modifies this
      ensures Valid()
      ensures State() == Enqueued(old(State()), Cfg(), text, now)
    {
      if !loopSet {
        pending := AppendBounded(pending, text, MAX_PENDING);
        return;
      }
      var dup := ShouldDedupe(text, now);
      if dup {
        return;
      }
      ghost var s0 := State();
      var ok := AllowThroughput(now);
      ghost var kept := sentTimestamps;
      assert State() == s0.(sentTimestamps := kept);
      if !ok {
        return;
      }
      lastText, lastSentAt := Some(text), now;
      sentTimestamps, outbox := AppendBounded(sentTimestamps, now, capacity), outbox + [text];
      assert State() == s0.(sentTimestamps := AppendBounded(kept, now, capacity), lastText := Some(text),
                            lastSentAt := now, outbox := s0.outbox + [text]);
    }

    /** emit, for a record that renders to `text`; the handler's own records are skipped. */
    method Emit(fromThisModule: bool, text: string, now: int)
      requires Valid()
      modifies this
      ensures Valid()
      ensures fromThisModule ==> State() == old(State())
      ensures !fromThisModule ==> State() == Enqueued(old(State()), Cfg(), text, now)
    {
      if fromThisModule {
        return;
      }
      if !loopSet {
        pending := AppendBounded(pending, text, MAX_PENDING);
        return;
      }
      Enqueue(text, now);
    }

    /** set_event_loop: registers the loop, takes the buffer and enqueues its texts in order. */
    method SetEventLoop(now: int)
      requires Valid()
      modifies this
      ensures Valid()
      ensures State() == EventLoopSet(old(State()), Cfg(), now)
    {
      loopSet := true;
      var buffered := pending;
      pending := [];
      for i := 0 to |buffered|
        invariant Valid()
        invariant Flushed(State(), Cfg(), buffered[i..], now) == EventLoopSet(old(State()), Cfg(), now)
      {
        assert buffered[i..][1..] == buffered[i + 1..];
        Enqueue(buffered[i], now);
      }
      assert buffered[|buffered|..] == [];
    }
  }

  /** A text logged twice in a row, inside the dedupe window, reaches the chat once. */
  method RepeatedErrorDeliveredOnce(text: string, now: int, later: int) returns (outbox: seq<string>)
    requires text != "" && now <= later < now + 15
    ensures outbox == [text]
  {
    var h := new TelegramLogHandler(10, 60, 15);
    ghost var s0 := h.State();
    h.SetEventLoop(now);
    assert h.State() == s0.(loopSet := true);
    ghost var s1 := h.State();
    h.Enqueue(text, now);
    assert Evict([], now, 60) == [];
    assert h.State().outbox == [text];
    DuplicateDropped(s1, h.Cfg(), text, now, later);
    h.Enqueue(text, later);
    outbox := h.outbox;
  }

  /** Flushing one text is enqueuing it. */
  lemma FlushedOne(s: Snapshot, cfg: Config, texts: seq<string>, now: int)
    requires |texts| == 1
    ensures Flushed(s, cfg, texts, now) == Enqueued(s, cfg, texts[0], now)
  {
    assert texts[1..] == [];
  }

  /** A text that is no duplicate, with room in the throttle, is sent. */
  lemma FreshSent(s: Snapshot, cfg: Config, text: string, now: int)
    requires s.loopSet && !Dedupes(s, cfg, text, now) && |s.sentTimestamps| < cfg.capacity
    ensures var r := Enqueued(s, cfg, text, now);
      r.outbox == s.outbox + [text] && r.lastText == Some(text) && |r.sentTimestamps| <= |s.sentTimestamps| + 1
  {
  }

  /** Two distinct buffered texts are both sent, in order, when the loop is set. */
  lemma TwoBufferedReplayed(s: Snapshot, cfg: Config, a: string, b: string, now: int)
    requires s.pending == [a, b] && s.sentTimestamps == [] && s.lastText == None
    requires a != b && cfg.capacity >= 2
    ensures EventLoopSet(s, cfg, now).outbox == s.outbox + [a, b]
  {
    var s0 := s.(loopSet := true, pending := []);
    FreshSent(s0, cfg, a, now);
    var s1 := Enqueued(s0, cfg, a, now);
    assert !Dedupes(s1, cfg, b, now);
    FreshSent(s1, cfg, b, now);
    assert EventLoopSet(s, cfg, now) == Flushed(s1, cfg, [a, b][1..], now);
    FlushedOne(s1, cfg, [a, b][1..], now);
    assert s.outbox + [a] + [b] == s.outbox + [a, b];
  }

  /** Records logged before the loop exists are buffered, and delivered in order once it is set. */
  method BufferedUntilLoop(a: string, b: string, now: int) returns (before: seq<string>, after: seq<string>)
    requires a != b
    ensures before == [] && after == [a, b]
  {
    var h := new TelegramLogHandler(10, 60, 15);
    h.Emit(false, a, now);
    h.Emit(false, b, now);
    before := h.outbox;
    TwoBufferedReplayed(h.State(), h.Cfg(), a, b, now);
    h.SetEventLoop(now);
    after := h.outbox;
  }
}
