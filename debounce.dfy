/** The single-slot debounce timer of the Search and Manage Movies views. Every
    change of the query text clears the pending timer and arms a new one 350 ms
    later; a timer that comes due fires once and empties the slot. Time is a
    logical clock in milliseconds. */
module Debounce {
  import opened Common

  const DelayMs: int := 350

  /** The timer slot: empty, or one pending callback that will search `query`
      when the clock reaches `due`. */
  datatype Timer = Idle | Pending(due: int, query: string)

  /** The query effect: whatever was pending is cleared, and exactly one callback
      is pending, for the new text, one delay from now. */
  function Rearm(now: int, query: string): (t: Timer)
    ensures t.Pending? && t.due == now + DelayMs && t.query == query
  {
    Pending(now + DelayMs, query)
  }

  /** A pending callback runs once the clock has reached its due time. */
  predicate Due(t: Timer, now: int) {
    t.Pending? && t.due <= now
  }

  /** The clock reaches `now`: a due callback fires (yielding its query) and
      leaves the slot empty; otherwise nothing changes. */
  function Advance(t: Timer, now: int): (r: (Timer, Option<string>))
    ensures Due(t, now) ==> r.0 == Idle && r.1 == Some(t.query)
    ensures !Due(t, now) ==> r.0 == t && r.1 == None
  {
    if Due(t, now) then (Idle, Some(t.query)) else (t, None)
  }

  /** A change of the text field at time `at` to `text`. */
  datatype Keystroke = Keystroke(at: int, text: string)

  /** The slot, the text, and the queries fired so far. */
  datatype Trace = Trace(timer: Timer, text: string, fired: seq<string>)

  /** What the view does for a series of keystrokes: the clock reaches each
      keystroke's time, then the text changes; the effect re-arms the timer only
      when the text is different from before. */
  function Replay(start: Trace, keys: seq<Keystroke>): Trace
  {
    if keys == [] then start
    else
      var before := Replay(start, keys[..|keys| - 1]);
      var k := keys[|keys| - 1];
      var (t, f) := Advance(before.timer, k.at);
      var fired := if f.Some? then before.fired + [f.value] else before.fired;
      if k.text != before.text then Trace(Rearm(k.at, k.text), k.text, fired)
      else Trace(t, before.text, fired)
  }

  /** A burst: keystrokes in time order, each within the delay of the one before,
      each changing the text. */
  predicate Burst(text: string, keys: seq<Keystroke>) {
    && |keys| > 0
    && keys[0].text != text
    && forall i :: 0 < i < |keys| ==>
         keys[i - 1].at <= keys[i].at < keys[i - 1].at + DelayMs && keys[i].text != keys[i - 1].text
  }

  /** During a burst nothing fires, and at its end exactly one callback is
      pending: the one for the last text, one delay after the last keystroke. */
  lemma {:induction false} BurstLeavesOnePending(start: Trace, keys: seq<Keystroke>)
    requires Burst(start.text, keys)
    requires !Due(start.timer, keys[0].at)
    ensures var last := keys[|keys| - 1];
      Replay(start, keys) == Trace(Rearm(last.at, last.text), last.text, start.fired)
  {
    if |keys| > 1 {
      var init := keys[..|keys| - 1];
      assert Burst(start.text, init) by {
        forall i | 0 < i < |init| ensures init[i - 1].at <= init[i].at < init[i - 1].at + DelayMs {
          assert init[i] == keys[i] && init[i - 1] == keys[i - 1];
        }
      }
      BurstLeavesOnePending(start, init);
    }
  }

  /** After a burst the callback fires exactly when the clock reaches the last
      keystroke's time plus the delay, and then only once, with the last text. */
  lemma BurstFiresOnceAtEnd(start: Trace, keys: seq<Keystroke>, t1: int, t2: int)
    requires Burst(start.text, keys)
    requires !Due(start.timer, keys[0].at)
    requires keys[|keys| - 1].at <= t1 <= t2
    ensures var last := keys[|keys| - 1];
      var slot := Replay(start, keys).timer;
      && (Advance(slot, t1).1.Some? <==> t1 >= last.at + DelayMs)
      && (t1 >= last.at + DelayMs ==> Advance(slot, t1).1 == Some(last.text))
      && Advance(Advance(slot, t1).0, t2).1 == (if t1 < last.at + DelayMs <= t2 then Some(last.text) else None)
  {
    BurstLeavesOnePending(start, keys);
  }

  /** Keystrokes at 0, 100 and 200 ms followed by silence: the one search runs at
      550 ms, with the text typed at 200 ms. */
  lemma ThreeKeystrokesExample()
    ensures var keys := [Keystroke(0, "m"), Keystroke(100, "ma"), Keystroke(200, "mat")];
      var slot := Replay(Trace(Idle, "", []), keys).timer;
      && Advance(slot, 549).1 == None
      && Advance(slot, 550).1 == Some("mat")
  {
    var keys := [Keystroke(0, "m"), Keystroke(100, "ma"), Keystroke(200, "mat")];
    BurstLeavesOnePending(Trace(Idle, "", []), keys);
  }
}
