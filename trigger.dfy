/** The one-shot viewport trigger of the admin sections: the observer callback
    fetches on an intersection while `hasFetched` is false, and raises the flag
    before the request goes out, so a failed request does not re-arm it. */
module Trigger {

  /** One observer callback on `fired` (the `hasFetched` flag): the new flag, and
      whether this callback starts the fetch. */
  function Step(fired: bool, intersecting: bool): (r: (bool, bool))
    ensures r.1 <==> intersecting && !fired
    ensures r.0 <==> fired || intersecting
  {
    if intersecting && !fired then (true, true) else (fired, false)
  }

  /** A run of observer callbacks from flag `fired`: the final flag, and how many
      of the callbacks started a fetch. The flag ends raised exactly when it started
      raised or some callback saw the section. */
  function Run(fired: bool, events: seq<bool>): (r: (bool, nat))
    ensures r.0 <==> fired || true in events
    decreases |events|
  {
    if |events| == 0 then (fired, 0)
    else
      assert events == [events[0]] + events[1..];
      var s := Step(fired, events[0]);
      var rest := Run(s.0, events[1..]);
      (rest.0, rest.1 + if s.1 then 1 else 0)
  }

  /** Whatever the intersections and whatever the outcomes of the requests, the
      fetch starts at most once: exactly once when the flag starts lowered and
      some callback sees the section, never otherwise. */
  lemma {:induction false} FiresAtMostOnce(fired: bool, events: seq<bool>)
    ensures Run(fired, events).1 == if !fired && true in events then 1 else 0
    decreases |events|
  {
    if |events| > 0 {
      var s := Step(fired, events[0]);
      FiresAtMostOnce(s.0, events[1..]);
      assert events == [events[0]] + events[1..];
      assert true in events <==> events[0] || true in events[1..];
    }
  }
}
