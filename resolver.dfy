/**
 * The per-token decision loop `process_token` (rotate-tokens.py:67-88).
 *
 * The operator is the finite list of lines still to be typed; the loop
 * consumes lines from its front. When the list runs out, `input()` raises
 * EOFError, which nothing catches: the outcome is then `InputExhausted` and the
 * whole run ends. The status block printed before the prompt
 * (rotate-tokens.py:56-65) is display only and is not modelled.
 */
module Resolver {
  import opened Tokens
  import opened Operator
  import opened Effects

  /** What `process_token` returned, or that input ran out inside it. */
  datatype Outcome = Returned(rotated: bool) | InputExhausted

  /** The outcome, the lines left for later prompts, and the events. */
  datatype Step = Step(outcome: Outcome, rest: seq<string>, events: seq<Event>)

  predicate IsSuffix<T(==)>(a: seq<T>, b: seq<T>)
  {
    |a| <= |b| && a == b[|b| - |a|..]
  }

  /** The resolver's meaning, one prompt at a time. `r` rotates with the new
      expiry date and then waits for one acknowledging line; `d` asks for
      confirmation and deletes on `y`, otherwise prompts again; `i` returns;
      anything else prompts again. */
  function Resolve(t: Token, expiry: Date, lines: seq<string>): (s: Step)
    ensures IsSuffix(s.rest, lines)
    ensures s.outcome == Returned(true) ==> s.events == [Rotated(t.id, expiry)]
    ensures s.outcome == Returned(false) ==> s.events == [] || s.events == [Deleted(t.id)]
    ensures s.outcome == InputExhausted ==>
              s.rest == [] && (s.events == [] || s.events == [Rotated(t.id, expiry)])
    decreases |lines|
  {
    if lines == [] then Step(InputExhausted, [], [])
    else
      var rest := lines[1..];
      match Parse(lines[0])
      case Rotate =>
        if rest == [] then Step(InputExhausted, [], [Rotated(t.id, expiry)])
        else Step(Returned(true), rest[1..], [Rotated(t.id, expiry)])
      case Delete =>
        if rest == [] then Step(InputExhausted, [], [])
        else if Confirms(rest[0]) then Step(Returned(false), rest[1..], [Deleted(t.id)])
        else Resolve(t, expiry, rest[1..])
      case Ignore => Step(Returned(false), rest, [])
      case Other => Resolve(t, expiry, rest)
  }

  /** `process_token`: the `while True` prompt loop. */
  method ResolveToken(t: Token, expiry: Date, lines: seq<string>)
    returns (outcome: Outcome, rest: seq<string>, events: seq<Event>)
    ensures Step(outcome, rest, events) == Resolve(t, expiry, lines)
  {
    rest := lines;
    while true
      invariant Resolve(t, expiry, rest) == Resolve(t, expiry, lines)
      decreases |rest|
    {
      if rest == [] {
        return InputExhausted, [], [];
      }
      var command := Parse(rest[0]);
      rest := rest[1..];
      match command {
        case Rotate =>
          events := [Rotated(t.id, expiry)];
          // "Save it wherever it's used, then press enter to continue..."
          if rest == [] {
            return InputExhausted, [], events;
          }
          return Returned(true), rest[1..], events;
        case Delete =>
          if rest == [] {
            return InputExhausted, [], [];
          }
          var answer := rest[0];
          rest := rest[1..];
          if Confirms(answer) {
            return Returned(false), rest, [Deleted(t.id)];
          }
        case Ignore =>
          return Returned(false), rest, [];
        case Other =>
      }
    }
  }

  /** `r` followed by the acknowledging line rotates exactly once and
      returns true. */
  lemma RotateAnswer(t: Token, expiry: Date, answer: string, ack: string, later: seq<string>)
    requires Parse(answer) == Rotate
    ensures Resolve(t, expiry, [answer, ack] + later) == Step(Returned(true), later, [Rotated(t.id, expiry)])
  {
    assert ([answer, ack] + later)[1..][1..] == later;
  }

  /** `i` returns false and changes nothing. */
  lemma IgnoreAnswer(t: Token, expiry: Date, answer: string, later: seq<string>)
    requires Parse(answer) == Ignore
    ensures Resolve(t, expiry, [answer] + later) == Step(Returned(false), later, [])
  {
    assert ([answer] + later)[1..] == later;
  }

  /** `d` confirmed with `y` deletes exactly once and returns false. */
  lemma ConfirmedDelete(t: Token, expiry: Date, answer: string, yes: string, later: seq<string>)
    requires Parse(answer) == Delete && Confirms(yes)
    ensures Resolve(t, expiry, [answer, yes] + later) == Step(Returned(false), later, [Deleted(t.id)])
  {
    assert ([answer, yes] + later)[1..][1..] == later;
  }

  /** A group of lines after which the resolver is back at its prompt having
      done nothing: an unrecognised or empty answer, or `d` followed by an
      answer that does not confirm. */
  predicate IsRetry(unit: seq<string>)
  {
    (|unit| == 1 && Parse(unit[0]) == Other)
    || (|unit| == 2 && Parse(unit[0]) == Delete && !Confirms(unit[1]))
  }

  function Concat(units: seq<seq<string>>): seq<string>
  {
    if units == [] then [] else units[0] + Concat(units[1..])
  }

  /** One unrecognised answer or declined deletion leaves no trace. */
  lemma RetryLeavesNoTrace(t: Token, expiry: Date, unit: seq<string>, later: seq<string>)
    requires IsRetry(unit)
    ensures Resolve(t, expiry, unit + later) == Resolve(t, expiry, later)
  {
    if |unit| == 1 {
      assert (unit + later)[1..] == later;
    } else {
      assert (unit + later)[1..][1..] == later;
      assert (unit + later)[1..][0] == unit[1];
    }
  }

  /** Any number of unrecognised answers and declined deletions before the
      decisive lines leave no trace: the resolver ends exactly as if they
      had not been typed. */
  lemma {:induction false} RetriesLeaveNoTrace(t: Token, expiry: Date, units: seq<seq<string>>, later: seq<string>)
    requires forall i :: 0 <= i < |units| ==> IsRetry(units[i])
    ensures Resolve(t, expiry, Concat(units) + later) == Resolve(t, expiry, later)
  {
    if units == [] {
      assert Concat(units) + later == later;
    } else {
      var tail := Concat(units[1..]) + later;
      assert Concat(units) + later == units[0] + tail;
      RetryLeavesNoTrace(t, expiry, units[0], tail);
      RetriesLeaveNoTrace(t, expiry, units[1..], later);
    }
  }
}
