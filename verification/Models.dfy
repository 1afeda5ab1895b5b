// Shared vocabulary: call states, conversation phases, service categories
// and the bounded-deque helper that several in-memory buffers rely on.
module Models {

  datatype Option<+T> = None | Some(value: T)

  datatype CallState = Ringing | Active | Transferring | Ended | Failed

  datatype ConvPhase = Greeting | Verify | Triage | Diagnose | Resolve | WrapUp

  const PHASE_ORDER: seq<ConvPhase> := [Greeting, Verify, Triage, Diagnose, Resolve, WrapUp]

  const SERVICE_CATEGORIES: set<string> :=
    {"technical_support", "billing", "sales", "move_transfer", "appointment", "account"}

  // The position of a phase in PHASE_ORDER.
  function OrderIndex(phase: ConvPhase): (i: nat)
    ensures i < |PHASE_ORDER| && PHASE_ORDER[i] == phase
  {
    match phase
    case Greeting => 0
    case Verify => 1
    case Triage => 2
    case Diagnose => 3
    case Resolve => 4
    case WrapUp => 5
  }

  // The suffix of length at most n: what a deque with maxlen n retains of everything appended.
  function LastN<T>(s: seq<T>, n: nat): (r: seq<T>)
    ensures |r| == (if |s| <= n then |s| else n)
  {
    if |s| <= n then s else s[|s| - n..]
  }

  // deque(maxlen = n).append(x)
  function PushBounded<T>(s: seq<T>, x: T, n: nat): seq<T> {
    LastN(s + [x], n)
  }

  // A bounded deque always holds the suffix of its full append history.
  lemma PushBoundedIsSuffix<T>(history: seq<T>, x: T, n: nat)
    ensures PushBounded(LastN(history, n), x, n) == LastN(history + [x], n)
  {
    if n == 0 {
      assert PushBounded(LastN(history, n), x, n) == [] == LastN(history + [x], n);
    }
  }
}
