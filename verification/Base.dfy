/** Vocabulary shared by every part of the node: saturating 64-bit clock
    arithmetic, identifiers, delivery classes and outcomes. */
module Base {

  // ---- 64-bit unsigned arithmetic -------------------------------------------

  const U64_LIMIT: int := 0x1_0000_0000_0000_0000
  const U64_MAX: u64 := 0xFFFF_FFFF_FFFF_FFFF
  const NANOS_PER_SEC: u64 := 1_000_000_000
  const NANOS_PER_MS: u64 := 1_000_000

  type u64 = n: int | 0 <= n < 0x1_0000_0000_0000_0000

  /** `saturating_add`. */
  function SatAdd(a: u64, b: u64): u64 {
    if a + b <= U64_MAX then a + b else U64_MAX
  }

  /** `saturating_sub`. */
  function SatSub(a: u64, b: u64): u64 {
    if a >= b then a - b else 0
  }

  /** `saturating_mul`. */
  function SatMul(a: u64, b: u64): u64 {
    if a * b <= U64_MAX then a * b else U64_MAX
  }

  // ---- reals standing for finite `f32` values ------------------------------

  function RMin(a: real, b: real): real {
    if a <= b then a else b
  }

  function RMax(a: real, b: real): real {
    if a >= b then a else b
  }

  /** `clamp(lo, hi)`. */
  function Clamp(x: real, lo: real, hi: real): real {
    if x < lo then lo else if x > hi then hi else x
  }

  /** The exponential function: all that is used of it is that it is positive. */
  type PositiveFn = f: real -> real | forall x :: f(x) > 0.0
    ghost witness x => 1.0

  // ---- identifiers ----------------------------------------------------------

  // A ULID, the hash of a public key, a synapse name: only equality and, for
  // signals and synapses, a total order are used.
  type SignalId = nat
  type NodeId = nat
  type SynapseId = nat

  datatype Option<+T> = None | Some(value: T)

  // ---- delivery --------------------------------------------------------------

  datatype DeliveryClass = BestEffort | Acknowledged {
    predicate RequiresReceipt() {
      Acknowledged?
    }
  }

  datatype RejectReason = BelowThreshold | TtlExhausted | NoRoute | TransportFailed | QueueFull

  datatype ReceiptStatus = ReceiptDelivered | ReceiptRejected(reason: RejectReason)

  // ---- routing outcomes -------------------------------------------------------

  datatype Outcome = Pending | Delivered | Rejected | TimedOut | TransportFailure | SignatureFailure {
    function Reward(): real {
      match this
      case Delivered => 1.0
      case Pending => 0.0
      case TimedOut => -0.25
      case Rejected => -0.5
      case TransportFailure => -0.5
      case SignatureFailure => -1.0
    }

    predicate IsResolved() {
      !Pending?
    }
  }

  function OutcomeOf(status: ReceiptStatus): Outcome {
    match status
    case ReceiptDelivered => Delivered
    case ReceiptRejected(_) => Rejected
  }

  // ---- sequences --------------------------------------------------------------

  function Map<S, T>(f: S -> T, s: seq<S>): (r: seq<T>)
    ensures |r| == |s| && forall i :: 0 <= i < |s| ==> r[i] == f(s[i])
  {
    seq(|s|, i requires 0 <= i < |s| => f(s[i]))
  }

  predicate NoDup<T(==)>(s: seq<T>) {
    forall i, j :: 0 <= i < j < |s| ==> s[i] != s[j]
  }

  function RemoveAt<T>(s: seq<T>, i: nat): seq<T>
    requires i < |s|
  {
    s[..i] + s[i + 1..]
  }

  lemma {:induction false} RemoveAtPermutes<T>(s: seq<T>, i: nat)
    requires i < |s|
    ensures multiset(s) == multiset(RemoveAt(s, i)) + multiset{s[i]}
  {
    assert s == s[..i] + [s[i]] + s[i + 1..];
  }

  lemma {:induction false} MapAppend<S, T>(f: S -> T, s: seq<S>, t: seq<S>)
    ensures Map(f, s + t) == Map(f, s) + Map(f, t)
  {
  }

  lemma {:induction false} SameRest<T>(a: multiset<T>, b: multiset<T>, x: T)
    requires a + multiset{x} == b + multiset{x}
    ensures a == b
  {
    assert a == (a + multiset{x}) - multiset{x};
    assert b == (b + multiset{x}) - multiset{x};
  }

  /** Mapping a rearranged sequence rearranges the images. */
  lemma {:induction false} MapPermutes<S, T>(f: S -> T, s: seq<S>, t: seq<S>)
    requires multiset(s) == multiset(t)
    ensures multiset(Map(f, s)) == multiset(Map(f, t))
    decreases |s|
  {
    if s == [] {
      assert |multiset(t)| == 0;
    } else {
      assert s[0] in multiset(t);
      var i :| 0 <= i < |t| && t[i] == s[0];
      RemoveAtPermutes(t, i);
      RemoveAtPermutes(s, 0);
      SameRest(multiset(RemoveAt(s, 0)), multiset(RemoveAt(t, i)), s[0]);
      MapPermutes(f, RemoveAt(s, 0), RemoveAt(t, i));
      MapRemoveAt(f, s, 0);
      MapRemoveAt(f, t, i);
    }
  }

  lemma {:induction false} MapRemoveAt<S, T>(f: S -> T, s: seq<S>, i: nat)
    requires i < |s|
    ensures multiset(Map(f, s)) == multiset(Map(f, RemoveAt(s, i))) + multiset{f(s[i])}
  {
    assert RemoveAt(Map(f, s), i) == Map(f, RemoveAt(s, i));
    RemoveAtPermutes(Map(f, s), i);
  }

  /** Two accounts combined: if a is q and d, and q with x is q' and e, then a with x
      is q' and d and e. */
  lemma {:induction false} Rebalance<T>(a: multiset<T>, q: multiset<T>, d: multiset<T>, x: multiset<T>, q': multiset<T>,
          e: multiset<T>)
    requires a == q + d && q + x == q' + e
    ensures a + x == q' + (d + e)
  {
    assert a + x == (q + x) + d;
    assert (q' + e) + d == q' + (d + e);
  }

  /** Having no duplicates is a property of the multiset. */
  lemma {:induction false} NoDupByCount<T>(s: seq<T>)
    ensures NoDup(s) <==> forall x :: multiset(s)[x] <= 1
  {
    if NoDup(s) {
      forall x ensures multiset(s)[x] <= 1 {
        if x in s {
          var i :| 0 <= i < |s| && s[i] == x;
          RemoveAtPermutes(s, i);
          assert x !in RemoveAt(s, i);
        }
      }
    } else {
      var i, j :| 0 <= i < j < |s| && s[i] == s[j];
      RemoveAtPermutes(s, j);
      assert RemoveAt(s, j)[i] == s[j];
      assert s[j] in multiset(RemoveAt(s, j));
      assert multiset(s)[s[j]] >= 2;
    }
  }
}
