/**
 * The spectrum bridge of src/bridge.rs: a single-owner actor that keeps the
 * latest smoothed spectrum. Each `Push` folds a new frame into the stored one
 * with the gravity law of `smooth_buffer`; each `Consume` hands back a copy.
 */
module Bridge {
  import opened Primitives

  /** `len() as i32` keeps a length unchanged only below this bound. */
  const I32_LIMIT: nat := 0x8000_0000

  /** A frame of n zeros. */
  function Zeros(n: nat): (z: seq<f32>)
    ensures |z| == n
  {
    seq(n, _ => 0.0)
  }

  /** Entry i of a frame, read as 0.0 past its end. */
  function At(s: seq<f32>, i: nat): f32 {
    if i < |s| then s[i] else 0.0
  }

  /** What smooth_buffer keeps at one position: the new sample when it is strictly larger, else the stored one. */
  function Hold(stored: f32, sample: f32): (h: f32)
    ensures h >= stored && h >= sample
    ensures h == stored || h == sample
  {
    if sample > stored then sample else stored
  }

  /**
   * The stored frame after smooth_buffer's padding loop: as long as the longer
   * of the two lengths, the old entries first and only zeros after them.
   */
  function Padded(stored: seq<f32>, len: nat): (p: seq<f32>)
    ensures |p| == if len > |stored| then len else |stored|
    ensures p[..|stored|] == stored
    ensures forall i :: |stored| <= i < len ==> p[i] == 0.0
  {
    if len > |stored| then stored + Zeros(len - |stored|) else stored
  }

  /** The stored frame (`old_buffer`) as smooth_buffer leaves it: padded, then max-held over the new frame. */
  function Held(stored: seq<f32>, frame: seq<f32>): (h: seq<f32>)
    ensures |h| == |Padded(stored, |frame|)|
  {
    var p := Padded(stored, |frame|);
    seq(|p|, i requires 0 <= i < |p| => if i < |frame| then Hold(p[i], frame[i]) else p[i])
  }

  /** The frame smooth_buffer returns: the held values over the new frame's range, divided by `gravity + 1`. */
  function Smoothed(stored: seq<f32>, frame: seq<f32>, gravity: f32): (out: seq<f32>)
    requires gravity + 1.0 != 0.0
    ensures |out| == |frame|
  {
    var h := Held(stored, frame);
    seq(|frame|, i requires 0 <= i < |frame| => h[i] / (gravity + 1.0))
  }

  /**
   * smooth_buffer: pads the stored frame with zeros up to the new frame's
   * length, keeps the element-wise maximum in it, and emits each kept value
   * divided by `gravity + 1`. The stored frame the source updates through
   * `&mut` is returned as `held`.
   */
  method SmoothBuffer(stored: seq<f32>, frame: seq<f32>, gravity: f32) returns (held: seq<f32>, out: seq<f32>)
    requires |stored| < I32_LIMIT && |frame| < I32_LIMIT
    requires gravity + 1.0 != 0.0
    ensures held == Held(stored, frame)
    ensures out == Smoothed(stored, frame, gravity)
  {
    held := stored;
    out := [];
    var difference: int := |frame| - |stored|;
    if difference > 0 {
      for j := 0 to difference
        invariant |held| == |stored| + j
        invariant held == Padded(stored, |held|)
      {
        held := held + [0.0];
      }
    }
    assert held == Padded(stored, |frame|);
    ghost var padded := held;
    for i := 0 to |frame|
      invariant |held| == |padded| && |out| == i
      invariant forall j :: 0 <= j < i ==> held[j] == Hold(padded[j], frame[j])
      invariant forall j :: i <= j < |held| ==> held[j] == padded[j]
      invariant forall j :: 0 <= j < i ==> out[j] == held[j] / (gravity + 1.0)
    {
      if frame[i] > held[i] {
        held := held[i := frame[i]];
      }
      out := out + [held[i] / (gravity + 1.0)];
    }
  }

  /**
   * The stored frame after smooth_buffer: as long as the longer of the two
   * frames; over the new frame's range it holds the larger of the old value
   * (zero past its end) and the new one; beyond that it is untouched.
   */
  lemma HeldEntries(stored: seq<f32>, frame: seq<f32>)
    ensures |Held(stored, frame)| == if |frame| > |stored| then |frame| else |stored|
    ensures forall i :: 0 <= i < |frame| ==> Held(stored, frame)[i] == Hold(At(stored, i), frame[i])
    ensures forall i :: |frame| <= i < |stored| ==> Held(stored, frame)[i] == stored[i]
    ensures frame == [] ==> Held(stored, frame) == stored
  {
  }

  /** Each output entry is the held maximum of the old and new value, divided by `gravity + 1`. */
  lemma SmoothedEntries(stored: seq<f32>, frame: seq<f32>, gravity: f32)
    requires gravity + 1.0 != 0.0
    ensures |Smoothed(stored, frame, gravity)| == |frame|
    ensures forall i :: 0 <= i < |frame| ==>
      Smoothed(stored, frame, gravity)[i] == Hold(At(stored, i), frame[i]) / (gravity + 1.0)
  {
  }

  /** With non-negative frames and gravity at least 0, every output lies between 0 and the held maximum. */
  lemma SmoothedBounds(stored: seq<f32>, frame: seq<f32>, gravity: f32)
    requires gravity >= 0.0
    requires forall i :: 0 <= i < |stored| ==> stored[i] >= 0.0
    requires forall i :: 0 <= i < |frame| ==> frame[i] >= 0.0
    ensures forall i :: 0 <= i < |frame| ==>
      0.0 <= Smoothed(stored, frame, gravity)[i] <= Hold(At(stored, i), frame[i])
  {
  }

  /** Dividing a non-negative value by a divisor of at least 1 keeps it between 0 and itself. */
  lemma DivideByAtLeastOne(x: real, d: real)
    requires x >= 0.0 && d >= 1.0
    ensures 0.0 <= x / d <= x
  {
  }

  /** With gravity 0 the output is a running max-hold: the held values themselves, never below the old ones. */
  lemma NoGravityIsMaxHold(stored: seq<f32>, frame: seq<f32>)
    ensures Smoothed(stored, frame, 0.0) == Held(stored, frame)[..|frame|]
    ensures forall i :: 0 <= i < |frame| ==>
      Smoothed(stored, frame, 0.0)[i] >= At(stored, i) && Smoothed(stored, frame, 0.0)[i] >= frame[i]
  {
  }

  /**
   * Pushing an all-zero frame of the stored length with gravity above 0
   * strictly lowers every positive entry, and leaves no entry negative.
   */
  lemma ZeroFrameDecays(stored: seq<f32>, gravity: f32)
    requires gravity > 0.0
    ensures |Smoothed(stored, Zeros(|stored|), gravity)| == |stored|
    ensures forall i :: 0 <= i < |stored| ==> Smoothed(stored, Zeros(|stored|), gravity)[i] >= 0.0
    ensures forall i :: 0 <= i < |stored| && stored[i] > 0.0 ==>
      0.0 < Smoothed(stored, Zeros(|stored|), gravity)[i] < stored[i]
  {
  }

  /**
   * Two identical non-negative frames pushed onto an empty bridge publish the
   * same frame twice: the first output is already at most the frame, so the
   * second push holds the frame again and divides it the same way.
   */
  lemma RepeatedFrameIsSteady(frame: seq<f32>, gravity: f32)
    requires gravity >= 0.0
    requires forall i :: 0 <= i < |frame| ==> frame[i] >= 0.0
    ensures Smoothed(Smoothed([], frame, gravity), frame, gravity) == Smoothed([], frame, gravity)
  {
    var first := Smoothed([], frame, gravity);
    SmoothedEntries([], frame, gravity);
    SmoothedEntries(first, frame, gravity);
    forall i | 0 <= i < |frame|
      ensures Hold(At(first, i), frame[i]) == frame[i]
    {
      DivideByAtLeastOne(frame[i], gravity + 1.0);
    }
  }

  /** The two messages of the bridge's protocol. */
  datatype Event = Push(frame: seq<f32>) | Consume

  /** One outcome of `receiver.recv()`: an event, or an error that the loop only logs. */
  datatype Received = Got(event: Event) | RecvError

  /** The stored frame after handling one received message. */
  function Apply(buffer: seq<f32>, msg: Received, gravity: f32): seq<f32>
    requires gravity + 1.0 != 0.0
  {
    match msg
    case Got(Push(n)) => Smoothed(buffer, n, gravity)
    case _ => buffer
  }

  /** The stored frame after handling a sequence of messages in order. */
  function Replay(buffer: seq<f32>, msgs: seq<Received>, gravity: f32): seq<f32>
    requires gravity + 1.0 != 0.0
  {
    if msgs == [] then buffer
    else Apply(Replay(buffer, msgs[..|msgs| - 1], gravity), msgs[|msgs| - 1], gravity)
  }

  /** The number of `Consume` events among the messages. */
  function Consumes(msgs: seq<Received>): nat {
    if msgs == [] then 0
    else Consumes(msgs[..|msgs| - 1]) + (if msgs[|msgs| - 1] == Got(Consume) then 1 else 0)
  }

  /**
   * The copies sent back while handling a sequence of messages: exactly one
   * per `Consume`, and none for a `Push` or a receive error.
   */
  function Replies(buffer: seq<f32>, msgs: seq<Received>, gravity: f32): (r: seq<seq<f32>>)
    requires gravity + 1.0 != 0.0
    ensures |r| == Consumes(msgs)
  {
    if msgs == [] then []
    else
      var before := Replay(buffer, msgs[..|msgs| - 1], gravity);
      Replies(buffer, msgs[..|msgs| - 1], gravity) + (if msgs[|msgs| - 1] == Got(Consume) then [before] else [])
  }

  /** Every pushed frame is short enough for smooth_buffer's `as i32` length arithmetic. */
  predicate FramesFit(msgs: seq<Received>) {
    forall i :: 0 <= i < |msgs| && msgs[i].Got? && msgs[i].event.Push? ==> |msgs[i].event.frame| < I32_LIMIT
  }

  /** A message sequence with no `Push` in it. */
  predicate NoPush(msgs: seq<Received>) {
    forall i :: 0 <= i < |msgs| ==> !(msgs[i].Got? && msgs[i].event.Push?)
  }

  /** Before any `Push`, every `Consume` is answered with the empty frame, and the stored frame stays empty. */
  lemma {:induction false} ConsumeBeforePushIsEmpty(msgs: seq<Received>, gravity: f32)
    requires gravity + 1.0 != 0.0
    requires NoPush(msgs)
    ensures Replay([], msgs, gravity) == []
    ensures forall i :: 0 <= i < |Replies([], msgs, gravity)| ==> Replies([], msgs, gravity)[i] == []
  {
    if msgs != [] {
      var init := msgs[..|msgs| - 1];
      assert NoPush(init) by {
        forall i | 0 <= i < |init| ensures !(init[i].Got? && init[i].event.Push?) {
          assert init[i] == msgs[i];
        }
      }
      ConsumeBeforePushIsEmpty(init, gravity);
      assert !(msgs[|msgs| - 1].Got? && msgs[|msgs| - 1].event.Push?);
    }
  }

  /** A frame of all zeros, pushed k times. */
  function ZeroPushes(n: nat, k: nat): (msgs: seq<Received>)
    ensures |msgs| == k
    ensures forall i :: 0 <= i < k ==> msgs[i] == Got(Push(Zeros(n)))
  {
    seq(k, _ => Got(Push(Zeros(n))))
  }

  /**
   * An impulse decays: after k all-zero pushes with gravity above 0, every
   * positive stored entry is still positive, and each push lowered it strictly.
   */
  lemma {:induction false} ImpulseDecays(stored: seq<f32>, k: nat, gravity: f32, i: nat)
    requires gravity > 0.0
    requires i < |stored| && stored[i] > 0.0
    ensures |Replay(stored, ZeroPushes(|stored|, k), gravity)| == |stored|
    ensures Replay(stored, ZeroPushes(|stored|, k), gravity)[i] > 0.0
    ensures k > 0 ==>
      Replay(stored, ZeroPushes(|stored|, k), gravity)[i] < Replay(stored, ZeroPushes(|stored|, k - 1), gravity)[i]
  {
    if k > 0 {
      var msgs := ZeroPushes(|stored|, k);
      assert msgs[..k - 1] == ZeroPushes(|stored|, k - 1);
      ImpulseDecays(stored, k - 1, gravity, i);
      var before := Replay(stored, msgs[..k - 1], gravity);
      assert Replay(stored, msgs, gravity) == Smoothed(before, Zeros(|stored|), gravity);
      ZeroFrameDecays(before, gravity);
    }
  }

  /** base raised to the k-th power. */
  function Power(base: real, k: nat): (r: real)
    ensures base >= 1.0 ==> r >= 1.0
  {
    if k == 0 then 1.0 else
      var r := Power(base, k - 1);
      MultiplyAtLeastOne(base, r);
      base * r
  }

  /** The product of two values of at least 1 is at least each of them. */
  lemma MultiplyAtLeastOne(a: real, b: real)
    ensures a >= 1.0 && b >= 1.0 ==> a * b >= b && a * b >= 1.0
  {
  }

  lemma NonNegativeProduct(a: real, b: real)
    requires a >= 0.0 && b >= 0.0
    ensures a * b >= 0.0
  {
  }

  /** Bernoulli's inequality, for the growth of the gravity divisor. */
  lemma {:induction false} PowerGrows(g: real, k: nat)
    requires g > 0.0
    ensures Power(1.0 + g, k) >= 1.0 + k as real * g
  {
    if k > 0 {
      PowerGrows(g, k - 1);
      var p := Power(1.0 + g, k - 1);
      var q := 1.0 + (k - 1) as real * g;
      assert p >= q >= 1.0;
      assert Power(1.0 + g, k) == (1.0 + g) * p;
      assert (1.0 + g) * p - (1.0 + g) * q == (1.0 + g) * (p - q);
      NonNegativeProduct(1.0 + g, p - q);
      assert (1.0 + g) * q == q + g * q;
      assert g * q - g == g * (q - 1.0);
      NonNegativeProduct(g, q - 1.0);
    }
  }

  /** Dividing twice is dividing once by the product. */
  lemma DivideTwice(x: real, p: real, d: real, dp: real, q: real, y: real)
    requires p > 0.0 && d > 0.0 && dp == d * p
    requires q == x / p && y == q / d
    ensures y == x / dp
  {
  }

  /** Dividing by a divisor of at least `1 + k * g` brings any x below `k * g * eps` under eps. */
  lemma QuotientBelow(x: real, p: real, kg: real, eps: real)
    requires eps > 0.0 && kg >= 0.0 && x >= 0.0
    requires p >= 1.0 + kg && kg * eps > x
    ensures x / p < eps
  {
    assert eps * p - eps * kg == eps * (p - kg);
    NonNegativeProduct(eps, p - kg);
    assert x / p * p == x;
  }

  /** Dividing v by `(g + 1)^k` brings it below eps once `k * g * eps` exceeds v. */
  lemma DecayBelow(v: real, g: real, k: nat, eps: real)
    requires g > 0.0 && eps > 0.0 && v >= 0.0
    requires k as real * g * eps > v
    ensures v / Power(g + 1.0, k) < eps
  {
    PowerGrows(g, k);
    QuotientBelow(v, Power(g + 1.0, k), k as real * g, eps);
  }

  /** One more all-zero push smooths the frame the earlier pushes left. */
  lemma ZeroPushesStep(stored: seq<f32>, k: nat, gravity: f32)
    requires gravity + 1.0 != 0.0 && k > 0
    ensures Replay(stored, ZeroPushes(|stored|, k), gravity)
      == Smoothed(Replay(stored, ZeroPushes(|stored|, k - 1), gravity), Zeros(|stored|), gravity)
  {
    assert ZeroPushes(|stored|, k)[..k - 1] == ZeroPushes(|stored|, k - 1);
  }

  /** An all-zero push divides a non-negative entry by `gravity + 1`. */
  lemma ZeroPushDivides(before: seq<f32>, n: nat, gravity: f32, i: nat)
    requires gravity > 0.0 && i < |before| == n && before[i] >= 0.0
    ensures Smoothed(before, Zeros(n), gravity)[i] == before[i] / (gravity + 1.0)
  {
  }

  /** One all-zero push takes the level after k - 1 pushes to the level after k. */
  lemma ImpulseStep(stored: seq<f32>, before: seq<f32>, after: seq<f32>, k: nat, gravity: f32, i: nat)
    requires gravity > 0.0 && k > 0
    requires i < |stored| && stored[i] >= 0.0
    requires |before| == |stored| && before[i] == stored[i] / Power(gravity + 1.0, k - 1)
    requires after == Smoothed(before, Zeros(|stored|), gravity)
    ensures |after| == |stored|
    ensures after[i] == stored[i] / Power(gravity + 1.0, k)
  {
    var p := Power(gravity + 1.0, k - 1);
    DivideByAtLeastOne(stored[i], p);
    ZeroPushDivides(before, |stored|, gravity, i);
    DivideTwice(stored[i], p, gravity + 1.0, Power(gravity + 1.0, k), before[i], after[i]);
  }

  /**
   * After k all-zero pushes, a non-negative stored entry has been divided by
   * `gravity + 1` exactly k times.
   */
  lemma {:induction false} ImpulseLevel(stored: seq<f32>, k: nat, gravity: f32, i: nat)
    requires gravity > 0.0
    requires i < |stored| && stored[i] >= 0.0
    ensures |Replay(stored, ZeroPushes(|stored|, k), gravity)| == |stored|
    ensures Replay(stored, ZeroPushes(|stored|, k), gravity)[i] == stored[i] / Power(gravity + 1.0, k)
  {
    if k > 0 {
      ImpulseLevel(stored, k - 1, gravity, i);
      ZeroPushesStep(stored, k, gravity);
      ImpulseStep(stored, Replay(stored, ZeroPushes(|stored|, k - 1), gravity),
        Replay(stored, ZeroPushes(|stored|, k), gravity), k, gravity, i);
    } else {
      assert ZeroPushes(|stored|, k) == [];
    }
  }

  /**
   * The decay goes all the way to zero: once k * gravity * eps exceeds the
   * stored entry, k all-zero pushes bring it below eps.
   */
  lemma ImpulseVanishes(stored: seq<f32>, k: nat, gravity: f32, i: nat, eps: real)
    requires gravity > 0.0 && eps > 0.0
    requires i < |stored| && stored[i] >= 0.0
    requires k as real * gravity * eps > stored[i]
    ensures |Replay(stored, ZeroPushes(|stored|, k), gravity)| == |stored|
    ensures Replay(stored, ZeroPushes(|stored|, k), gravity)[i] < eps
  {
    ImpulseLevel(stored, k, gravity, i);
    DecayBelow(stored[i], gravity, k, eps);
  }

  /** The bridge actor of `init`: its one mutable `buffer` and the gravity it was started with. */
  class BridgeActor {
    var buffer: seq<f32>
    const gravity: f32

    /** `buffer` respects the `as i32` bound of smooth_buffer, and `gravity + 1` can divide. */
    ghost predicate Valid()
      reads this
    {
      |buffer| < I32_LIMIT && gravity + 1.0 != 0.0
    }

    /** `init` starts with an empty buffer. */
    constructor (gravity: f32)
      requires gravity + 1.0 != 0.0
      ensures Valid()
      ensures buffer == [] && this.gravity == gravity
    {
      buffer := [];
      this.gravity := gravity;
    }

    /** `Event::Push(n)`: the buffer becomes the smoothed frame smooth_buffer returns. */
    method Push(n: seq<f32>)
      requires Valid() && |n| < I32_LIMIT
      modifies this
      ensures Valid()
      ensures buffer == Smoothed(old(buffer), n, gravity)
      ensures |buffer| == |n|
    {
      var _, out := SmoothBuffer(buffer, n, gravity);
      buffer := out;
    }

    /** `Event::Consume`: a copy of the buffer is sent back; nothing changes. */
    method Consume() returns (frame: seq<f32>)
      ensures frame == buffer
    {
      frame := buffer;
    }

    /** The message loop, run over the messages received so far; a receive error is only logged. */
    method Serve(msgs: seq<Received>) returns (replies: seq<seq<f32>>)
      requires Valid() && FramesFit(msgs)
      modifies this
      ensures Valid()
      ensures buffer == Replay(old(buffer), msgs, gravity)
      ensures replies == Replies(old(buffer), msgs, gravity)
    {
      replies := [];
      for k := 0 to |msgs|
        invariant Valid()
        invariant buffer == Replay(old(buffer), msgs[..k], gravity)
        invariant replies == Replies(old(buffer), msgs[..k], gravity)
      {
        assert msgs[..k + 1][..k] == msgs[..k];
        match msgs[k]
        case Got(Push(n)) =>
          Push(n);
        case Got(Consume) =>
          var frame := Consume();
          replies := replies + [frame];
        case RecvError =>
      }
      assert msgs[..|msgs|] == msgs;
    }
  }
}
