/** `select` of the libmill generation (Source/Venice/Select/Select.swift):
    the case builder with its arm filtering, the registration of every case
    with libmill under its position, the dispatch on the index
    `mill_choose_wait` returns, and the `forSelect` loop.

    The channels a select touches are given as a `World`: the `closed` flag
    and buffer of each plain channel and of each fallible channel, by
    number.  Swift's cases are generic in their own element types; here the
    arms of one select carry values of one type `T` (and errors of one type
    `E`).  A closure is named by an integer tag; running it is reported as a
    `Run` with the argument it was given. */
module MillSelect {
  import opened Base
  import opened SideBuffer
  import MillChannel

  /** The `closed` flag and buffer of one channel. */
  datatype ChanState<X> = ChanState(closed: bool, buffer: seq<X>)

  /** The plain channels and the fallible channels, by number. */
  datatype World<T, E> = World(plain: seq<ChanState<T>>, fallible: seq<ChanState<ChannelResult<T, E>>>)

  /** The argument a closure is called with. */
  datatype Arg<T, E> = Nothing | GotValue(value: T) | GotResult(result: ChannelResult<T, E>)

  /** A closure that ran, and its argument. */
  datatype Run<T, E> = Ran(closure: int, arg: Arg<T, E>)

  /** The case classes (`ChannelReceiveCase`, `FallibleChannelReceiveCase`,
      `FallibleReceivingChannelReceiveCase`, `ChannelSendCase`,
      `FallibleChannelSendCase`, `FallibleChannelSendErrorCase`). */
  datatype Case<T, E> =
    | ChannelReceive(channel: nat, closure: int)
    | FallibleReceive(channel: nat, closure: int)
    | FallibleViewReceive(channel: nat, closure: int)
    | ChannelSend(channel: nat, value: T, closure: int)
    | FallibleSend(channel: nat, value: T, closure: int)
    | FallibleSendError(channel: nat, error: E, closure: int)
  {
    predicate IsReceive() {
      ChannelReceive? || FallibleReceive? || FallibleViewReceive?
    }

    /** Whether the case's channel is a fallible one. */
    predicate OnFallible() {
      !ChannelReceive? && !ChannelSend?
    }
  }

  /** A clause handed to libmill: `mill_choose_in` or `mill_choose_out`,
      with its index. */
  datatype Clause = In(index: int) | Out(index: int)

  /** Every channel a case names exists. */
  predicate Fits<T, E>(w: World<T, E>, k: Case<T, E>)
  {
    if k.OnFallible() then k.channel < |w.fallible| else k.channel < |w.plain|
  }

  predicate AllFit<T, E>(w: World<T, E>, cases: seq<Case<T, E>>)
  {
    forall i :: 0 <= i < |cases| ==> Fits(w, cases[i])
  }

  /** Whether the channel of case `k` is closed. */
  function ClosedOf<T, E>(w: World<T, E>, k: Case<T, E>): bool
    requires Fits(w, k)
  {
    if k.OnFallible() then w.fallible[k.channel].closed else w.plain[k.channel].closed
  }

  // ---------------------------------------------------------------------
  // Building

  /** One call the `build` closure makes on the builder; `None` stands for
      a nil channel. */
  datatype Arm<T, E> =
    | ReceivedValueFrom(plain: Option<nat>, closure: int)
    | ReceivedResultFrom(fallible: Option<nat>, closure: int)
    | ReceivedResultFromView(fallible: Option<nat>, closure: int)
    | SentValue(value: T, plain: Option<nat>, closure: int)
    | SentFallibleValue(value: T, fallible: Option<nat>, closure: int)
    | SentFallibleError(error: E, fallible: Option<nat>, closure: int)
    | OtherwiseArm(closure: int)

  /** Every channel an arm names exists. */
  predicate ArmFits<T, E>(w: World<T, E>, a: Arm<T, E>)
  {
    match a
    case ReceivedValueFrom(c, _) => c.Some? ==> c.value < |w.plain|
    case SentValue(_, c, _) => c.Some? ==> c.value < |w.plain|
    case OtherwiseArm(_) => true
    case _ => a.fallible.Some? ==> a.fallible.value < |w.fallible|
  }

  /** The case an arm adds: none for a nil channel, none for a send to a
      closed channel, none for `otherwise`. */
  function CaseOf<T, E>(w: World<T, E>, a: Arm<T, E>): (r: Option<Case<T, E>>)
    requires ArmFits(w, a)
    ensures r.Some? ==> Fits(w, r.value) && r.value.closure == a.closure
    ensures r.Some? && !r.value.IsReceive() ==> !ClosedOf(w, r.value)
  {
    match a
    case ReceivedValueFrom(c, f) => if c.Some? then Some(ChannelReceive(c.value, f)) else None
    case ReceivedResultFrom(c, f) => if c.Some? then Some(FallibleReceive(c.value, f)) else None
    case ReceivedResultFromView(c, f) => if c.Some? then Some(FallibleViewReceive(c.value, f)) else None
    case SentValue(v, c, f) =>
      if c.Some? && !w.plain[c.value].closed then Some(ChannelSend(c.value, v, f)) else None
    case SentFallibleValue(v, c, f) =>
      if c.Some? && !w.fallible[c.value].closed then Some(FallibleSend(c.value, v, f)) else None
    case SentFallibleError(e, c, f) =>
      if c.Some? && !w.fallible[c.value].closed then Some(FallibleSendError(c.value, e, f)) else None
    case OtherwiseArm(_) => None
  }

  /** The builder's filter, in both directions: `otherwise` adds no case; a
      receive arm adds one exactly when its channel is not nil; a send arm
      adds one exactly when its channel is not nil and not closed.  A case
      added is of the arm's kind and on the arm's channel. */
  lemma CaseOfFilter<T, E>(w: World<T, E>, a: Arm<T, E>)
    requires ArmFits(w, a)
    ensures var r := CaseOf(w, a);
      && (a.OtherwiseArm? ==> r.None?)
      && (a.ReceivedValueFrom? ==> (r.Some? <==> a.plain.Some?))
      && (a.ReceivedResultFrom? || a.ReceivedResultFromView? ==> (r.Some? <==> a.fallible.Some?))
      && (a.SentValue? ==> (r.Some? <==> a.plain.Some? && !w.plain[a.plain.value].closed))
      && (a.SentFallibleValue? || a.SentFallibleError? ==>
            (r.Some? <==> a.fallible.Some? && !w.fallible[a.fallible.value].closed))
      && (r.Some? ==> (r.value.IsReceive() <==>
            a.ReceivedValueFrom? || a.ReceivedResultFrom? || a.ReceivedResultFromView?))
      && (r.Some? && (a.ReceivedValueFrom? || a.SentValue?) ==> r.value.channel == a.plain.value)
      && (r.Some? && !(a.ReceivedValueFrom? || a.SentValue?) ==> r.value.channel == a.fallible.value)
  {
  }

  /** The cases and the `otherwise` closure a sequence of builder calls
      leaves. */
  function Build<T, E>(w: World<T, E>, arms: seq<Arm<T, E>>): (r: (seq<Case<T, E>>, Option<int>))
    requires forall i :: 0 <= i < |arms| ==> ArmFits(w, arms[i])
    decreases |arms|
  {
    if arms == [] then ([], None)
    else
      var (cases, otherwise) := Build(w, arms[..|arms| - 1]);
      var a := arms[|arms| - 1];
      var k := CaseOf(w, a);
      (cases + (if k.Some? then [k.value] else []),
       if a.OtherwiseArm? then Some(a.closure) else otherwise)
  }

  /** Every case the builder keeps names an existing channel, no send case
      is on a closed channel, and the last `otherwise` wins. */
  lemma {:induction false} BuildProperties<T, E>(w: World<T, E>, arms: seq<Arm<T, E>>)
    requires forall i :: 0 <= i < |arms| ==> ArmFits(w, arms[i])
    ensures var (cases, otherwise) := Build(w, arms);
      && |cases| <= |arms|
      && AllFit(w, cases)
      && (forall i :: 0 <= i < |cases| && !cases[i].IsReceive() ==> !ClosedOf(w, cases[i]))
      && (otherwise.Some? <==> exists i :: 0 <= i < |arms| && arms[i].OtherwiseArm?)
      && (otherwise.Some? ==>
            exists i :: 0 <= i < |arms| && arms[i].OtherwiseArm? && arms[i].closure == otherwise.value &&
              forall j :: i < j < |arms| ==> !arms[j].OtherwiseArm?)
    decreases |arms|
  {
    if arms != [] {
      var n := |arms| - 1;
      var prefix := arms[..n];
      assert forall i :: 0 <= i < |prefix| ==> prefix[i] == arms[i];
      BuildProperties(w, prefix);
      var (cases, otherwise) := Build(w, arms);
      var (c0, o0) := Build(w, prefix);
      if !arms[n].OtherwiseArm? && o0.Some? {
        var i :| 0 <= i < |prefix| && prefix[i].OtherwiseArm? && prefix[i].closure == o0.value
          && forall j :: i < j < |prefix| ==> !prefix[j].OtherwiseArm?;
        assert arms[i].OtherwiseArm? && arms[i].closure == otherwise.value;
      }
      if arms[n].OtherwiseArm? {
        assert arms[n].closure == otherwise.value;
      }
    }
  }

  /** The positions of the arms that add a case, in call order. */
  function KeptIndices<T, E>(w: World<T, E>, arms: seq<Arm<T, E>>): seq<nat>
    requires forall i :: 0 <= i < |arms| ==> ArmFits(w, arms[i])
    decreases |arms|
  {
    if arms == [] then []
    else
      var n := |arms| - 1;
      KeptIndices(w, arms[..n]) + (if CaseOf(w, arms[n]).Some? then [n] else [])
  }

  /** `KeptIndices` lists, in increasing order, exactly the positions whose
      arm `CaseOf` keeps. */
  lemma {:induction false} KeptIndicesExact<T, E>(w: World<T, E>, arms: seq<Arm<T, E>>)
    requires forall i :: 0 <= i < |arms| ==> ArmFits(w, arms[i])
    ensures var ks := KeptIndices(w, arms);
      && (forall j :: 0 <= j < |ks| ==> ks[j] < |arms| && CaseOf(w, arms[ks[j]]).Some?)
      && (forall j, j' :: 0 <= j < j' < |ks| ==> ks[j] < ks[j'])
      && (forall i :: 0 <= i < |arms| ==> (i in ks <==> CaseOf(w, arms[i]).Some?))
    decreases |arms|
  {
    if arms != [] {
      var n := |arms| - 1;
      var prefix := arms[..n];
      assert forall i :: 0 <= i < |prefix| ==> prefix[i] == arms[i];
      KeptIndicesExact(w, prefix);
      var ks0 := KeptIndices(w, prefix);
      assert n !in ks0;
    }
  }

  /** Exactly the arms `CaseOf` keeps become cases, one each, in the order
      the builder was called. */
  lemma {:induction false} BuildKeepsOrder<T, E>(w: World<T, E>, arms: seq<Arm<T, E>>)
    requires forall i :: 0 <= i < |arms| ==> ArmFits(w, arms[i])
    ensures var cases := Build(w, arms).0;
      var ks := KeptIndices(w, arms);
      && |cases| == |ks|
      && (forall j :: 0 <= j < |ks| ==>
            ks[j] < |arms| && CaseOf(w, arms[ks[j]]).Some? && cases[j] == CaseOf(w, arms[ks[j]]).value)
      && (forall j, j' :: 0 <= j < j' < |ks| ==> ks[j] < ks[j'])
      && (forall i :: 0 <= i < |arms| ==> (i in ks <==> CaseOf(w, arms[i]).Some?))
    decreases |arms|
  {
    KeptIndicesExact(w, arms);
    if arms != [] {
      var n := |arms| - 1;
      var prefix := arms[..n];
      assert forall i :: 0 <= i < |prefix| ==> prefix[i] == arms[i];
      BuildKeepsOrder(w, prefix);
      var c0 := Build(w, prefix).0;
      var ks0 := KeptIndices(w, prefix);
      var cases := Build(w, arms).0;
      var ks := KeptIndices(w, arms);
      forall j | 0 <= j < |ks0|
        ensures cases[j] == CaseOf(w, arms[ks[j]]).value
      {
        assert cases[j] == c0[j] && ks[j] == ks0[j];
      }
    }
  }

  /** `SelectCaseBuilder`. */
  class Builder<T, E> {
    var cases: seq<Case<T, E>>
    var otherwise: Option<int>

    constructor ()
      ensures cases == [] && otherwise == None
    {
      cases := [];
      otherwise := None;
    }

    /** Any of `received(valueFrom:)`, `received(resultFrom:)`,
        `sent(_:to:)` and `otherwise(_:)`, as `arm` says. */
    method Add(w: World<T, E>, arm: Arm<T, E>)
      requires ArmFits(w, arm)
      modifies this
      ensures var k := CaseOf(w, arm);
        cases == old(cases) + (if k.Some? then [k.value] else [])
      ensures otherwise == if arm.OtherwiseArm? then Some(arm.closure) else old(otherwise)
    {
      match arm
      case ReceivedValueFrom(c, f) =>
        if c.Some? {
          cases := cases + [ChannelReceive(c.value, f)];
        }
      case ReceivedResultFrom(c, f) =>
        if c.Some? {
          cases := cases + [FallibleReceive(c.value, f)];
        }
      case ReceivedResultFromView(c, f) =>
        if c.Some? {
          cases := cases + [FallibleViewReceive(c.value, f)];
        }
      case SentValue(v, c, f) =>
        if c.Some? && !w.plain[c.value].closed {
          cases := cases + [ChannelSend(c.value, v, f)];
        }
      case SentFallibleValue(v, c, f) =>
        if c.Some? && !w.fallible[c.value].closed {
          cases := cases + [FallibleSend(c.value, v, f)];
        }
      case SentFallibleError(e, c, f) =>
        if c.Some? && !w.fallible[c.value].closed {
          cases := cases + [FallibleSendError(c.value, e, f)];
        }
      case OtherwiseArm(f) =>
        otherwise := Some(f);
    }
  }

  /** A fresh builder that receives `arms` in order ends up holding
      `Build(w, arms)`. */
  method BuildWith<T, E>(w: World<T, E>, arms: seq<Arm<T, E>>) returns (b: Builder<T, E>)
    requires forall i :: 0 <= i < |arms| ==> ArmFits(w, arms[i])
    ensures fresh(b) && (b.cases, b.otherwise) == Build(w, arms)
  {
    b := new Builder();
    var n := 0;
    while n < |arms|
      invariant 0 <= n <= |arms|
      invariant (b.cases, b.otherwise) == Build(w, arms[..n])
    {
      assert arms[..n + 1][..n] == arms[..n];
      b.Add(w, arms[n]);
      n := n + 1;
    }
    assert arms[..n] == arms;
  }

  // ---------------------------------------------------------------------
  // Registration

  /** The clause registered for the case at position `index`: a receive is
      always registered; a send only if its channel is still open (it has
      been closed since the arm was built otherwise). */
  function ClauseFor<T, E>(w: World<T, E>, k: Case<T, E>, index: int): (c: Option<Clause>)
    requires Fits(w, k)
    ensures c.Some? ==> c.value.index == index && (c.value.In? <==> k.IsReceive())
    ensures c == None <==> !k.IsReceive() && ClosedOf(w, k)
  {
    if k.IsReceive() then Some(In(index))
    else if ClosedOf(w, k) then None
    else Some(Out(index))
  }

  /** `register(_:index:)`: a send arm buffers its payload (the channel's
      `send(_:clause:index:)`); a receive arm changes nothing. */
  function RegisterCase<T, E>(w: World<T, E>, k: Case<T, E>): (w': World<T, E>)
    requires Fits(w, k)
    ensures |w'.plain| == |w.plain| && |w'.fallible| == |w.fallible|
    ensures forall j :: 0 <= j < |w.plain| ==> w'.plain[j].closed == w.plain[j].closed
    ensures forall j :: 0 <= j < |w.fallible| ==> w'.fallible[j].closed == w.fallible[j].closed
  {
    match k
    case ChannelSend(c, v, _) =>
      var s := w.plain[c];
      w.(plain := w.plain[c := ChanState(s.closed, MillChannel.Sent(s.closed, s.buffer, v))])
    case FallibleSend(c, v, _) =>
      var s := w.fallible[c];
      w.(fallible := w.fallible[c := ChanState(s.closed, MillChannel.Sent(s.closed, s.buffer, Value(v)))])
    case FallibleSendError(c, e, _) =>
      var s := w.fallible[c];
      w.(fallible := w.fallible[c := ChanState(s.closed, MillChannel.Sent(s.closed, s.buffer, Error(e)))])
    case _ => w
  }

  /** The world after registering every case in order. */
  function RegisterAll<T, E>(w: World<T, E>, cases: seq<Case<T, E>>): (w': World<T, E>)
    requires AllFit(w, cases)
    ensures |w'.plain| == |w.plain| && |w'.fallible| == |w.fallible|
    ensures forall j :: 0 <= j < |w.plain| ==> w'.plain[j].closed == w.plain[j].closed
    ensures forall j :: 0 <= j < |w.fallible| ==> w'.fallible[j].closed == w.fallible[j].closed
    decreases |cases|
  {
    if cases == [] then w
    else
      var n := |cases| - 1;
      assert forall i :: 0 <= i < n ==> cases[..n][i] == cases[i];
      var w0 := RegisterAll(w, cases[..n]);
      RegisterCase(w0, cases[n])
  }

  /** The payloads the send arms put into plain channel `j`, in case order. */
  function ValuesFor<T, E>(cases: seq<Case<T, E>>, j: nat): seq<T>
    decreases |cases|
  {
    if cases == [] then []
    else
      var k := cases[|cases| - 1];
      ValuesFor(cases[..|cases| - 1], j) + (if k.ChannelSend? && k.channel == j then [k.value] else [])
  }

  /** The results the send arms put into fallible channel `j`, in case order. */
  function ResultsFor<T, E>(cases: seq<Case<T, E>>, j: nat): seq<ChannelResult<T, E>>
    decreases |cases|
  {
    if cases == [] then []
    else
      var k := cases[|cases| - 1];
      ResultsFor(cases[..|cases| - 1], j)
        + (if k.FallibleSend? && k.channel == j then [Value(k.value)]
           else if k.FallibleSendError? && k.channel == j then [Error(k.error)]
           else [])
  }

  /** Sending `xs` and then at most one more payload is sending both. */
  lemma SendAllSplit<X>(closed: bool, b: seq<X>, xs: seq<X>, ys: seq<X>)
    requires |ys| <= 1
    ensures (if ys == [] then MillChannel.SendAll(closed, b, xs)
             else MillChannel.Sent(closed, MillChannel.SendAll(closed, b, xs), ys[0]))
         == MillChannel.SendAll(closed, b, xs + ys)
  {
    if closed {
      MillChannel.ClosedIgnoresSends(b, xs);
      MillChannel.ClosedIgnoresSends(b, xs + ys);
    } else {
      MillChannel.SendsAppendInOrder(b, xs);
      MillChannel.SendsAppendInOrder(b, xs + ys);
      assert b + xs + ys == b + (xs + ys);
    }
  }

  /** Registration appends to every open channel the payloads of its send
      arms, in case order, and leaves closed channels alone. */
  lemma {:induction false} RegisterAllBuffers<T, E>(w: World<T, E>, cases: seq<Case<T, E>>)
    requires AllFit(w, cases)
    ensures var w' := RegisterAll(w, cases);
      && (forall j :: 0 <= j < |w.plain| ==>
            w'.plain[j].buffer == MillChannel.SendAll(w.plain[j].closed, w.plain[j].buffer, ValuesFor(cases, j)))
      && (forall j :: 0 <= j < |w.fallible| ==>
            w'.fallible[j].buffer == MillChannel.SendAll(w.fallible[j].closed, w.fallible[j].buffer, ResultsFor(cases, j)))
    decreases |cases|
  {
    if cases != [] {
      var n := |cases| - 1;
      var prefix := cases[..n];
      assert forall i :: 0 <= i < n ==> prefix[i] == cases[i];
      RegisterAllBuffers(w, prefix);
      var w0 := RegisterAll(w, prefix);
      var k := cases[n];
      forall j | 0 <= j < |w.plain|
        ensures RegisterCase(w0, k).plain[j].buffer
             == MillChannel.SendAll(w.plain[j].closed, w.plain[j].buffer, ValuesFor(cases, j))
      {
        var s := w.plain[j];
        var xs := ValuesFor(prefix, j);
        var ys := if k.ChannelSend? && k.channel == j then [k.value] else [];
        SendAllSplit(s.closed, s.buffer, xs, ys);
      }
      forall j | 0 <= j < |w.fallible|
        ensures RegisterCase(w0, k).fallible[j].buffer
             == MillChannel.SendAll(w.fallible[j].closed, w.fallible[j].buffer, ResultsFor(cases, j))
      {
        var s := w.fallible[j];
        var xs := ResultsFor(prefix, j);
        var ys := if k.FallibleSend? && k.channel == j then [Value(k.value)]
                  else if k.FallibleSendError? && k.channel == j then [Error(k.error)]
                  else [];
        SendAllSplit(s.closed, s.buffer, xs, ys);
      }
    }
  }

  /** The registration loop of `select`: each case in order, under its
      position. */
  method Register<T, E>(w: World<T, E>, cases: seq<Case<T, E>>) returns (w': World<T, E>, clauses: seq<Option<Clause>>)
    requires AllFit(w, cases)
    ensures w' == RegisterAll(w, cases)
    ensures |clauses| == |cases|
    ensures forall i :: 0 <= i < |cases| ==> clauses[i] == ClauseFor(w, cases[i], i)
  {
    w' := w;
    clauses := [];
    var index := 0;
    while index < |cases|
      invariant 0 <= index <= |cases| && |clauses| == index
      invariant AllFit(w, cases[..index]) && w' == RegisterAll(w, cases[..index])
      invariant forall i :: 0 <= i < index ==> clauses[i] == ClauseFor(w, cases[i], i)
    {
      var k := cases[index];
      assert cases[..index + 1][..index] == cases[..index];
      assert Fits(w', k);
      var clause := if k.IsReceive() then Some(In(index))
                    else if ClosedOf(w', k) then None
                    else Some(Out(index));
      w' := RegisterCase(w', k);
      clauses := clauses + [clause];
      index := index + 1;
    }
    assert cases[..index] == cases;
  }

  // ---------------------------------------------------------------------
  // Dispatch

  /** A case libmill may pick: a receive only when its channel holds an
      entry or is done (`getValueFromBuffer` traps on an empty buffer of an
      open channel), a send only when its clause was registered. */
  predicate Ready<T, E>(w: World<T, E>, k: Case<T, E>)
    requires Fits(w, k)
  {
    if k.IsReceive() then
      if k.OnFallible() then w.fallible[k.channel].closed || w.fallible[k.channel].buffer != []
      else w.plain[k.channel].closed || w.plain[k.channel].buffer != []
    else !ClosedOf(w, k)
  }

  /** `execute()` of a case: a receive takes from its channel's buffer and
      runs its closure only when a value came out; a send only runs its
      closure, since its payload went into the buffer at registration. */
  function Execute<T, E>(w: World<T, E>, k: Case<T, E>): (r: (World<T, E>, Option<Run<T, E>>))
    requires Fits(w, k) && Ready(w, k)
    ensures !k.IsReceive() ==> r == (w, Some(Ran(k.closure, Nothing)))
    ensures r.1.Some? ==> r.1.value.closure == k.closure
    ensures k.IsReceive() ==>
      (r.1 == None <==>
        ClosedOf(w, k) && (if k.OnFallible() then w.fallible[k.channel].buffer == [] else w.plain[k.channel].buffer == []))
  {
    if !k.IsReceive() then (w, Some(Ran(k.closure, Nothing)))
    else if k.OnFallible() then
      var s := w.fallible[k.channel];
      var (v, rest) := MillChannel.Take(s.closed, s.buffer);
      (w.(fallible := w.fallible[k.channel := ChanState(s.closed, rest)]),
       if v.Some? then Some(Ran(k.closure, GotResult(v.value))) else None)
    else
      var s := w.plain[k.channel];
      var (v, rest) := MillChannel.Take(s.closed, s.buffer);
      (w.(plain := w.plain[k.channel := ChanState(s.closed, rest)]),
       if v.Some? then Some(Ran(k.closure, GotValue(v.value))) else None)
  }

  /** A choice `mill_choose_wait` can return for these cases in the world
      after registration: -1, or the index of a case that is ready. */
  predicate Choosable<T, E>(w: World<T, E>, cases: seq<Case<T, E>>, chosen: int)
    requires AllFit(w, cases)
  {
    -1 <= chosen < |cases| && (chosen >= 0 ==> Ready(RegisterAll(w, cases), cases[chosen]))
  }

  /** One `select`: registration, then -1 runs `otherwise` (when there is
      one) and no case, any other index runs that case alone. */
  function SelectStep<T, E>(w: World<T, E>, cases: seq<Case<T, E>>, otherwise: Option<int>, chosen: int): (r: (World<T, E>, Option<Run<T, E>>))
    requires AllFit(w, cases) && Choosable(w, cases, chosen)
  {
    var registered := RegisterAll(w, cases);
    if chosen == -1 then
      (registered, if otherwise.Some? then Some(Ran(otherwise.value, Nothing)) else None)
    else
      Execute(registered, cases[chosen])
  }

  /** The dispatch rules: -1 touches no case; any other index runs the
      closure of exactly that case, if any closure runs at all; a send case
      always runs its closure. */
  lemma DispatchRuns<T, E>(w: World<T, E>, cases: seq<Case<T, E>>, otherwise: Option<int>, chosen: int)
    requires AllFit(w, cases) && Choosable(w, cases, chosen)
    ensures var (w', run) := SelectStep(w, cases, otherwise, chosen);
      && (chosen == -1 ==> w' == RegisterAll(w, cases) && run == if otherwise.Some? then Some(Ran(otherwise.value, Nothing)) else None)
      && (chosen >= 0 && run.Some? ==> run.value.closure == cases[chosen].closure)
      && (chosen >= 0 && !cases[chosen].IsReceive() ==> run == Some(Ran(cases[chosen].closure, Nothing)))
  {
  }

  /** A receive case chosen on a channel that holds entries gets the oldest
      one, and only that entry leaves the buffer. */
  lemma ReceiveGetsOldest<T, E>(w: World<T, E>, cases: seq<Case<T, E>>, otherwise: Option<int>, chosen: int)
    requires AllFit(w, cases) && Choosable(w, cases, chosen)
    requires chosen >= 0 && cases[chosen].ChannelReceive?
    requires RegisterAll(w, cases).plain[cases[chosen].channel].buffer != []
    ensures var (w', run) := SelectStep(w, cases, otherwise, chosen);
      var j := cases[chosen].channel;
      var b := RegisterAll(w, cases).plain[j].buffer;
      && run == Some(Ran(cases[chosen].closure, GotValue(b[0])))
      && w'.plain[j].buffer == b[1..]
      && w'.fallible == RegisterAll(w, cases).fallible
      && (forall i :: 0 <= i < |w'.plain| && i != j ==> w'.plain[i] == RegisterAll(w, cases).plain[i])
  {
  }

  /** The payload of a send arm goes into the Swift buffer at registration,
      so it stays there even when the wait picks another case or -1. */
  lemma UnchosenSendStaysBuffered<T, E>(w: World<T, E>, j: nat, v: T, f: int, o: int)
    requires j < |w.plain| && !w.plain[j].closed
    ensures var cases := [ChannelSend(j, v, f)];
      && AllFit(w, cases) && Choosable(w, cases, -1)
      && SelectStep(w, cases, Some(o), -1)
         == (w.(plain := w.plain[j := ChanState(false, w.plain[j].buffer + [v])]), Some(Ran(o, Nothing)))
  {
    var cases: seq<Case<T, E>> := [ChannelSend(j, v, f)];
    assert cases[..0] == [];
    assert RegisterAll(w, cases[..0]) == w;
    var s := w.plain[j];
    assert RegisterAll(w, cases) == RegisterCase(w, cases[0]);
    assert RegisterCase(w, cases[0]) == w.(plain := w.plain[j := ChanState(false, s.buffer + [v])]);
  }

  /** `select(_:)`: registration, `mill_choose_otherwise` when there is an
      `otherwise`, the wait (its result is `chosen`), then dispatch. */
  method Select<T, E>(w: World<T, E>, b: Builder<T, E>, chosen: int)
    returns (w': World<T, E>, clauses: seq<Option<Clause>>, withOtherwise: bool, run: Option<Run<T, E>>)
    requires AllFit(w, b.cases) && Choosable(w, b.cases, chosen)
    ensures (w', run) == SelectStep(w, b.cases, b.otherwise, chosen)
    ensures |clauses| == |b.cases| && forall i :: 0 <= i < |b.cases| ==> clauses[i] == ClauseFor(w, b.cases[i], i)
    ensures withOtherwise <==> b.otherwise.Some?
  {
    w', clauses := Register(w, b.cases);
    withOtherwise := b.otherwise != None;
    if chosen == -1 {
      run := if b.otherwise.Some? then Some(Ran(b.otherwise.value, Nothing)) else None;
    } else {
      var (w1, r) := Execute(w', b.cases[chosen]);
      w', run := w1, r;
    }
  }

  // ---------------------------------------------------------------------
  // forSelect

  /** One turn of `forSelect`: the arms `build` adds, the index the wait
      returns, and whether `done` was called during the turn (by `build` or
      by the closure that ran). */
  datatype Turn<T, E> = Turn(arms: seq<Arm<T, E>>, chosen: int, callsDone: bool)

  /** The turn can run in world `w`. */
  predicate TurnOk<T, E>(w: World<T, E>, t: Turn<T, E>)
  {
    && (forall i :: 0 <= i < |t.arms| ==> ArmFits(w, t.arms[i]))
    && var (cases, _) := Build(w, t.arms);
       BuildProperties(w, t.arms);
       Choosable(w, cases, t.chosen)
  }

  /** The world and the closure run after one turn. */
  function TurnStep<T, E>(w: World<T, E>, t: Turn<T, E>): (World<T, E>, Option<Run<T, E>>)
    requires TurnOk(w, t)
  {
    BuildProperties(w, t.arms);
    var (cases, otherwise) := Build(w, t.arms);
    SelectStep(w, cases, otherwise, t.chosen)
  }

  /** The turns run in order up to and including the first that calls
      `done`, each one in the world the previous left. */
  predicate Feasible<T, E>(w: World<T, E>, turns: seq<Turn<T, E>>)
    decreases |turns|
  {
    |turns| > 0 && TurnOk(w, turns[0]) &&
    (turns[0].callsDone || Feasible(TurnStep(w, turns[0]).0, turns[1..]))
  }

  /** The world after the turns up to the first that calls `done`, and the
      closures they ran. */
  function RunTurns<T, E>(w: World<T, E>, turns: seq<Turn<T, E>>): (r: (World<T, E>, seq<Option<Run<T, E>>>))
    requires Feasible(w, turns)
    decreases |turns|
  {
    var (w1, run) := TurnStep(w, turns[0]);
    if turns[0].callsDone then (w1, [run])
    else
      var (w2, runs) := RunTurns(w1, turns[1..]);
      (w2, [run] + runs)
  }

  /** The number of turns before the first that calls `done`. */
  function TurnsBeforeDone<T, E>(turns: seq<Turn<T, E>>): (n: nat)
    decreases |turns|
  {
    if turns == [] || turns[0].callsDone then 0 else 1 + TurnsBeforeDone(turns[1..])
  }

  /** `forSelect` runs exactly the turns up to the first that calls `done`:
      none of the earlier ones called it, and that one did. */
  lemma {:induction false} StopsAtDone<T, E>(w: World<T, E>, turns: seq<Turn<T, E>>)
    requires Feasible(w, turns)
    ensures var n := TurnsBeforeDone(turns);
      && n < |turns| && turns[n].callsDone
      && (forall i :: 0 <= i < n ==> !turns[i].callsDone)
      && |RunTurns(w, turns).1| == n + 1
    decreases |turns|
  {
    if !turns[0].callsDone {
      StopsAtDone(TurnStep(w, turns[0]).0, turns[1..]);
    }
  }

  /** One turn past a turn that does not call `done`. */
  lemma RunTurnsStep<T, E>(w: World<T, E>, turns: seq<Turn<T, E>>)
    requires Feasible(w, turns) && !turns[0].callsDone
    ensures var (w1, run) := TurnStep(w, turns[0]);
      && Feasible(w1, turns[1..])
      && RunTurns(w, turns) == (RunTurns(w1, turns[1..]).0, [run] + RunTurns(w1, turns[1..]).1)
  {
  }

  /** One turn of the loop: a fresh builder handed to `build`, then `select`. */
  method SelectTurn<T, E>(w: World<T, E>, t: Turn<T, E>) returns (w': World<T, E>, run: Option<Run<T, E>>)
    requires TurnOk(w, t)
    ensures (w', run) == TurnStep(w, t)
  {
    BuildProperties(w, t.arms);
    var b := BuildWith(w, t.arms);
    var clauses, withOtherwise;
    w', clauses, withOtherwise, run := Select(w, b, t.chosen);
  }

  /** `forSelect(_:)`: a fresh builder and one select per turn, while `done`
      has not been called. */
  method ForSelect<T, E>(w: World<T, E>, turns: seq<Turn<T, E>>) returns (w': World<T, E>, runs: seq<Option<Run<T, E>>>)
    requires Feasible(w, turns)
    ensures (w', runs) == RunTurns(w, turns)
  {
    var keepRunning := true;
    var n := 0;
    w' := w;
    runs := [];
    ghost var left := turns;
    assert runs + RunTurns(w, turns).1 == RunTurns(w, turns).1;
    while keepRunning
      invariant 0 <= n <= |turns|
      invariant keepRunning ==> n < |turns| && left == turns[n..] && Feasible(w', left)
      invariant keepRunning ==> RunTurns(w, turns) == (RunTurns(w', left).0, runs + RunTurns(w', left).1)
      invariant !keepRunning ==> (w', runs) == RunTurns(w, turns)
      decreases |turns| - n, keepRunning
    {
      var t := turns[n];
      var w1, run := SelectTurn(w', t);
      if t.callsDone {
        keepRunning := false;
      } else {
        RunTurnsStep(w', left);
        assert turns[n..][1..] == turns[n + 1..];
        ghost var later := RunTurns(w1, left[1..]).1;
        assert runs + ([run] + later) == (runs + [run]) + later;
        left := left[1..];
      }
      w' := w1;
      runs := runs + [run];
      n := n + 1;
    }
  }
}
