/** `select` of the SwiftGo generation (SwiftGo/Select.swift).  Unlike the
    later version it filters nothing: every builder call adds one case, each
    case is registered with libmill under its position, and the index
    `go_select_wait` returns (`chosen`) picks the one case whose `call()`
    runs.  A receive case gets the value `go_select_value` hands back
    (`received`).  A closure is named by an integer tag; the arms of one
    select carry values of one type `T`. */
module GoSelect {
  import opened Base
  import GoChannel

  /** `ReceiveCase`, `SendCase` and `TimeoutCase`. */
  datatype Case<T> =
    | ReceiveCase(channel: GoChannel.Channel<T>, closure: int)
    | SendCase(channel: GoChannel.Channel<T>, value: T, closure: int)
    | TimeoutCase(deadline: int, closure: int)

  /** A clause handed to libmill: `go_select_in`, or `go_select_out` with
      the value to send, under an index. */
  datatype Clause<T> = In(index: int) | Out(index: int, value: T)

  datatype Arg<T> = Nothing | GotValue(value: T)

  /** A closure that ran, and its argument. */
  datatype Run<T> = Ran(closure: int, arg: Arg<T>)

  /** One call the `build` closure makes on the builder. */
  datatype Arm<T> =
    | ReceiveFrom(channel: GoChannel.Channel<T>, closure: int)
    | SendValue(value: T, to: GoChannel.Channel<T>, closure: int)
    | Timeout(deadline: int, closure: int)
    | Otherwise(closure: int)

  /** The case an arm adds, if any. */
  function CaseOf<T>(a: Arm<T>): (k: Option<Case<T>>)
    ensures k.None? <==> a.Otherwise?
    ensures k.Some? ==> k.value.closure == a.closure
  {
    match a
    case ReceiveFrom(c, f) => Some(ReceiveCase(c, f))
    case SendValue(v, c, f) => Some(SendCase(c, v, f))
    case Timeout(d, f) => Some(TimeoutCase(d, f))
    case Otherwise(_) => None
  }

  /** The cases and the `otherwise` closure a sequence of builder calls
      leaves. */
  function Build<T>(arms: seq<Arm<T>>): (seq<Case<T>>, Option<int>)
    decreases |arms|
  {
    if arms == [] then ([], None)
    else
      var (cases, otherwise) := Build(arms[..|arms| - 1]);
      var a := arms[|arms| - 1];
      (cases + (if a.Otherwise? then [] else [CaseOf(a).value]),
       if a.Otherwise? then Some(a.closure) else otherwise)
  }

  /** How many of the arms are `otherwise`. */
  function OtherwiseCount<T>(arms: seq<Arm<T>>): (n: nat)
    ensures n <= |arms|
    decreases |arms|
  {
    if arms == [] then 0
    else OtherwiseCount(arms[..|arms| - 1]) + (if arms[|arms| - 1].Otherwise? then 1 else 0)
  }

  /** No arm is dropped: there is one case per arm other than `otherwise`,
      each such arm's case is among them, and the last `otherwise` given
      wins. */
  lemma {:induction false} BuildKeepsEveryArm<T>(arms: seq<Arm<T>>)
    ensures var (cases, otherwise) := Build(arms);
      && |cases| == |arms| - OtherwiseCount(arms)
      && (forall i :: 0 <= i < |arms| && !arms[i].Otherwise? ==>
            exists j :: 0 <= j < |cases| && cases[j] == CaseOf(arms[i]).value)
      && (otherwise.Some? <==> OtherwiseCount(arms) > 0)
      && (otherwise.Some? ==>
            exists i :: 0 <= i < |arms| && arms[i] == Otherwise(otherwise.value) &&
              forall j :: i < j < |arms| ==> !arms[j].Otherwise?)
    decreases |arms|
  {
    if arms != [] {
      var n := |arms| - 1;
      var prefix := arms[..n];
      assert forall i :: 0 <= i < n ==> prefix[i] == arms[i];
      BuildKeepsEveryArm(prefix);
      var (cases, otherwise) := Build(arms);
      var (c0, o0) := Build(prefix);
      forall i | 0 <= i < |arms| && !arms[i].Otherwise?
        ensures exists j :: 0 <= j < |cases| && cases[j] == CaseOf(arms[i]).value
      {
        if i == n {
          assert cases[|cases| - 1] == CaseOf(arms[i]).value;
        } else {
          var j :| 0 <= j < |c0| && c0[j] == CaseOf(prefix[i]).value;
          assert cases[j] == c0[j];
        }
      }
      if !arms[n].Otherwise? && o0.Some? {
        var i :| 0 <= i < n && prefix[i] == Otherwise(o0.value) &&
          forall j :: i < j < n ==> !prefix[j].Otherwise?;
        assert arms[i] == Otherwise(otherwise.value);
      }
      if arms[n].Otherwise? {
        assert arms[n] == Otherwise(otherwise.value);
      }
    }
  }

  /** `SelectCaseBuilder`. */
  class Builder<T> {
    var cases: seq<Case<T>>
    var otherwise: Option<int>

    constructor ()
      ensures cases == [] && otherwise == None
    {
      cases := [];
      otherwise := None;
    }

    /** `receiveFrom(_:closure:)`. */
    method ReceiveFrom(channel: GoChannel.Channel<T>, closure: int)
      modifies this
      ensures cases == old(cases) + [ReceiveCase(channel, closure)] && otherwise == old(otherwise)
    {
      cases := cases + [ReceiveCase(channel, closure)];
    }

    /** `sendValue(_:to:closure:)`. */
    method SendValue(value: T, to: GoChannel.Channel<T>, closure: int)
      modifies this
      ensures cases == old(cases) + [SendCase(to, value, closure)] && otherwise == old(otherwise)
    {
      cases := cases + [SendCase(to, value, closure)];
    }

    /** `timeout(_:closure:)`; the private channel and the coroutine that
        fills it after `deadline` are not modelled. */
    method Timeout(deadline: int, closure: int)
      modifies this
      ensures cases == old(cases) + [TimeoutCase(deadline, closure)] && otherwise == old(otherwise)
    {
      cases := cases + [TimeoutCase(deadline, closure)];
    }

    /** `otherwise(_:)`: replaces any earlier one. */
    method Otherwise(closure: int)
      modifies this
      ensures cases == old(cases) && otherwise == Some(closure)
    {
      otherwise := Some(closure);
    }

    /** One builder call, as `arm` says. */
    method Add(arm: Arm<T>)
      modifies this
      ensures cases == old(cases) + (if arm.Otherwise? then [] else [CaseOf(arm).value])
      ensures otherwise == if arm.Otherwise? then Some(arm.closure) else old(otherwise)
    {
      match arm
      case ReceiveFrom(c, f) => ReceiveFrom(c, f);
      case SendValue(v, c, f) => SendValue(v, c, f);
      case Timeout(d, f) => Timeout(d, f);
      case Otherwise(f) => Otherwise(f);
    }
  }

  /** A fresh builder given `arms` in order ends up holding `Build(arms)`. */
  method BuildWith<T>(arms: seq<Arm<T>>) returns (b: Builder<T>)
    ensures fresh(b) && (b.cases, b.otherwise) == Build(arms)
  {
    b := new Builder();
    var n := 0;
    while n < |arms|
      invariant 0 <= n <= |arms|
      invariant (b.cases, b.otherwise) == Build(arms[..n])
    {
      assert arms[..n + 1][..n] == arms[..n];
      b.Add(arms[n]);
      n := n + 1;
    }
    assert arms[..n] == arms;
  }

  /** The registration loop: a send case registers its value for output, a
      receive or timeout case registers for input, each under its
      position. */
  method Register<T>(cases: seq<Case<T>>) returns (clauses: seq<Clause<T>>)
    ensures |clauses| == |cases|
    ensures forall i :: 0 <= i < |cases| ==> clauses[i].index == i
    ensures forall i :: 0 <= i < |cases| ==> (clauses[i].Out? <==> cases[i].SendCase?)
    ensures forall i :: 0 <= i < |cases| && cases[i].SendCase? ==> clauses[i].value == cases[i].value
  {
    clauses := [];
    var index := 0;
    while index < |cases|
      invariant 0 <= index <= |cases| && |clauses| == index
      invariant forall i :: 0 <= i < index ==> clauses[i].index == i
      invariant forall i :: 0 <= i < index ==> (clauses[i].Out? <==> cases[i].SendCase?)
      invariant forall i :: 0 <= i < index && cases[i].SendCase? ==> clauses[i].value == cases[i].value
    {
      var clause := match cases[index]
        case SendCase(_, v, _) => Out(index, v)
        case _ => In(index);
      clauses := clauses + [clause];
      index := index + 1;
    }
  }

  /** `call()` of a case: a receive case passes on the value selected; the
      others run their closure with nothing. */
  function Call<T>(k: Case<T>, received: T): (r: Run<T>)
    ensures r.closure == k.closure
    ensures r.arg.GotValue? <==> k.ReceiveCase?
    ensures r.arg.GotValue? ==> r.arg.value == received
  {
    match k
    case ReceiveCase(_, f) => Ran(f, GotValue(received))
    case SendCase(_, _, f) => Ran(f, Nothing)
    case TimeoutCase(_, f) => Ran(f, Nothing)
  }

  /** The dispatch after the wait: -1 runs `otherwise` if there is one and no
      case; any other index runs that case's `call()`, exactly once. */
  function Dispatch<T>(cases: seq<Case<T>>, otherwise: Option<int>, chosen: int, received: T): (r: Option<Run<T>>)
    requires -1 <= chosen < |cases|
    ensures chosen == -1 ==> (r.Some? <==> otherwise.Some?)
    ensures chosen == -1 && r.Some? ==> r.value == Ran(otherwise.value, Nothing)
    ensures chosen >= 0 ==> r.Some? && r.value.closure == cases[chosen].closure
    ensures chosen >= 0 ==> (r.value.arg.GotValue? <==> cases[chosen].ReceiveCase?)
  {
    if chosen == -1 then
      if otherwise.Some? then Some(Ran(otherwise.value, Nothing)) else None
    else
      Some(Call(cases[chosen], received))
  }

  /** `select(_:)` once `build` has run: the clauses registered, whether
      `go_select_otherwise` was called, and the closure that ran.  The
      channels' counters are untouched: a select bypasses
      `receive(_:)`/`send()`. */
  method Select<T>(b: Builder<T>, chosen: int, received: T)
    returns (clauses: seq<Clause<T>>, withOtherwise: bool, run: Option<Run<T>>)
    requires -1 <= chosen < |b.cases|
    ensures |clauses| == |b.cases|
    ensures forall i :: 0 <= i < |b.cases| ==> clauses[i].index == i && (clauses[i].Out? <==> b.cases[i].SendCase?)
    ensures withOtherwise <==> b.otherwise.Some?
    ensures run == Dispatch(b.cases, b.otherwise, chosen, received)
  {
    clauses := Register(b.cases);
    withOtherwise := b.otherwise.Some?;
    if chosen == -1 {
      run := if b.otherwise.Some? then Some(Ran(b.otherwise.value, Nothing)) else None;
    } else {
      var pattern := b.cases[chosen];
      run := Some(Call(pattern, received));
    }
  }

  /** `select(_:)` with the builder calls `build` makes. */
  method SelectWith<T>(arms: seq<Arm<T>>, chosen: int, received: T)
    returns (clauses: seq<Clause<T>>, withOtherwise: bool, run: Option<Run<T>>)
    requires -1 <= chosen < |Build(arms).0|
    ensures |clauses| == |Build(arms).0|
    ensures withOtherwise <==> OtherwiseCount(arms) > 0
    ensures run == Dispatch(Build(arms).0, Build(arms).1, chosen, received)
  {
    var b := BuildWith(arms);
    BuildKeepsEveryArm(arms);
    clauses, withOtherwise, run := Select(b, chosen, received);
  }
}
