/** Coroutines of the libdill generation (Sources/Venice/Coroutine.swift):
    the errno switches of `init`, `yield` and `wakeUp`, the wrapper around a
    coroutine's body, and the bookkeeping of `Coroutine.Group`.  The file
    throws the cases of the older error enum (Sources/Error.swift). */
module Coroutines {
  import opened Base
  import opened LegacyErrors
  import Time
  import Handles

  /** The switch of `init` on the errno left by a failed `co`. */
  function InitError(errno: int): (e: VeniceError)
    ensures e == CanceledCoroutine <==> errno == ECANCELED
    ensures e == OutOfMemory <==> errno == ENOMEM
    ensures e == UnexpectedError <==> errno != ECANCELED && errno != ENOMEM
  {
    if errno == ECANCELED then CanceledCoroutine
    else if errno == ENOMEM then OutOfMemory
    else UnexpectedError
  }

  /** The switch `yield` and `wakeUp` share on the errno of a failed
      `yield`/`msleep`. */
  function SuspendError(errno: int): (e: VeniceError)
    ensures e == CanceledCoroutine <==> errno == ECANCELED
    ensures e == UnexpectedError <==> errno != ECANCELED
  {
    if errno == ECANCELED then CanceledCoroutine else UnexpectedError
  }

  /** `Coroutine.yield()`: the error it throws, if any, once libdill's
      `yield` reported `rc`. */
  function Yield(rc: CResult): (thrown: Option<VeniceError>)
    ensures thrown == None <==> rc == Success
    ensures rc.Failed? ==> thrown == Some(SuspendError(rc.errno))
  {
    if rc == Success then None else Some(SuspendError(rc.errno))
  }

  /** `Coroutine.wakeUp(_:)`: the error it throws, if any, once `msleep`
      until `deadline` reported `rc`. */
  function WakeUp(deadline: Time.Deadline, rc: CResult): (thrown: Option<VeniceError>)
    ensures thrown == None <==> rc == Success
    ensures rc.Failed? ==> thrown == Some(SuspendError(rc.errno))
  {
    if rc == Success then None else Some(SuspendError(rc.errno))
  }

  /** An error a coroutine body may throw: one of Venice's own, or any other. */
  datatype BodyError<X> = Venice(error: VeniceError) | Foreign(other: X)

  /** The closure `init` hands to `co`: it runs the body, returns quietly
      when the body threw `canceledCoroutine`, and reports (prints) any other
      error.  The result is the error reported, if any; the closure itself
      cannot throw, so nothing reaches libdill. */
  function RunBody<X>(thrown: Option<BodyError<X>>): (reported: Option<BodyError<X>>)
    ensures reported == None <==> thrown == None || thrown == Some(Venice(CanceledCoroutine))
    ensures reported != None ==> reported == thrown
  {
    match thrown
    case None => None
    case Some(Venice(CanceledCoroutine)) => None
    case Some(e) => Some(e)
  }

  /** A launched coroutine, known by its libdill handle. */
  class Coroutine {
    const handle: int

    constructor (handle: int)
      ensures this.handle == handle
    {
      this.handle := handle;
    }

    /** `init(body:)`: `rc` is what `co` reported and `handle` the handle it
        returned on success. */
    static method Init(rc: CResult, handle: int) returns (c: Coroutine?, error: Option<VeniceError>)
      ensures rc == Success ==> c != null && fresh(c) && c.handle == handle && error == None
      ensures rc.Failed? ==> c == null && error == Some(InitError(rc.errno))
    {
      if rc.Failed? {
        return null, Some(InitError(rc.errno));
      }
      c := new Coroutine(handle);
      error := None;
    }

    /** `cancel()`: `hclose` on the handle, whatever it reports. */
    method Cancel(rt: Handles.Runtime)
      requires handle in rt.states
      modifies rt
      ensures rt.states == old(rt.states)[handle := Handles.Closed]
    {
      var _ := rt.Hclose(handle);
    }
  }

  /** The id that follows `id` in `getNextID`: one more, and 0 after `Int.max`. */
  function NextId(id: int): int
  {
    if id == INT_MAX then 0 else id + 1
  }

  /** The id `getNextID` hands out after `n` earlier calls starting at `start`. */
  function IdAfter(start: int, n: nat): int
    decreases n
  {
    if n == 0 then start else NextId(IdAfter(start, n - 1))
  }

  /** Counting on from `start` wraps to 0 exactly once `Int.max` is passed. */
  lemma {:induction false} IdAfterValue(start: int, n: nat)
    requires 0 <= start <= INT_MAX && n <= INT_MAX
    ensures IdAfter(start, n) == if start + n <= INT_MAX then start + n else start + n - (INT_MAX + 1)
    ensures 0 <= IdAfter(start, n) <= INT_MAX
    decreases n
  {
    if n > 0 {
      IdAfterValue(start, n - 1);
    }
  }

  /** Ids handed out are pairwise distinct until the counter has gone all
      the way round: any `INT_MAX + 1` consecutive calls return different ids. */
  lemma IdsDistinctUntilWrap(start: int, i: nat, j: nat)
    requires 0 <= start <= INT_MAX && i < j <= INT_MAX
    ensures IdAfter(start, i) != IdAfter(start, j)
  {
    IdAfterValue(start, i);
    IdAfterValue(start, j);
  }

  /** The static `Group.id`, shared by all groups. */
  class IdCounter {
    var id: int

    ghost predicate Valid()
      reads this
    {
      0 <= id <= INT_MAX
    }

    constructor ()
      ensures Valid() && id == 0
    {
      id := 0;
    }

    /** `getNextID()`: returns the current id and advances the counter,
        wrapping from `Int.max` to 0. */
    method GetNextID() returns (r: int)
      requires Valid()
      modifies this
      ensures Valid()
      ensures r == old(id) && id == NextId(old(id))
    {
      r := id;
      if id == INT_MAX {
        id := -1;
      }
      id := id + 1;
    }
  }

  /** What `removeFinishedCoroutines` leaves of `coroutines`: every entry
      whose id is not among the finished ones. */
  function Prune<C>(coroutines: map<int, C>, finished: set<int>): (live: map<int, C>)
    ensures live.Keys == coroutines.Keys - finished
    ensures forall id :: id in live ==> live[id] == coroutines[id]
  {
    map id | id in coroutines && id !in finished :: coroutines[id]
  }

  /** `Coroutine.Group`. */
  class Group {
    var coroutines: map<int, Coroutine>
    var finished: set<int>
    /** The ids whose coroutine this group has canceled, in call order
        (bookkeeping of the model only). */
    ghost var Canceled: seq<int>

    constructor (minimumCapacity: int)
      ensures coroutines == map[] && finished == {} && Canceled == []
    {
      coroutines := map[];
      finished := {};
      Canceled := [];
    }

    /** `removeFinishedCoroutines()`. */
    method RemoveFinished()
      modifies this
      ensures coroutines == Prune(old(coroutines), old(finished))
      ensures finished == {} && Canceled == old(Canceled)
    {
      var ids := finished;
      while ids != {}
        invariant ids <= finished
        invariant coroutines == Prune(old(coroutines), finished - ids)
        invariant finished == old(finished) && Canceled == old(Canceled)
        decreases ids
      {
        NonEmptyHasMember(ids);
        var id :| id in ids;
        coroutines := coroutines - {id};
        ids := ids - {id};
      }
      finished := {};
    }

    /** The deferred block of the body `addCoroutine` launches: records that
        the coroutine with this id has finished. */
    method BodyFinished(id: int)
      modifies this
      ensures finished == old(finished) + {id}
      ensures coroutines == old(coroutines) && Canceled == old(Canceled)
    {
      finished := finished + {id};
    }

    /** `addCoroutine(body:)`: prunes, draws a fresh id, and launches the
        coroutine (`rc` and `handle` are what `co` reported).  When the body
        already ran to completion inside `co` (`finishedAtLaunch`), its
        deferred block has recorded the id as finished and the coroutine is
        not stored; otherwise it is stored under the id. */
    method AddCoroutine(ids: IdCounter, rc: CResult, handle: int, finishedAtLaunch: bool)
      returns (c: Coroutine?, error: Option<VeniceError>, id: int)
      requires ids.Valid()
      modifies this, ids
      ensures ids.Valid() && id == old(ids.id) && ids.id == NextId(old(ids.id))
      ensures rc.Failed? ==> c == null && error == Some(InitError(rc.errno))
      ensures rc.Failed? ==> coroutines == Prune(old(coroutines), old(finished)) && finished == {}
      ensures rc == Success ==> c != null && fresh(c) && c.handle == handle && error == None
      ensures rc == Success && finishedAtLaunch ==>
        coroutines == Prune(old(coroutines), old(finished)) && finished == {id}
      ensures rc == Success && !finishedAtLaunch ==>
        coroutines == Prune(old(coroutines), old(finished))[id := c] && finished == {}
      ensures Canceled == old(Canceled)
    {
      RemoveFinished();
      id := ids.GetNextID();
      c, error := Coroutine.Init(rc, handle);
      if c == null {
        return;
      }
      if finishedAtLaunch {
        BodyFinished(id);
      } else {
        coroutines := coroutines[id := c];
      }
    }

    /** One turn of the loop in `cancel()`: cancels the coroutine stored
        under `id` and, deferred, removes it from the group. */
    method CancelOne(id: int, rt: Handles.Runtime)
      requires id in coroutines && coroutines[id].handle in rt.states
      modifies this, rt
      ensures coroutines == old(coroutines) - {id}
      ensures Canceled == old(Canceled) + [id] && finished == old(finished)
      ensures rt.states == old(rt.states)[old(coroutines[id]).handle := Handles.Closed]
    {
      coroutines[id].Cancel(rt);
      coroutines := coroutines - {id};
      Canceled := Canceled + [id];
    }

    /** The loop of `cancel()`: cancels every stored coroutine once and
        removes it.  Swift walks the dictionary in an unspecified order; so
        does this loop. */
    method CancelAll(rt: Handles.Runtime)
      requires forall id :: id in coroutines ==> coroutines[id].handle in rt.states
      modifies this, rt
      ensures coroutines == map[] && finished == old(finished)
      ensures |old(Canceled)| <= |Canceled| && Canceled[..|old(Canceled)|] == old(Canceled)
      ensures var log := Canceled[|old(Canceled)|..];
        && Distinct(log)
        && (forall id :: id in log <==> id in old(coroutines))
      ensures forall id :: id in old(coroutines) ==>
        old(coroutines)[id].handle in rt.states && rt.states[old(coroutines)[id].handle] == Handles.Closed
      ensures rt.states.Keys == old(rt.states).Keys
    {
      ghost var live := coroutines;
      ghost var log: seq<int> := [];
      var pending := coroutines.Keys;
      while pending != {}
        invariant coroutines.Keys == pending && pending <= live.Keys
        invariant forall id :: id in coroutines ==> coroutines[id] == live[id]
        invariant Canceled == old(Canceled) + log && Distinct(log)
        invariant forall x :: x in log <==> x in live && x !in pending
        invariant forall id :: id in live ==> live[id].handle in rt.states
        invariant forall id :: id in live && id !in pending ==> rt.states[live[id].handle] == Handles.Closed
        invariant rt.states.Keys == old(rt.states).Keys && finished == old(finished)
        decreases pending
      {
        NonEmptyHasMember(pending);
        var id :| id in pending;
        DistinctAppend(log, id);
        CancelOne(id, rt);
        pending := pending - {id};
        log := log + [id];
      }
      assert Canceled[|old(Canceled)|..] == log;
    }

    /** `cancel()`: prunes, then cancels every remaining coroutine once and
        removes it, leaving the group empty. */
    method Cancel(rt: Handles.Runtime)
      requires forall id :: id in coroutines ==> coroutines[id].handle in rt.states
      modifies this, rt
      ensures coroutines == map[] && finished == {}
      ensures |old(Canceled)| <= |Canceled| && Canceled[..|old(Canceled)|] == old(Canceled)
      ensures var live := Prune(old(coroutines), old(finished));
        var log := Canceled[|old(Canceled)|..];
        && Distinct(log)
        && (forall id :: id in log <==> id in live)
        && (forall id :: id in live ==> live[id].handle in rt.states && rt.states[live[id].handle] == Handles.Closed)
      ensures rt.states.Keys == old(rt.states).Keys
    {
      RemoveFinished();
      CancelAll(rt);
    }
  }

  /** `getNextID` returns `Int.max` once and then starts again at 0. */
  lemma WrapsAtIntMax()
    ensures NextId(INT_MAX) == 0 && IdAfter(INT_MAX, 1) == 0
    ensures forall id :: 0 <= id < INT_MAX ==> NextId(id) == id + 1
  {
  }
}
