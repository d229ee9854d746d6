/** frontend/src/shared/hooks/http-hook.js: the request helper's state, a
    loading flag, the last error message and the registry of abort
    controllers of requests still in flight. `fetch` and `response.json()`
    are not modelled: how they ended is an input. */
module HttpHook {
  import opened Wrappers
  import Sequences

  /** A parsed JSON response body. */
  type ResponseData = map<string, string>

  /** `responseData.message`; `new Error(undefined).message` is empty. */
  function Message(data: ResponseData): string {
    if "message" in data then data["message"] else ""
  }

  /** How the awaited `fetch` and `response.json()` ended: with a body and the
      response's `ok` flag, or by throwing (network failure, abort, a body that
      is not JSON). */
  datatype Fetched = Responded(ok: bool, data: ResponseData) | Threw(message: string)

  /** What `sendRequest` resolves with or rejects with. */
  datatype Result = Success(data: ResponseData) | Failure(message: string)

  /** The filter's test: `reqCtrl => reqCtrl !== ctrl`. */
  function Other(ctrl: nat): nat -> bool {
    (c: nat) => c != ctrl
  }

  /** The registry without one controller. */
  function Without(active: seq<nat>, ctrl: nat): (r: seq<nat>)
    // that controller is gone and every other one stays
    ensures forall c :: c in r <==> c in active && c != ctrl
  {
    var r := Sequences.Filter(active, Other(ctrl));
    forall c ensures c in r <==> c in active && c != ctrl {
      Sequences.FilterMembers(active, Other(ctrl), c);
    }
    r
  }

  /** The controllers that stay are in their original order. */
  lemma WithoutKeepsOrder(active: seq<nat>, ctrl: nat)
    ensures Sequences.IsSubsequence(Without(active, ctrl), active)
  {
    Sequences.FilterIsSubsequence(active, Other(ctrl));
  }

  class HttpClient {
    var isLoading: bool
    var error: Option<string>
    /** `activeHttpRequests.current`. */
    var active: seq<nat>
    /** The controllers whose `abort()` has been called. */
    var aborted: set<nat>
    /** Controllers are numbered in order of creation; this is the next one. */
    var nextController: nat

    ghost predicate Valid()
      reads this
    {
      forall c :: c in active ==> c < nextController
    }

    constructor ()
      ensures Valid()
      ensures !isLoading && error == None && active == [] && aborted == {}
    {
      isLoading, error, active, aborted, nextController := false, None, [], {}, 0;
    }

    /** The start of `sendRequest`: loading, and a new controller at the end of
        the registry. */
    method Send() returns (ctrl: nat)
      requires Valid()
      modifies this
      ensures Valid()
      ensures isLoading && ctrl !in old(active) && active == old(active) + [ctrl]
      ensures error == old(error) && aborted == old(aborted)
    {
      ctrl := nextController;
      nextController := nextController + 1;
      isLoading := true;
      active := active + [ctrl];
    }

    /** The rest of `sendRequest` once the request for `ctrl` settled. Its
        controller leaves the registry only when a body was read. */
    method Settle(ctrl: nat, fetched: Fetched) returns (r: Result)
      requires Valid()
      modifies this
      ensures Valid()
      ensures !isLoading && aborted == old(aborted)
      ensures r == match fetched
        case Threw(m) => Failure(m)
        case Responded(ok, data) => if ok then Success(data) else Failure(Message(data))
      ensures fetched.Responded? ==> active == Without(old(active), ctrl)
      ensures fetched.Threw? ==> active == old(active)
      ensures r.Failure? ==> error == Some(r.message)
      ensures r.Success? ==> error == old(error)
    {
      match fetched {
        case Threw(m) =>
          r := Failure(m);
        case Responded(ok, data) =>
          active := Without(active, ctrl);
          r := if ok then Success(data) else Failure(Message(data));
      }
      if r.Failure? {
        error := Some(r.message);
      }
      isLoading := false;
    }

    /** `clearError`. */
    method ClearError()
      modifies this
      ensures error == None
      ensures isLoading == old(isLoading) && active == old(active) && aborted == old(aborted)
      ensures nextController == old(nextController)
    {
      error := None;
    }

    /** The cleanup on unmount: `abort()` on every controller in the
        registry, in order. */
    method Unmount()
      requires Valid()
      modifies this
      ensures Valid()
      ensures aborted == old(aborted) + set c | c in old(active)
      ensures active == old(active) && isLoading == old(isLoading) && error == old(error)
    {
      var i := 0;
      while i < |active|
        invariant 0 <= i <= |active|
        invariant active == old(active) && Valid()
        invariant isLoading == old(isLoading) && error == old(error)
        invariant aborted == old(aborted) + set c | c in active[..i]
      {
        assert active[..i + 1] == active[..i] + [active[i]];
        aborted := aborted + {active[i]};
        i := i + 1;
      }
      assert active[..i] == active;
    }
  }
}
