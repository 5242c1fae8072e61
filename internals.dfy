/**
 * Shared definitions of the emitter plugin: the status of a dispatched action
 * and the construction of action instances for single and batch dispatching.
 *
 * An action class is abstracted to an opaque constructor tag `C`; `new Action(payload)`
 * becomes the value `Instance(ctor, payload)`.
 */
module Internals {

  /** Status of a dispatched action. */
  datatype ActionStatus = Dispatched | Successful | Canceled | Errored {

    /** The string value each status stands for at run time. */
    function Value(): string
    {
      match this
      case Dispatched => "DISPATCHED"
      case Successful => "SUCCESSFUL"
      case Canceled => "CANCELED"
      case Errored => "ERRORED"
    }
  }

  /** Every status there is. */
  const AllStatuses: set<ActionStatus> := {Dispatched, Successful, Canceled, Errored}

  /** There are exactly four statuses and their string values are pairwise distinct. */
  lemma ActionStatusesAreFour(a: ActionStatus, b: ActionStatus)
    ensures a in AllStatuses
    ensures |AllStatuses| == 4
    ensures a.Value() == b.Value() <==> a == b
  {
    assert AllStatuses == {Dispatched} + {Successful} + {Canceled} + {Errored};
  }

  /** One constructed action: the action class applied to a payload. */
  datatype Instance<C, P> = Instance(ctor: C, payload: P)

  /** Instances for single dispatching: every constructor applied to the one payload. */
  function ConstructEventsForSingleDispatching<C, P>(ctors: seq<C>, payload: P): (events: seq<Instance<C, P>>)
    ensures |events| == |ctors|
    ensures forall i :: 0 <= i < |ctors| ==> events[i] == Instance(ctors[i], payload)
  {
    if ctors == [] then []
    else [Instance(ctors[0], payload)] + ConstructEventsForSingleDispatching(ctors[1..], payload)
  }

  /** The instances one constructor yields for every payload, in payload order. */
  function Row<C, P>(ctor: C, payloads: seq<P>): (events: seq<Instance<C, P>>)
    ensures |events| == |payloads|
    ensures forall j :: 0 <= j < |payloads| ==> events[j] == Instance(ctor, payloads[j])
    decreases |payloads|
  {
    if payloads == [] then []
    else Row(ctor, payloads[..|payloads| - 1]) + [Instance(ctor, payloads[|payloads| - 1])]
  }

  /**
   * Reference definition of batch dispatching: the cross product of constructors and
   * payloads, constructor-major and payload-minor.
   */
  function CrossProduct<C, P>(ctors: seq<C>, payloads: seq<P>): (events: seq<Instance<C, P>>)
    ensures |events| == |ctors| * |payloads|
    decreases |ctors|
  {
    if ctors == [] then []
    else
      var init := CrossProduct(ctors[..|ctors| - 1], payloads);
      assert |init| + |payloads| == |ctors| * |payloads| by {
        assert |init| == (|ctors| - 1) * |payloads|;
      }
      init + Row(ctors[|ctors| - 1], payloads)
  }

  /** Element `i * |payloads| + j` of the cross product is constructor `i` applied to payload `j`. */
  lemma {:induction false} CrossProductAt<C, P>(ctors: seq<C>, payloads: seq<P>, i: nat, j: nat)
    requires i < |ctors| && j < |payloads|
    ensures i * |payloads| + j < |CrossProduct(ctors, payloads)|
    ensures CrossProduct(ctors, payloads)[i * |payloads| + j] == Instance(ctors[i], payloads[j])
  {
    var init := ctors[..|ctors| - 1];
    var front := CrossProduct(init, payloads);
    if i < |ctors| - 1 {
      CrossProductAt(init, payloads, i, j);
      assert init[i] == ctors[i];
    } else {
      assert |front| == i * |payloads|;
    }
  }

  /** Every element of the cross product is some constructor applied to some payload, at its place. */
  lemma {:induction false} CrossProductOnly<C, P>(ctors: seq<C>, payloads: seq<P>, k: nat)
    requires k < |CrossProduct(ctors, payloads)|
    ensures exists i, j :: 0 <= i < |ctors| && 0 <= j < |payloads| && k == i * |payloads| + j
                        && CrossProduct(ctors, payloads)[k] == Instance(ctors[i], payloads[j])
  {
    var init := ctors[..|ctors| - 1];
    var front := CrossProduct(init, payloads);
    if k < |front| {
      CrossProductOnly(init, payloads, k);
      var i, j :| 0 <= i < |init| && 0 <= j < |payloads| && k == i * |payloads| + j
                && front[k] == Instance(init[i], payloads[j]);
      assert init[i] == ctors[i];
    } else {
      var i, j := |ctors| - 1, k - |front|;
      assert |front| == i * |payloads|;
      assert CrossProduct(ctors, payloads)[k] == Instance(ctors[i], payloads[j]);
    }
  }

  /** Batch dispatching yields nothing exactly when there are no constructors or no payloads. */
  lemma CrossProductEmpty<C, P>(ctors: seq<C>, payloads: seq<P>)
    ensures CrossProduct(ctors, payloads) == [] <==> ctors == [] || payloads == []
  {
    if ctors != [] && payloads != [] {
      CrossProductAt(ctors, payloads, 0, 0);
    }
  }

  /** Batch dispatching of one payload is single dispatching of that payload. */
  lemma ManyWithOnePayload<C, P>(ctors: seq<C>, payload: P)
    ensures CrossProduct(ctors, [payload]) == ConstructEventsForSingleDispatching(ctors, payload)
  {
    var many := CrossProduct(ctors, [payload]);
    forall i | 0 <= i < |ctors|
      ensures many[i] == Instance(ctors[i], payload)
    {
      CrossProductAt(ctors, [payload], i, 0);
    }
  }

  /** Instances for batch dispatching, built by two nested loops that push onto one list. */
  method ConstructEventsForManyDispatching<C, P>(ctors: seq<C>, payloads: seq<P>) returns (events: seq<Instance<C, P>>)
    ensures events == CrossProduct(ctors, payloads)
  {
    events := [];
    var i := 0;
    while i < |ctors|
      invariant 0 <= i <= |ctors|
      invariant events == CrossProduct(ctors[..i], payloads)
    {
      var j := 0;
      while j < |payloads|
        invariant 0 <= j <= |payloads|
        invariant events == CrossProduct(ctors[..i], payloads) + Row(ctors[i], payloads[..j])
      {
        assert payloads[..j + 1][..j] == payloads[..j];
        events := events + [Instance(ctors[i], payloads[j])];
        j := j + 1;
      }
      assert payloads[..j] == payloads;
      assert ctors[..i + 1][..i] == ctors[..i];
      i := i + 1;
    }
    assert ctors[..i] == ctors;
  }
}
