/** pkg/batcher/instance.go, RunInstancesExecutor.Execute, and the goroutine that calls it. */
module RunInstancesExecutors {
  import opened Wrappers
  import opened BatchKeys
  import opened ResultDelivery

  /** The `chan *BatchResult` of capacity 1 made by CreateInstance. */
  class ResultChannel {
    var buffer: seq<BatchResult>

    constructor ()
      ensures buffer == []
    {
      buffer := [];
    }

    /** A plain send: it may only be reached when it does not block. */
    method Send(result: BatchResult)
      requires |buffer| < CHANNEL_CAPACITY
      modifies this
      ensures buffer == old(buffer) + [result]
    {
      buffer := buffer + [result];
    }

    /** A send in a select with a default case. */
    method TrySend(result: BatchResult)
      modifies this
      ensures buffer == if |old(buffer)| < CHANNEL_CAPACITY then old(buffer) + [result] else old(buffer)
    {
      if |buffer| < CHANNEL_CAPACITY {
        buffer := buffer + [result];
      }
    }
  }

  datatype Waiter = Waiter(request: Request, resultCh: ResultChannel)

  datatype LaunchCall = LaunchCall(request: Request, amount: nat)

  /** A batch is launched from the request of its first item. */
  function LaunchOf(items: seq<Waiter>): LaunchCall
    requires items != []
  {
    LaunchCall(items[0].request, |items|)
  }

  /** ECS: `answers` is an arbitrary response for every call. */
  class EcsClient {
    const answers: nat -> Response
    var calls: seq<LaunchCall>

    constructor (answers: nat -> Response)
      ensures this.answers == answers && calls == []
    {
      this.answers, calls := answers, [];
    }

    method RunInstances(request: Request, amount: nat) returns (response: Response)
      modifies this
      ensures response == answers(|old(calls)|)
      ensures calls == old(calls) + [LaunchCall(request, amount)]
    {
      response := answers(|calls|);
      calls := calls + [LaunchCall(request, amount)];
    }
  }

  ghost function Channels(items: seq<Waiter>): set<ResultChannel> {
    set i | 0 <= i < |items| :: items[i].resultCh
  }

  ghost predicate Separate(items: seq<Waiter>) {
    forall i, j :: 0 <= i < j < |items| ==> items[i].resultCh != items[j].resultCh
  }

  method Execute(client: EcsClient, items: seq<Waiter>) returns (err: Option<string>)
    requires Separate(items)
    requires forall i :: 0 <= i < |items| ==> items[i].resultCh.buffer == []
    modifies client, Channels(items)
    ensures items == [] ==> err.None? && client.calls == old(client.calls)
    ensures items != [] ==>
              && client.calls == old(client.calls) + [LaunchCall(items[0].request, |items|)]
              && err == ExecuteError(client.answers(|old(client.calls)|), |items|)
    ensures forall i :: 0 <= i < |items| ==>
              items[i].resultCh.buffer == [ResultFor(client.answers(|old(client.calls)|), |items|, i)]
    ensures items != [] ==>
              var response := client.answers(|old(client.calls)|);
              match response
              case Refused(message) =>
                && err == Some(message)
                && forall i :: 0 <= i < |items| ==>
                     items[i].resultCh.buffer == [Failure("batch RunInstances failed: " + message)]
              case Instances(ids) =>
                && (err.None? <==> |ids| >= |items|)
                && forall i :: 0 <= i < |items| ==>
                     |items[i].resultCh.buffer| == 1 &&
                     if i < |ids| then items[i].resultCh.buffer[0] == Launched(ids[i])
                     else items[i].resultCh.buffer[0].Failure?
  {
    if |items| == 0 {
      return None;
    }
    var response := client.RunInstances(items[0].request, |items|);
    var n := |items|;
    for i := 0 to n
      invariant client.calls == old(client.calls) + [LaunchCall(items[0].request, n)]
      invariant forall j :: 0 <= j < i ==> items[j].resultCh.buffer == [ResultFor(response, n, j)]
      invariant forall j :: i <= j < n ==> items[j].resultCh.buffer == []
    {
      items[i].resultCh.Send(ResultFor(response, n, i));
    }
    return ExecuteError(response, n);
  }

  /** The goroutine started by flush: after a failed Execute it offers the error to every waiter. */
  method RunBatch(client: EcsClient, items: seq<Waiter>) returns (err: Option<string>)
    requires Separate(items)
    requires forall i :: 0 <= i < |items| ==> items[i].resultCh.buffer == []
    modifies client, Channels(items)
    ensures items != [] ==>
              && client.calls == old(client.calls) + [LaunchCall(items[0].request, |items|)]
              && err == ExecuteError(client.answers(|old(client.calls)|), |items|)
    ensures forall i :: 0 <= i < |items| ==>
              items[i].resultCh.buffer == [ResultFor(client.answers(|old(client.calls)|), |items|, i)]
    ensures items != [] ==>
              var response := client.answers(|old(client.calls)|);
              match response
              case Refused(message) =>
                && err == Some(message)
                && forall i :: 0 <= i < |items| ==>
                     items[i].resultCh.buffer == [Failure("batch RunInstances failed: " + message)]
              case Instances(ids) =>
                && (err.None? <==> |ids| >= |items|)
                && forall i :: 0 <= i < |items| ==>
                     |items[i].resultCh.buffer| == 1 &&
                     if i < |ids| then items[i].resultCh.buffer[0] == Launched(ids[i])
                     else items[i].resultCh.buffer[0].Failure?
  {
    err := Execute(client, items);
    if err.Some? {
      for i := 0 to |items|
        invariant items != [] ==> client.calls == old(client.calls) + [LaunchOf(items)]
        invariant forall j :: 0 <= j < |items| ==>
                    items[j].resultCh.buffer == [ResultFor(client.answers(|old(client.calls)|), |items|, j)]
      {
        items[i].resultCh.TrySend(Failure(err.value));
      }
    }
  }
}
