/**
 * Dense-vector in-ports and out-ports. An out-port may feed several
 * channels and an in-port may listen on several; an in-port adds up, element
 * by element, one message from each of its channels.
 */
module IoPorts {
  import opened Wrappers
  import opened Vectors
  import opened Transforms
  import opened Channels

  /** The fold `reduce(lambda acc, q: acc and q.probe(), queues, acc)`. */
  function AllPending(acc: bool, qs: seq<seq<Vec>>): bool
    decreases |qs|
  {
    if qs == [] then acc else AllPending(acc && qs[0] != [], qs[1..])
  }

  /** The fold is true exactly when its start value is true and every queue holds a message. */
  lemma {:induction false} AllPendingIff(acc: bool, qs: seq<seq<Vec>>)
    ensures AllPending(acc, qs) <==> acc && forall i :: 0 <= i < |qs| ==> qs[i] != []
    decreases |qs|
  {
    if qs != [] {
      AllPendingIff(acc && qs[0] != [], qs[1..]);
      assert forall i :: 1 <= i < |qs| ==> qs[i] == qs[1..][i - 1];
    }
  }

  /** The first message of every queue. */
  function Heads(qs: seq<seq<Vec>>): (hs: seq<Vec>)
    requires forall i :: 0 <= i < |qs| ==> qs[i] != []
    ensures |hs| == |qs| && forall i :: 0 <= i < |qs| ==> hs[i] == qs[i][0]
  {
    seq(|qs|, i requires 0 <= i < |qs| && qs[i] != [] => qs[i][0])
  }

  /** Every vector passed through the chain `fs`. */
  function MapApply(fs: seq<Transform>, vs: seq<Vec>): (ws: seq<Vec>)
    ensures |ws| == |vs| && forall i :: 0 <= i < |vs| ==> ws[i] == ApplyAll(fs, vs[i])
  {
    seq(|vs|, i requires 0 <= i < |vs| => ApplyAll(fs, vs[i]))
  }

  /** `PyInPortVectorDense`: an in-port listening on a list of channels. */
  class InPortVectorDense {
    const cspPorts: seq<Channel>
    const shape: Shape
    const transformFuncs: Option<seq<Transform>>

    /** Each connection is a channel of its own. */
    ghost predicate Valid()
    {
      forall i, j :: 0 <= i < j < |cspPorts| ==> cspPorts[i] != cspPorts[j]
    }

    constructor (cspPorts: seq<Channel>, shape: Shape, transformFuncs: Option<seq<Transform>>)
      ensures this.cspPorts == cspPorts && this.shape == shape && this.transformFuncs == transformFuncs
    {
      this.cspPorts := cspPorts;
      this.shape := shape;
      this.transformFuncs := transformFuncs;
    }

    /** The pending messages of every connected channel, in connection order. */
    function Queues(): (qs: seq<seq<Vec>>)
      reads cspPorts
      ensures |qs| == |cspPorts| && forall i :: 0 <= i < |cspPorts| ==> qs[i] == cspPorts[i].queue
    {
      seq(|cspPorts|, i reads cspPorts requires 0 <= i < |cspPorts| => cspPorts[i].queue)
    }

    /** `probe`: true exactly when every connected channel has a message; true when none is connected. */
    function Probe(): (r: bool)
      reads cspPorts
      ensures r <==> forall i :: 0 <= i < |cspPorts| ==> cspPorts[i].queue != []
    {
      AllPendingIff(true, Queues());
      AllPending(true, Queues())
    }

    /** Every connected channel holds a message (so no receive blocks) of the port's size. */
    predicate HeadsFit()
      reads cspPorts
    {
      forall i :: 0 <= i < |cspPorts| ==> cspPorts[i].queue != [] && |cspPorts[i].queue[0]| == Size(shape)
    }

    /** Every connected channel holds a message whose transform has the port's size. */
    predicate TransformedHeadsFit()
      reads cspPorts
    {
      forall i :: 0 <= i < |cspPorts| ==>
        cspPorts[i].queue != [] && |ApplyAll(Funcs(transformFuncs), cspPorts[i].queue[0])| == Size(shape)
    }

    /** `peek`: the element-wise sum of the heads, untransformed, started from zeros of the port shape. */
    function Peek(): (r: Vec)
      reads cspPorts
      requires HeadsFit()
      ensures |r| == Size(shape)
      ensures forall k :: 0 <= k < |r| ==> r[k] == ColumnSum(Heads(Queues()), k)
    {
      FanInAt(Zeros(shape), Heads(Queues()));
      FanIn(Zeros(shape), Heads(Queues()))
    }

    /**
     * `recv`: takes one message off every connected channel, transforms each
     * and returns their element-wise sum, started from zeros of the port shape.
     */
    method Recv() returns (r: Vec)
      requires Valid() && TransformedHeadsFit()
      modifies cspPorts
      ensures forall i :: 0 <= i < |cspPorts| ==> cspPorts[i].queue == old(cspPorts[i].queue)[1..]
      ensures r == FanIn(Zeros(shape), MapApply(Funcs(transformFuncs), Heads(old(Queues()))))
      ensures |r| == Size(shape)
      ensures forall k :: 0 <= k < |r| ==> r[k] == ColumnSum(MapApply(Funcs(transformFuncs), Heads(old(Queues()))), k)
      ensures Funcs(transformFuncs) == [] ==> r == old(Peek())
    {
      ghost var qs := Queues();
      ghost var hs := MapApply(Funcs(transformFuncs), Heads(qs));
      FanInAt(Zeros(shape), hs);
      r := Zeros(shape);
      for i := 0 to |cspPorts|
        invariant |r| == Size(shape)
        invariant FanIn(r, hs[i..]) == FanIn(Zeros(shape), hs)
        invariant forall j :: 0 <= j < i ==> cspPorts[j].queue == qs[j][1..]
        invariant forall j :: i <= j < |cspPorts| ==> cspPorts[j].queue == qs[j]
      {
        var h := cspPorts[i].Recv();
        var t := TransformInOrder(transformFuncs, h);
        assert t == hs[i];
        assert hs[i..][1..] == hs[i + 1..];
        r := Add(r, t);
      }
      assert hs[|cspPorts|..] == [];
      if Funcs(transformFuncs) == [] {
        assert hs == Heads(qs);
      }
    }
  }

  /** `PyOutPortVectorDense`: an out-port feeding a list of channels. */
  class OutPortVectorDense {
    const cspPorts: seq<Channel>
    const shape: Shape

    ghost predicate Valid()
    {
      forall i, j :: 0 <= i < j < |cspPorts| ==> cspPorts[i] != cspPorts[j]
    }

    constructor (cspPorts: seq<Channel>, shape: Shape)
      ensures this.cspPorts == cspPorts && this.shape == shape
    {
      this.cspPorts := cspPorts;
      this.shape := shape;
    }

    /** `send`: the same data goes to the tail of every connected channel. */
    method Send(d: Vec)
      requires Valid()
      modifies cspPorts
      ensures forall i :: 0 <= i < |cspPorts| ==> cspPorts[i].queue == old(cspPorts[i].queue) + [d]
    {
      for i := 0 to |cspPorts|
        invariant forall j :: 0 <= j < i ==> cspPorts[j].queue == old(cspPorts[j].queue) + [d]
        invariant forall j :: i <= j < |cspPorts| ==> cspPorts[j].queue == old(cspPorts[j].queue)
      {
        cspPorts[i].Send(d);
      }
    }
  }

  /**
   * The probe test of the port test suite: two out-ports, each on a channel
   * of its own, send to one in-port listening on both channels.
   */
  method ProbeScenario(shape: Shape, data: Vec) returns (before: bool, after: bool)
    requires |data| == Size(shape)
    ensures before && !after
  {
    var channel1 := new Channel(shape);
    var channel2 := new Channel(shape);
    var sender1 := new OutPortVectorDense([channel1], shape);
    var sender2 := new OutPortVectorDense([channel2], shape);
    var receiver := new InPortVectorDense([channel1, channel2], shape, None);
    assert channel1.queue == [] && channel2.queue == [];
    assert sender1.cspPorts == [channel1] && sender2.cspPorts == [channel2];
    sender1.Send(data);
    assert sender1.cspPorts[0].queue == [] + [data];
    sender2.Send(data);
    assert sender2.cspPorts[0].queue == [] + [data];
    before, after := ProbeRecvProbe(receiver, channel1, channel2, data);
  }

  /**
   * The second half of the probe test: with one message on each of the two
   * channels, the probe is true; one receive empties both, and the probe is
   * false again.
   */
  method ProbeRecvProbe(receiver: InPortVectorDense, channel1: Channel, channel2: Channel, data: Vec)
    returns (before: bool, after: bool)
    requires receiver.cspPorts == [channel1, channel2] && channel1 != channel2
    requires receiver.transformFuncs == None && |data| == Size(receiver.shape)
    requires channel1.queue == [data] && channel2.queue == [data]
    modifies channel1, channel2
    ensures before && !after
    ensures channel1.queue == [] && channel2.queue == []
  {
    before := receiver.Probe();
    var sum := receiver.Recv();
    after := receiver.Probe();
  }
}
