/**
 * Ref-ports and var-ports. A ref-port reaches a variable of another process
 * through a var-port over two channels: requests travel from the ref-port to
 * the var-port, replies back. A request is a header message filled with a
 * command code, GET or SET; a SET header is followed by the new value.
 */
module RefVarPorts {
  import opened Wrappers
  import opened Vectors
  import opened Transforms
  import opened Channels

  /** `VarPortCmd.GET`: ask for the variable's value. */
  const GET: int := 0
  /** `VarPortCmd.SET`: overwrite the variable with the message that follows. */
  const SET: int := 1

  /** A header: a message of the channel's shape with every element set to the command. */
  function Header(shape: Shape, cmd: int): (r: Vec)
    ensures |r| == Size(shape) && forall i :: 0 <= i < |r| ==> r[i] == cmd
  {
    Fill(Size(shape), cmd)
  }

  /**
   * The two commands have distinct codes, so on a channel of non-empty
   * shape the first element of a header tells a read from a write.
   */
  lemma HeaderCarriesCommand(shape: Shape)
    requires Size(shape) > 0
    ensures Header(shape, GET)[0] == GET && Header(shape, SET)[0] == SET
    ensures Header(shape, GET) != Header(shape, SET)
  {
  }

  /** The messages `write(d)` puts on the request channel. */
  function WriteRequest(shape: Shape, d: Vec): seq<Vec>
  {
    [Header(shape, SET), d]
  }

  /** The message `read()` puts on the request channel. */
  function ReadRequest(shape: Shape): seq<Vec>
  {
    [Header(shape, GET)]
  }

  /** Why a service round fails. */
  datatype ServiceError =
    | WrongCommand(cmd: int)  // the `ValueError` for a command that is neither GET nor SET
    | EmptyHeader             // the header has no first element to read the command from
    | UnknownVar(name: string) // the process model has no variable of that name to reply with

  /** The two queues between a ref-port and a var-port. */
  datatype Link = Link(requests: seq<Vec>, replies: seq<Vec>)

  /** State after one service round, and whether it raised. */
  datatype ServiceResult = ServiceResult(link: Link, vars: map<string, Vec>, outcome: Outcome<ServiceError>)

  /**
   * A SET header at the head of the requests is followed by its payload; a
   * service round would otherwise block in its second receive.
   */
  predicate PayloadArrived(requests: seq<Vec>)
  {
    requests != [] && requests[0] != [] && requests[0][0] == SET ==> |requests| >= 2
  }

  /**
   * One call of `service` on a connected var-port whose variable is `name`
   * and whose chain is `fs`: nothing happens without a request; otherwise the
   * header is consumed and its first element decides.
   */
  function ServiceStep(l: Link, vars: map<string, Vec>, name: string, fs: seq<Transform>): (r: ServiceResult)
    requires PayloadArrived(l.requests)
    ensures r.vars - {name} == vars - {name}
    ensures r.outcome.Fail? ==> r.vars == vars && r.link.replies == l.replies
    ensures l.requests == [] <==> r == ServiceResult(l, vars, Pass)
    ensures l.requests != [] ==> exists k :: 1 <= k <= |l.requests| && r.link.requests == l.requests[k..]
    ensures r.link.replies == l.replies || (r.vars == vars && exists v :: r.link.replies == l.replies + [v])
  {
    if l.requests == [] then ServiceResult(l, vars, Pass)
    else
      var header, rest := l.requests[0], l.requests[1..];
      if |header| == 0 then ServiceResult(Link(rest, l.replies), vars, Fail(EmptyHeader))
      else if header[0] == SET then
        ServiceResult(Link(rest[1..], l.replies), vars[name := ApplyAll(fs, rest[0])], Pass)
      else if header[0] == GET then
        if name in vars then ServiceResult(Link(rest, l.replies + [vars[name]]), vars, Pass)
        else ServiceResult(Link(rest, l.replies), vars, Fail(UnknownVar(name)))
      else ServiceResult(Link(rest, l.replies), vars, Fail(WrongCommand(header[0])))
  }

  /** A write followed by one service round sets the variable to the transformed payload and consumes both messages. */
  lemma WriteThenService(shape: Shape, d: Vec, later: seq<Vec>, replies: seq<Vec>, vars: map<string, Vec>, name: string, fs: seq<Transform>)
    requires Size(shape) > 0
    ensures PayloadArrived(WriteRequest(shape, d) + later)
    ensures ServiceStep(Link(WriteRequest(shape, d) + later, replies), vars, name, fs)
         == ServiceResult(Link(later, replies), vars[name := ApplyAll(fs, d)], Pass)
  {
    var reqs := WriteRequest(shape, d) + later;
    assert reqs[0] == Header(shape, SET) && reqs[1..][0] == d && reqs[1..][1..] == later;
  }

  /** A read request followed by one service round replies with the variable's value and changes no variable. */
  lemma ReadThenService(shape: Shape, later: seq<Vec>, replies: seq<Vec>, vars: map<string, Vec>, name: string, fs: seq<Transform>)
    requires Size(shape) > 0 && name in vars
    ensures PayloadArrived(ReadRequest(shape) + later)
    ensures ServiceStep(Link(ReadRequest(shape) + later, replies), vars, name, fs)
         == ServiceResult(Link(later, replies + [vars[name]]), vars, Pass)
  {
    var reqs := ReadRequest(shape) + later;
    assert reqs[0] == Header(shape, GET) && reqs[1..] == later;
  }

  /** A header whose first element is neither GET nor SET raises and changes nothing but the consumed header. */
  lemma ServiceRejectsUnknownCommand(header: Vec, later: seq<Vec>, replies: seq<Vec>, vars: map<string, Vec>, name: string, fs: seq<Transform>)
    requires header != [] && header[0] != GET && header[0] != SET
    ensures PayloadArrived([header] + later)
    ensures ServiceStep(Link([header] + later, replies), vars, name, fs)
         == ServiceResult(Link(later, replies), vars, Fail(WrongCommand(header[0])))
  {
    assert ([header] + later)[1..] == later;
  }

  /** A request on a channel of zero-size shape has no command element, so the round fails. */
  lemma ServiceOnZeroSizeHeader(shape: Shape, d: Vec, replies: seq<Vec>, vars: map<string, Vec>, name: string, fs: seq<Transform>)
    requires Size(shape) == 0
    ensures ServiceStep(Link(WriteRequest(shape, d), replies), vars, name, fs)
         == ServiceResult(Link([d], replies), vars, Fail(EmptyHeader))
  {
    assert WriteRequest(shape, d)[1..] == [d];
  }

  /**
   * The whole protocol on an idle link: write `d`, service, request a read,
   * service. The variable then holds the var-port transform of `d`, that
   * value is the one reply waiting for the ref-port, and no request is left.
   */
  lemma {:induction false} WriteReadRoundTrip(shape: Shape, d: Vec, vars: map<string, Vec>, name: string, varFs: seq<Transform>)
    requires Size(shape) > 0
    ensures var s1 := ServiceStep(Link(WriteRequest(shape, d), []), vars, name, varFs);
            PayloadArrived(s1.link.requests + ReadRequest(shape))
            && var s2 := ServiceStep(Link(s1.link.requests + ReadRequest(shape), s1.link.replies), s1.vars, name, varFs);
            s2.link == Link([], [ApplyAll(varFs, d)])
            && s2.vars == vars[name := ApplyAll(varFs, d)]
            && s2.outcome == Pass
  {
    WriteThenService(shape, d, [], [], vars, name, varFs);
    assert WriteRequest(shape, d) + [] == WriteRequest(shape, d);
    var vars' := vars[name := ApplyAll(varFs, d)];
    ReadThenService(shape, [], [], vars', name, varFs);
    assert [] + ReadRequest(shape) == ReadRequest(shape) + [];
  }

  /** The variables of a process model, by name. */
  class ProcessModel {
    var vars: map<string, Vec>

    constructor (vars: map<string, Vec>)
      ensures this.vars == vars
    {
      this.vars := vars;
    }
  }

  /** `PyRefPortVectorDense`: requests go out on the send port, replies come back on the receive port. */
  class RefPortVectorDense {
    const cspSendPort: Channel?
    const cspRecvPort: Channel?
    const shape: Shape
    const transformFuncs: Option<seq<Transform>>

    /** When connected, the two directions are two channels. */
    ghost predicate Valid()
    {
      cspSendPort != null && cspRecvPort != null ==> cspSendPort != cspRecvPort
    }

    constructor (cspSendPort: Channel?, cspRecvPort: Channel?, shape: Shape, transformFuncs: Option<seq<Transform>>)
      ensures this.cspSendPort == cspSendPort && this.cspRecvPort == cspRecvPort
      ensures this.shape == shape && this.transformFuncs == transformFuncs
    {
      this.cspSendPort := cspSendPort;
      this.cspRecvPort := cspRecvPort;
      this.shape := shape;
      this.transformFuncs := transformFuncs;
    }

    /** `csp_ports`: both ports when both exist, otherwise none (the port is not connected). */
    function CspPorts(): (r: seq<Channel>)
      ensures r != [] <==> cspSendPort != null && cspRecvPort != null
      ensures r != [] ==> |r| == 2 && r[0] == cspSendPort && r[1] == cspRecvPort
    {
      if cspSendPort != null && cspRecvPort != null then [cspSendPort, cspRecvPort] else []
    }

    /**
     * `read`: when connected, sends a GET header and returns the reply,
     * transformed back to front; when not, returns zeros of the port shape
     * and touches no channel.
     */
    method Read() returns (r: Vec)
      requires Valid()
      requires cspSendPort != null && cspRecvPort != null ==> cspRecvPort.queue != []
      modifies cspSendPort, cspRecvPort
      ensures cspSendPort != null && cspRecvPort != null ==>
        && cspSendPort.queue == old(cspSendPort.queue) + ReadRequest(cspSendPort.shape)
        && cspRecvPort.queue == old(cspRecvPort.queue)[1..]
        && r == ApplyAll(Reversed(Funcs(transformFuncs)), old(cspRecvPort.queue)[0])
      ensures cspSendPort == null || cspRecvPort == null ==>
        && r == Zeros(shape)
        && (cspSendPort != null ==> cspSendPort.queue == old(cspSendPort.queue))
        && (cspRecvPort != null ==> cspRecvPort.queue == old(cspRecvPort.queue))
    {
      if cspSendPort != null && cspRecvPort != null {
        RequestRead();
        r := CollectReply();
      } else {
        r := Zeros(shape);
      }
    }

    /** The first half of a connected `read`: the GET header goes out on the send port. */
    method RequestRead()
      requires cspSendPort != null
      modifies cspSendPort
      ensures cspSendPort.queue == old(cspSendPort.queue) + ReadRequest(cspSendPort.shape)
    {
      cspSendPort.Send(Header(cspSendPort.shape, GET));
    }

    /** The second half of a connected `read`: the oldest reply, passed through the chain back to front. */
    method CollectReply() returns (r: Vec)
      requires cspRecvPort != null && cspRecvPort.queue != []
      modifies cspRecvPort
      ensures cspRecvPort.queue == old(cspRecvPort.queue)[1..]
      ensures r == ApplyAll(Reversed(Funcs(transformFuncs)), old(cspRecvPort.queue)[0])
    {
      var reply := cspRecvPort.Recv();
      r := TransformReversed(transformFuncs, reply);
    }

    /** `write`: when a send port exists, sends a SET header and then the data. */
    method Write(d: Vec)
      modifies cspSendPort
      ensures cspSendPort != null ==> cspSendPort.queue == old(cspSendPort.queue) + WriteRequest(cspSendPort.shape, d)
    {
      if cspSendPort != null {
        cspSendPort.Send(Header(cspSendPort.shape, SET));
        cspSendPort.Send(d);
      }
    }

    /** `wait`: a read whose value is dropped. */
    method Wait()
      requires Valid()
      requires cspSendPort != null && cspRecvPort != null ==> cspRecvPort.queue != []
      modifies cspSendPort, cspRecvPort
      ensures cspSendPort != null && cspRecvPort != null ==>
        && cspSendPort.queue == old(cspSendPort.queue) + ReadRequest(cspSendPort.shape)
        && cspRecvPort.queue == old(cspRecvPort.queue)[1..]
      ensures cspSendPort == null || cspRecvPort == null ==>
        && (cspSendPort != null ==> cspSendPort.queue == old(cspSendPort.queue))
        && (cspRecvPort != null ==> cspRecvPort.queue == old(cspRecvPort.queue))
    {
      var _ := Read();
    }
  }

  /** `PyVarPortVectorDense`: serves the requests of a ref-port on one variable of its process model. */
  class VarPortVectorDense {
    const varName: string
    const cspSendPort: Channel?
    const cspRecvPort: Channel?
    const processModel: ProcessModel
    const shape: Shape
    const transformFuncs: Option<seq<Transform>>

    ghost predicate Valid()
    {
      cspSendPort != null && cspRecvPort != null ==> cspSendPort != cspRecvPort
    }

    constructor (varName: string, cspSendPort: Channel?, cspRecvPort: Channel?, processModel: ProcessModel,
                 shape: Shape, transformFuncs: Option<seq<Transform>>)
      ensures this.varName == varName && this.processModel == processModel
      ensures this.cspSendPort == cspSendPort && this.cspRecvPort == cspRecvPort
      ensures this.shape == shape && this.transformFuncs == transformFuncs
    {
      this.varName := varName;
      this.cspSendPort := cspSendPort;
      this.cspRecvPort := cspRecvPort;
      this.processModel := processModel;
      this.shape := shape;
      this.transformFuncs := transformFuncs;
    }

    /** `csp_ports`: both ports when both exist, otherwise none. */
    function CspPorts(): (r: seq<Channel>)
      ensures r != [] <==> cspSendPort != null && cspRecvPort != null
      ensures r != [] ==> |r| == 2 && r[0] == cspSendPort && r[1] == cspRecvPort
    {
      if cspSendPort != null && cspRecvPort != null then [cspSendPort, cspRecvPort] else []
    }

    /**
     * `service`: when connected and a request is waiting, performs one
     * service round; otherwise does nothing.
     */
    method Service() returns (outcome: Outcome<ServiceError>)
      requires Valid()
      requires cspSendPort != null && cspRecvPort != null ==> PayloadArrived(cspRecvPort.queue)
      modifies cspSendPort, cspRecvPort, processModel
      ensures cspSendPort != null && cspRecvPort != null ==>
        var s := ServiceStep(Link(old(cspRecvPort.queue), old(cspSendPort.queue)), old(processModel.vars),
                             varName, Funcs(transformFuncs));
        && cspRecvPort.queue == s.link.requests
        && cspSendPort.queue == s.link.replies
        && processModel.vars == s.vars
        && outcome == s.outcome
      ensures cspSendPort == null || cspRecvPort == null ==>
        && outcome == Pass
        && processModel.vars == old(processModel.vars)
        && (cspSendPort != null ==> cspSendPort.queue == old(cspSendPort.queue))
        && (cspRecvPort != null ==> cspRecvPort.queue == old(cspRecvPort.queue))
    {
      outcome := Pass;
      if cspSendPort != null && cspRecvPort != null {
        if cspRecvPort.Probe() {
          var header := cspRecvPort.Recv();
          if |header| == 0 {
            outcome := Fail(EmptyHeader);
          } else if header[0] == SET {
            var payload := cspRecvPort.Recv();
            var data := TransformInOrder(transformFuncs, payload);
            processModel.vars := processModel.vars[varName := data];
          } else if header[0] == GET {
            if varName in processModel.vars {
              cspSendPort.Send(processModel.vars[varName]);
            } else {
              outcome := Fail(UnknownVar(varName));
            }
          } else {
            outcome := Fail(WrongCommand(header[0]));
          }
        }
      }
    }
  }

  /**
   * A ref-port and a var-port wired to each other over an idle request
   * channel: `write(d)` followed by one `service` sets the variable to the
   * var-port transform of `d`, leaves every other variable alone and leaves
   * the request channel idle again; the round raises nothing.
   */
  method WriteServiceRoundTrip(ref: RefPortVectorDense, port: VarPortVectorDense, d: Vec)
    returns (outcome: Outcome<ServiceError>)
    requires ref.cspSendPort != null && ref.cspSendPort == port.cspRecvPort
    requires port.cspSendPort != null && port.Valid()
    requires ref.cspSendPort.queue == [] && Size(ref.cspSendPort.shape) > 0
    modifies ref.cspSendPort, port.cspSendPort, port.processModel
    ensures port.processModel.vars == old(port.processModel.vars)[port.varName := ApplyAll(Funcs(port.transformFuncs), d)]
    ensures ref.cspSendPort.queue == [] && port.cspSendPort.queue == old(port.cspSendPort.queue)
    ensures outcome == Pass
  {
    ref.Write(d);
    WriteThenService(ref.cspSendPort.shape, d, [], port.cspSendPort.queue, port.processModel.vars,
                     port.varName, Funcs(port.transformFuncs));
    assert ref.cspSendPort.queue == WriteRequest(ref.cspSendPort.shape, d) + [];
    outcome := port.Service();
  }

  /**
   * A ref-port and a var-port wired to each other over an idle link:
   * the read request, one `service` of the var-port, and the collected reply
   * is the variable's current value passed through the ref-port's chain back
   * to front. No variable changes, the round raises nothing and both
   * channels end idle.
   */
  method ReadServiceRoundTrip(ref: RefPortVectorDense, port: VarPortVectorDense)
    returns (r: Vec, outcome: Outcome<ServiceError>)
    requires ref.cspSendPort != null && ref.cspRecvPort != null && ref.Valid()
    requires ref.cspSendPort == port.cspRecvPort && ref.cspRecvPort == port.cspSendPort
    requires ref.cspSendPort.queue == [] && ref.cspRecvPort.queue == [] && Size(ref.cspSendPort.shape) > 0
    requires port.varName in port.processModel.vars
    modifies ref.cspSendPort, ref.cspRecvPort, port.processModel
    ensures r == ApplyAll(Reversed(Funcs(ref.transformFuncs)), old(port.processModel.vars)[port.varName])
    ensures port.processModel.vars == old(port.processModel.vars)
    ensures ref.cspSendPort.queue == [] && ref.cspRecvPort.queue == []
    ensures outcome == Pass
  {
    ref.RequestRead();
    ReadThenService(ref.cspSendPort.shape, [], [], port.processModel.vars, port.varName, Funcs(port.transformFuncs));
    assert ref.cspSendPort.queue == ReadRequest(ref.cspSendPort.shape) + [];
    outcome := port.Service();
    r := ref.CollectReply();
  }

  /** The data formats a port class can be implemented for. */
  datatype Encoding = VectorDense | VectorSparse | ScalarDense | ScalarSparse

  datatype PortKind = RefPortKind | VarPortKind

  /** A port implementation class, such as `PyRefPortVectorDense`. */
  datatype PortClass = PortClass(kind: PortKind, encoding: Encoding)

  /** `RefVarTypeMapping.mapping`: each ref-port class to the var-port class of the same format. */
  const RefVarMapping: map<PortClass, PortClass> := map[
    PortClass(RefPortKind, VectorDense) := PortClass(VarPortKind, VectorDense),
    PortClass(RefPortKind, VectorSparse) := PortClass(VarPortKind, VectorSparse),
    PortClass(RefPortKind, ScalarDense) := PortClass(VarPortKind, ScalarDense),
    PortClass(RefPortKind, ScalarSparse) := PortClass(VarPortKind, ScalarSparse)]

  /**
   * `RefVarTypeMapping.get`: the compatible var-port class of a ref-port
   * class; any other key is missing from the dictionary (`KeyError`).
   */
  function RefVarTypeMappingGet(refPort: PortClass): (r: Option<PortClass>)
    ensures r.Some? <==> refPort.kind == RefPortKind
    ensures r.Some? ==> r.value == PortClass(VarPortKind, refPort.encoding)
  {
    RefPortsAreMapped(refPort);
    if refPort in RefVarMapping then Some(RefVarMapping[refPort]) else None
  }

  /** Every ref-port class, and nothing else, is a key of the mapping, and keeps its format. */
  lemma RefPortsAreMapped(p: PortClass)
    ensures p in RefVarMapping <==> p.kind == RefPortKind
    ensures p in RefVarMapping ==> RefVarMapping[p] == PortClass(VarPortKind, p.encoding)
  {
    if p.kind == RefPortKind {
      match p.encoding
      case VectorDense =>
      case VectorSparse =>
      case ScalarDense =>
      case ScalarSparse =>
    }
  }
}
