# Lava Python ports and sigma-delta processes, modelled in Dafny

Lava processes talk over CSP channels. A process model reaches a channel
through a Python port:

- an **out-port** sends one vector to every channel it feeds;
- an **in-port** probes, peeks at or receives from every channel it listens
  on, and adds the messages up element by element;
- a **ref-port** reads or writes a variable of another process. It sends a
  command header (`VarPortCmd.GET` = 0 or `VarPortCmd.SET` = 1) over a
  request channel and receives replies on a second channel;
- a **var-port** serves those requests on one variable of its own process model.

Virtual ports attach a chain of transformation functions to a port.
In-ports and var-ports apply the chain front to back. Ref-ports apply it back
to front.

The project also models the constructors of the sigma-delta processes
`Sigma`, `Delta` and `SigmaDelta`, with their defaults and fixed-point
scaling. It also models the test helper that reads a boolean switch from the
environment.

Files, one module each:

- `wrappers.dfy`: `Option`, `Result` and `Outcome`, the error paths.
- `vectors.dfy`: dense vectors, shapes and sizes, zeros, element-wise
  addition, and the fan-in fold an in-port uses to add up its messages.
- `transforms.dfy`: transformation chains, applied in list order or in
  reverse, with the loops of the `_transform` methods.
- `channels.dfy`: a channel as a FIFO queue object. Both ends share it.
- `io_ports.dfy`: dense in-ports and out-ports as classes over a list of
  channels. Also the probe scenario of the port tests.
- `ref_var_ports.dfy`: dense ref-ports and var-ports, and the request/reply
  protocol between them. Each service round is specified by a pure step
  function. Also `VarPortCmd` and `RefVarTypeMapping`.
- `sdn_process.dfy`: `ACTIVATION_MODE` and the three process constructors.
- `test_utils.dfy`: `Utils.get_bool_env_setting` over an environment map.

How the model represents the source:

- A vector is a flat `seq<int>` whose length is the product of its shape.
- A channel is a `Channel` object holding the queue of messages sent and not
  yet received. A blocking `recv` becomes the precondition that a message is
  waiting.
- The state the ports change in place (channel queues, the process model's
  variables) lives in class fields. `modifies` clauses name it.
- Python exceptions become `Failure`/`Fail` values:
  - the `ValueError` for a wrong command;
  - the `IndexError` for a header with no elements;
  - the `AttributeError` for a variable the process model lacks;
  - the `KeyError` of the port mapping;
  - the `ValueError` of a negative shift;
  - the `TypeError` of a missing threshold.

## Model

| member | source | states |
|---|---|---|
| IoPorts.AllPendingIff | src/lava/magma/core/model/py/ports.py:190-194 | the `and`-fold over the channels is true iff its start value is true and every queue holds a message |
| IoPorts.InPortVectorDense.Probe | src/lava/magma/core/model/py/ports.py:179-194 | true exactly when every connected channel has a pending message; vacuously true with no channel |
| IoPorts.InPortVectorDense.Queues | src/lava/magma/core/model/py/ports.py:92-101 | the connected channels' queues, in connection order |
| IoPorts.InPortVectorDense.Peek | src/lava/magma/core/model/py/ports.py:237-252 | the result has the port's size and each element is the sum, over all channels, of that element of the channel's head; no transform; queues untouched |
| IoPorts.InPortVectorDense.Recv | src/lava/magma/core/model/py/ports.py:218-235 | removes exactly one message from each channel; returns the zeros-started fold of the transformed heads, element k being the sum of element k over the transformed heads; without transforms it equals what `peek` returned before |
| IoPorts.Heads | src/lava/magma/core/model/py/ports.py:231-235 | the message each channel's receive returns, channel by channel |
| IoPorts.MapApply | src/lava/magma/core/model/py/ports.py:232 | every received message passed through the in-port's chain |
| IoPorts.OutPortVectorDense.Send | src/lava/magma/core/model/py/ports.py:349-360 | the same data is appended to the tail of every connected channel, and to nothing else |
| IoPorts.ProbeRecvProbe | tests/lava/magma/core/model/py/test_ports.py:76-88 | with one message on each of two channels the probe is true; after one receive both channels are empty and the probe is false |
| IoPorts.ProbeScenario | tests/lava/magma/core/model/py/test_ports.py:40-88 | two out-ports on two fresh channels each send the same data to one in-port listening on both; the probe is then true, and false after one receive |
| Vectors.FanInAt | src/lava/magma/core/model/py/ports.py:231-235 | the fan-in fold keeps the size of its start value and adds, at every position, the sum of that position over all vectors |
| Vectors.FanIn | src/lava/magma/core/model/py/ports.py:231-235 | the `ft.reduce` adding each vector to the accumulator keeps the accumulator's size |
| Vectors.FanInSingle | src/lava/magma/core/model/py/ports.py:231-235 | a port with one channel and no transform receives exactly the message sent |
| Vectors.FanInSwap | src/lava/magma/core/model/py/ports.py:231-235 | the fan-in is independent of the order of the channels: swapping two neighbours leaves it unchanged |
| Vectors.Fill | src/lava/magma/core/model/py/ports.py:572 | a vector of the given size with every element equal to the constant (`np.ones(shape) * cmd`) |
| Vectors.Zeros | src/lava/magma/core/model/py/ports.py:234 | a vector of the shape's size whose every element is 0 |
| Vectors.Add | src/lava/magma/core/model/py/ports.py:232 | element-wise sum of two vectors of equal size |
| Transforms.TransformInOrder | src/lava/magma/core/model/py/ports.py:196-213 | the loop leaves the data passed through the chain front to back; with no chain (`None` or empty) the data is returned unchanged |
| Transforms.TransformReversed | src/lava/magma/core/model/py/ports.py:540-557 | the loop over `reversed(...)` leaves the data passed through the reversed chain; with no chain the data is unchanged |
| Transforms.ApplyAll | src/lava/magma/core/model/py/ports.py:210-212 | an empty chain is the identity and a one-function chain is that function |
| Transforms.Reversed | src/lava/magma/core/model/py/ports.py:555 | the chain in reverse order: same length, position i holding the function at position n-1-i |
| Transforms.ApplyAllAppend | src/lava/magma/core/model/py/ports.py:211-212 | applying a concatenated chain is applying the first part and then the second |
| Transforms.InOrderAppliesLastOutermost | src/lava/magma/core/model/py/ports.py:211-212 | in list order the function appended last is applied last |
| Transforms.ReversedAppliesFirstOutermost | src/lava/magma/core/model/py/ports.py:555-556 | in reversed order the function at the front of the list is applied last |
| Transforms.ReversedTwice | src/lava/magma/core/model/py/ports.py:555 | reversing a chain twice gives the chain back |
| Transforms.ReversedOfCons | src/lava/magma/core/model/py/ports.py:555 | reversing a chain with a new first function puts that function at the end |
| Channels.Channel.Send | src/lava/magma/core/model/py/ports.py:359-360 | a message sent is appended to the tail of the channel's queue |
| Channels.Channel.Recv | src/lava/magma/core/model/py/ports.py:575 | a receive returns the oldest message and removes exactly it |
| Channels.Channel.Probe | src/lava/magma/core/model/py/ports.py:775 | true exactly when a message is waiting on the channel |
| RefVarPorts.RefPortVectorDense.CspPorts | src/lava/magma/core/model/py/ports.py:474-487 | both CSP ports, send then receive, when both exist; the empty list iff either is missing |
| RefVarPorts.VarPortVectorDense.CspPorts | src/lava/magma/core/model/py/ports.py:718-731 | both CSP ports, send then receive, when both exist; the empty list iff either is missing |
| RefVarPorts.RefPortVectorDense.Read | src/lava/magma/core/model/py/ports.py:562-579 | connected: appends one GET header of the send channel's shape, consumes one reply, returns it through the reversed chain; otherwise returns zeros of the port shape and changes no channel |
| RefVarPorts.RefPortVectorDense.RequestRead | src/lava/magma/core/model/py/ports.py:572-573 | the request half of a connected read: exactly one GET header of the send channel's shape is appended to the send channel |
| RefVarPorts.RefPortVectorDense.CollectReply | src/lava/magma/core/model/py/ports.py:575 | the collect half of a connected read: the oldest reply is removed and returned through the chain back to front |
| RefVarPorts.RefPortVectorDense.Write | src/lava/magma/core/model/py/ports.py:581-593 | with a send port, appends a SET header of the send channel's shape followed by the data; without one, nothing |
| RefVarPorts.RefPortVectorDense.Wait | src/lava/magma/core/model/py/ports.py:522-538 | has exactly the channel effect of a read: one GET request sent, one reply consumed |
| RefVarPorts.Header | src/lava/magma/core/model/py/ports.py:591 | a header has the send channel's size and every element equal to the command code |
| RefVarPorts.HeaderCarriesCommand | src/lava/magma/core/model/py/ports.py:390-394 | on a channel of non-empty shape a header's first element is its command code, so GET and SET headers differ |
| RefVarPorts.ProcessModel.constructor | src/lava/magma/core/model/py/ports.py:782-785 | the process model's variables, by name, as `setattr`/`getattr` reach them |
| RefVarPorts.ServiceStep | src/lava/magma/core/model/py/ports.py:765-788 | one service round: no request means no change; otherwise at least the header is consumed; only the served variable can change; a failure changes no variable and sends no reply; a round either sets the variable or appends at most one reply |
| RefVarPorts.VarPortVectorDense.Service | src/lava/magma/core/model/py/ports.py:765-788 | connected: the channel queues, the process model's variables and the outcome are those of one service round on the old state; not connected: nothing changes |
| RefVarPorts.WriteThenService | src/lava/magma/core/model/py/ports.py:781-783 | a write followed by one service round sets the variable to the var-port's transform of the data and consumes exactly the two messages of the write |
| RefVarPorts.ReadThenService | src/lava/magma/core/model/py/ports.py:784-786 | a read request followed by one service round replies with the variable's value and changes no variable |
| RefVarPorts.ServiceRejectsUnknownCommand | src/lava/magma/core/model/py/ports.py:787-788 | a header whose first element is neither GET nor SET fails with that command, consuming only the header |
| RefVarPorts.ServiceOnZeroSizeHeader | src/lava/magma/core/model/py/ports.py:775-778 | a header of a zero-size shape has no command element; the round fails and leaves the payload queued |
| RefVarPorts.WriteReadRoundTrip | src/lava/magma/core/model/py/ports.py:562-593 | write, service, read request, service on an idle link: both rounds pass, the variable holds the var-port transform of the data, that value is the single reply waiting for the ref-port, and no request is left |
| RefVarPorts.WriteServiceRoundTrip | src/lava/magma/core/model/py/ports.py:581-593 | the two port objects wired together: `write` then `service` raises nothing, sets only the served variable to the transformed data, sends no reply and leaves the request channel idle |
| RefVarPorts.ReadServiceRoundTrip | src/lava/magma/core/model/py/ports.py:571-575 | the two port objects wired together over an idle link: read request, one `service`, collect: the result is the variable's current value through the ref-port's chain back to front; no variable changes, the round raises nothing, both channels end idle |
| RefVarPorts.RefVarTypeMappingGet | src/lava/magma/core/model/py/ports.py:842-880 | defined exactly for ref-port classes, and maps each to the var-port class of the same data format |
| RefVarPorts.RefPortsAreMapped | src/lava/magma/core/model/py/ports.py:858-862 | the mapping's keys are exactly the four ref-port classes and each value keeps its key's format |
| SdnProcess.FromCode | src/lava/proc/sdn/process.py:13-19 | only 0 and 1 name a member, and the member found has that value |
| SdnProcess.CodesUnique | src/lava/proc/sdn/process.py:13-19 | the enumeration is unique: equal values mean the same member, and each member's value leads back to it |
| SdnProcess.NewSigma | src/lava/proc/sdn/process.py:35-47 | shape defaults to `(1,)`; ports and the sigma state take the process shape; sigma starts at 0 |
| SdnProcess.ScaledThreshold | src/lava/proc/sdn/process.py:93 | the threshold times `2^(wgt_exp + state_exp)`; a negative exponent sum fails with the shift error, otherwise a missing threshold fails with the missing-threshold error |
| SdnProcess.Pow2 | src/lava/proc/sdn/process.py:93 | `1 << n` for a non-negative shift count: at least 1, and even for a positive count (its product law is `Pow2Add`) |
| SdnProcess.NewDelta | src/lava/proc/sdn/process.py:83-107 | fails iff the exponent sum is negative (shift error) or, failing that, `vth` is missing (missing-threshold error); otherwise defaults applied, scaled threshold, sigma/act/residue/error zero of the process shape, exponents and flag of shape `(1,)` |
| SdnProcess.NewSigmaDelta | src/lava/proc/sdn/process.py:152-180 | as `Delta`, plus the bias scaled by the same factor with the process shape, and the activation mode defaulting to ReLU |
| SdnProcess.Pow2Add | src/lava/proc/sdn/process.py:163-164 | `1 << (a + b)` equals `(1 << a) * (1 << b)` |
| SdnProcess.ThresholdScalingIsExact | src/lava/proc/sdn/process.py:93 | the stored threshold is an exact multiple of the scale and dividing by it recovers `vth` |
| SdnProcess.ThresholdScalesInTwoSteps | src/lava/proc/sdn/process.py:90-93 | for non-negative exponents the scaling is weight scaling followed by state scaling |
| SdnProcess.SigmaDeltaExtendsDelta | src/lava/proc/sdn/process.py:157-180 | `SigmaDelta` fails exactly when `Delta` does, with the same error, and otherwise holds the same state as `Delta` and the same sigma as `Sigma` |
| SdnProcess.SigmaDeltaDefaults | src/lava/proc/sdn/process.py:157-164 | with only a threshold: shape `(1,)`, unscaled threshold, zero bias, zero exponents, no cumulative error, ReLU |
| TestUtils.EnvGet | tests/lava/test_utils/utils.py:18 | the variable's value when it is set, and `None` otherwise |
| TestUtils.GetBoolEnvSetting | tests/lava/test_utils/utils.py:18-22 | true iff the variable is set and equal to `"1"`; so an unset variable and any other value (`"0"`, `"true"`, `""`) give false |
| TestUtils.UnsetIsOff | tests/lava/test_utils/utils.py:18-20 | an unset variable gives false; once set, true exactly for `"1"` |
| TestUtils.OnlyTheNamedVariableMatters | tests/lava/test_utils/utils.py:18 | setting or removing any other variable does not change the answer |

## Left out

- Numpy broadcasting, dtypes and multi-dimensional arrays are not modelled. Vectors are flat integer sequences, added only when their lengths are equal. A transform that changes the size of a message is allowed, and `recv` requires transformed messages of the port's size.
- Floating-point data is not modelled. Integers are unbounded.
- Channels are modelled as unbounded queues. Their capacity and blocking are not modelled, nor their shared-memory transport, start/join, or message timing (the `time.sleep` in the probe test). A blocking `recv` is a precondition that a message is waiting.
- The runtime, executables, nodes and the message infrastructure are not part of this model. Neither are the sparse and scalar port variants (stubs in the source), `flush`, or the `AbstractPyPort` base classes.
- IoPorts.OutPortVectorDense.Send: requires the connected channels to be distinct objects (`Valid`). With one channel listed twice, the source's loop appends the data to it twice; the model does not cover that case.
- RefVarPorts.RefPortVectorDense.Read: requires the send and receive channels to be two different objects (`Valid`). A port whose GET request would land on its own reply channel is not modelled.
- RefVarPorts.RefPortVectorDense.Wait: requires two different channels (`Valid`), as `Read` does.
- RefVarPorts.VarPortVectorDense.Service: requires the send and receive channels to be two different objects (`Valid`). A var-port replying onto its own request channel is not modelled.
- IoPorts.InPortVectorDense.Recv: assumes the connected channels are distinct objects (`Valid`). If one channel were listed twice, Python would receive two different messages, and the model does not cover that case.
- RefVarPorts.RefPortVectorDense.Read: the source tests the truthiness of the CSP port objects. The model tests that they are present.
- RefVarPorts.RefPortVectorDense.Read: called as one step, it requires the reply to be waiting already, because the model is sequential and the var-port cannot serve the request while `read` blocks. The interleaving of the source is stated by `ReadServiceRoundTrip`: the request half, then one `service`, then the collect half.
- RefVarPorts.ReadServiceRoundTrip: requires the variable to exist. Without it the var-port's round fails with `AttributeError` and the source's `read` blocks forever; the model states that failure in `ServiceStep`.
- RefVarPorts.RefPortVectorDense.Write: likewise tests that the send port is present, where the source tests its truthiness.
- RefVarPorts.VarPortVectorDense.Service: requires the payload of a SET header to have arrived already. The source would block in the second receive until it arrives.
- `ValueError`, `TypeError`, `IndexError`, `KeyError` and `AttributeError` become error values, not exceptions. The exception messages are not modelled.
- The neuron dynamics of the sigma-delta processes are not modelled, and neither are the `AbstractProcess` base constructor and the `Var` and port objects. The model keeps only each variable's shape and initial value. The boolean `cum_error` is stored as 0 or 1, and non-integer `vth`/`bias` values are not modelled.
- `Utils.get_bool_env_setting` reads the process environment. Here the environment is a map parameter.
