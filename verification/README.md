# A verified model of deepx_core

deepx_core trains models with parameter servers. This project models the parts of it in which
correctness depends on state, order or arithmetic, and proves what they are for.

- **Coordinating** (`FileDispatcher.dfy`, `Coordinator.dfy`): input files are handed out to
  workers, survive lost connections and timeouts, and are finished once per epoch.
- **The wire** (`Bytes.dfy`, `DistMessage.dfy`, `TcpConnection.dfy`, `TcpServer.dfy`,
  `ParamServer.dfy`): messages
  are encoded, cut into arbitrary chunks, reassembled in one reused buffer and answered by
  callbacks that never overlap.
- **The graph** (`Names.dfy`, `Graph.dfy`, `OpContext.dfy`): a DAG is compiled to named and
  numbered nodes and a flat chain of ops that computes, and backward differentiates, the graph.
- **The thread pool** (`ThreadPool.dfy`): every interleaving of its critical sections.
- **The sharded model** (`TensorMap.dfy`, `Model.dfy`, `Optimizer.dfy`, `ModelShard.dfy`,
  `Sharding.dfy`, `BatchCounts.dfy`, `TrainerContext.dfy`, `FreqStore.dfy`, `OLStore.dfy`):
  parameters spread over shards behave as one unsharded model when pulled, pushed, filtered,
  reloaded and exported.
- **Small algorithms** (`EvalAuc.dfy`, `Stream.dfy`, `FeatureKV.dfy`, `Shape.dfy`).

`Basics.dfy`, `Sequences.dfy` and `Maps.dfy` hold what several of these use. Check everything with
`dafny verify dfyconfig.toml`.

Code that changes objects in place is a class whose methods are proved against specification
functions on values; what the code promises is then proved about those functions. Protocols with
several threads or processes are state machines over values whose steps are the critical
sections or handlers, and the handler code is proved to take those steps.

## What the proofs found

Where a promised property does not hold, the code is modelled as it is, and the exact condition
is proved instead.

- `FileDispatcher`: an epoch can end with nothing left to do and the end never declared, exactly
  if a file is listed twice (`FileDispatch.EndIsExactIfDistinct`; `FileDispatch.RepeatedFileCanStick`
  is an example).
- `Graph::Compile` fails although all given names differ when one of them is the name generated
  for a node visited earlier (`Graphs.LaterNameClashes`; `Graphs.ClashExactly` says when).
- `OpContext::InitOp`: the backward chain lacks what earlier targets share with the loss target;
  it is complete exactly if they share nothing (`OpContexts.LossPartComplete`), and gives right
  gradients exactly if no gradient would pass from what they share to its inputs
  (`OpContexts.LossAnywhere`).
- `ModelShard::Push` does not count a batch that has no gradient for the shard, so optimizers that
  count batches (Adam, and SGD with decay) then treat the shard's next rows as of an earlier batch
  (`BatchCounts.IdleShardDisagrees`). Sharded and unsharded training agree for all such rules
  exactly if no shard misses a batch before one that touches one of its elements
  (`BatchCounts.AgreeExactlyIfFed`).
- `FreqStore::Filter` of gradients: a sparse gradient of a *dense* parameter is filtered on the
  parameter's shard, which has not counted most of its ids (`FreqStores.ShardFiltersGrad`,
  `FreqStores.DenseRowLost`).
- `SparseParamParser::Parse`: the test for a zero row of width 1 reads one byte, so the value
  2.0, among others, is dropped as well (`FeatureKV.LostRows`, `FeatureKV.TwoIsLost`); widths
  beyond 16 bits are cut on writing and refused on reading (`FeatureKV.BadExactlyIfWide`).
- `Shape`: expanding a shape without dimensions, and squeezing the only dimension away, leave the
  kept total different from the product (`Shapes.ExpandKeepsTotal`, `Shapes.SqueezeKeepsTotal`);
  a failed expansion leaves the rank raised.
- `BufferedInputStream::Peek` marks the stream bad when the source has ended although bytes are
  left, after which `GetLine` loses one, and shows fewer bytes than there are exactly when one read
  does not reach far enough (`Streams.BufferedInputStream.Peek`, `Streams.ShortPeek`).

## Model

| member | source | states |
|---|---|---|
| `FileDispatch.StepKeepsAccounted` | src/ps/file_dispatcher.cc:20-83 | Whatever operation comes next, with any clock readings, timeouts, late, repeated or unknown notifications: the queue has no duplicates and is disjoint from the dispatched files, and every file of the epoch is queued, dispatched or finished. |
| `FileDispatch.RunKeepsAccounted` | src/ps/file_dispatcher.cc:20-83 | The same at every point of every run of any length. |
| `FileDispatch.CountTestIsDrained` | src/ps/file_dispatcher.cc:63-74 | In every accounted state the end-of-epoch test, which also compares a count, holds exactly when nothing is queued and nothing is dispatched. |
| `FileDispatch.EpochEndsExactlyWhenDrained` | src/ps/file_dispatcher.cc:63-74 | Over any run a finish notification returns true exactly when it leaves queue and dispatched files empty, so an epoch neither ends early nor is held up by the count. |
| `FileDispatch.DrainedStays` | src/ps/file_dispatcher.cc:32-83 | Once drained, requests, failures and finishes leave it drained: no file comes back after the end of an epoch. |
| `FileDispatch.EndIsExactIfDistinct` | src/ps/file_dispatcher.cc:20-74 | For every list of input files and any timeout: in all runs of an epoch started over it a finish reports the end exactly when it leaves nothing queued or dispatched, if and only if no file is listed twice. |
| `FileDispatch.RepeatedFileCanStick` | src/ps/file_dispatcher.cc:20-74 | The example: an input with one file listed twice, and a run to a state with nothing queued or dispatched in which the count test fails. |
| `FileDispatch.GivenExactly` | src/ps/file_dispatcher.cc:32-61 | A worker gets a file exactly if one is queued or has been out for longer than the timeout: the first of the queue, or else such a one. |
| `FileDispatch.FileDispatcher.PreEpoch` | src/ps/file_dispatcher.cc:20-30 | The queue becomes the shuffled or (reversed) listed files; nothing is dispatched or finished. |
| `FileDispatch.FileDispatcher.WorkerDispatchFile` | src/ps/file_dispatcher.cc:32-61 | One dispatch of the queue's head, or of a file whose timeout has passed, or of nothing; the class's state is the dispatch step of the value model. |
| `FileDispatch.FileDispatcher.WorkerFinishFile` | src/ps/file_dispatcher.cc:63-74 | Records the file as finished, takes it out of the dispatched files - not out of the queue, where a file that timed out or failed may be again - and returns the end-of-epoch test of the new state. |
| `FileDispatch.FileDispatcher.WorkerFailureFile` | src/ps/file_dispatcher.cc:76-83 | A dispatched file goes back to the queue; any other name changes nothing. |
| `FileDispatch.FileDispatcher.PreTrain` | src/ps/file_dispatcher.cc:11-18 | The loaded file list becomes the dispatcher's, from the last to the first if so configured; nothing else changes. |
| `Coordinator.CoordServer.Begin` | src/ps/coord_server.cc:19-26 | Loading any list of files and starting the first epoch leaves the coordinator in an initial state of the protocol over these files. |
| `Coordinator.CoordServer.DeleteConnection` | src/ps/coord_server.cc:63-68 | The connection's file, if any, is reported as failed; the connection keeps it, but reporting it a second time changes nothing. |
| `Coordinator.CoordServer.OnReadMessage` | src/ps/coord_server.cc:70-99 | Dispatches on the message type; the coordinator's state, the connection's file, the response and the return code are those of the message. |
| `Coordinator.CoordServer.OnBadMessage` | src/ps/tcp_server.cc:83-94 | The double deletion on the error path is the same as one deletion. |
| `Coordinator.ActKeepsInv` | src/ps/coord_server.cc:63-118 | Every step of the whole system (requests, trainings, finishes, lost connections, rejected messages, new epochs, any interleaving) keeps the protocol invariant. |
| `Coordinator.RunKeepsInv` | src/ps/coord_server.cc:19-118 | The invariant holds in every state of every run with the file timeout off and workers that request, train and finish. |
| `Coordinator.EachFileInOnePlace` | src/ps/coord_server.cc:63-118 | In every reachable state each input file is in exactly one place: queued, held by exactly one live connection, or finished once. |
| `Coordinator.EpochEnd` | src/ps/file_dispatcher.cc:63-74 | When the epoch is declared over every file has been finished exactly once and no connection holds one. |
| `Coordinator.FinishedIsWholeInput` | src/ps/coord_server.cc:110-118 | At the end of an epoch the finished files are a permutation of the input. |
| `Coordinator.FinishedOncePerEpoch` | example/rank/dist_worker.cc:282-310 | Over a whole training run every file has been finished exactly once in each completed epoch, and at most once in the current one. |
| `Coordinator.EpochCanEnd` | src/ps/coord_server.cc:63-118 | From every reachable state some run leads to the end of the epoch: no loss of workers leaves a file that cannot be handed out and finished. |
| `Coordinator.HistoryCounts` | src/ps/coord_server.cc:19-62 | Over any run the completed epochs recorded are as many as the starts of a new epoch after the end of one. |
| `Coordinator.AnyNumberOfEpochs` | src/ps/coord_server.cc:19-118 | Over any list of distinct files, for every number there is a run with that many epochs. |
| `DistMessages.DecodeOfEncode` | src/ps/dist_message.cc:28-164 | Reading a written packet gives the message back, for every message type and every content whose strings are shorter than 2^31. |
| `DistMessages.FrameRoundTrip` | src/ps/dist_message.cc:28-164 | A message at the head of the received bytes is taken off unchanged, whatever follows it, exactly if its size fits the 32-bit header. |
| `DistMessages.FrameIncomplete` | src/ps/tcp_connection.cc:126-152 | Every proper prefix of a packet is recognised as incomplete. |
| `DistMessages.AttemptedIsStable` | src/ps/tcp_connection.cc:126-152 | More bytes do not change what a complete or malformed packet is taken for. |
| `DistMessages.HeaderIsExact` | src/common/stream.cc:1024-1032 | The header announces the packet's own size exactly if that is below 2^31. |
| `DistMessages.WrongHeader` | src/ps/tcp_connection.cc:126-152 | A header below 8 is malformed as soon as header and type have arrived; a negative one waits for ever. |
| `DistMessages.BearsResponse` | src/ps/dist_message.cc:13-26 | Of all messages exactly those of the kinds 1, 11, 14, 17 and 31 bear a response: echo, file, pull, save and user requests; no notification and no response does. |
| `DistMessages.StrOfAnySize` | src/common/stream.cc:1024-1032 | A string is written as its size cut to 32 bits, followed by its bytes exactly if that is positive as a signed number. |
| `DistMessages.WireFormat` | src/ps/dist_message.cc:28-90 | The bytes of some packets: sizes, kinds and fields, the low byte first. |
| `TcpConnections.FeedIsDrain` | src/ps/tcp_connection.cc:126-152 | However any bytes, well formed or not, are cut into chunks, taking messages off after every chunk gives the messages and the verdict on malformed ones that all bytes at once give, and the same rest unless a malformed message stops the reading. |
| `TcpConnections.AnyChunkingDelivers` | src/ps/tcp_connection.cc:126-152 | For any chunking of any part of the stream of a list of messages, exactly the messages that lie in it completely are delivered, in order, and exactly the incomplete tail is kept. |
| `TcpConnections.TcpConnection.GetInBuf` | src/ps/tcp_connection.cc:94-113 | Keeps the buffer invariant (offset and bytes within the buffer, an offset only with pending bytes) and the pending bytes, and always offers room. |
| `TcpConnections.TcpConnection.TryReadMessage` | src/ps/tcp_connection.cc:126-152 | Takes one message off the pending bytes as the value model does: its code, what is left pending, and the message. |
| `TcpConnections.TcpConnection.ReadMessage` | src/ps/tcp_connection.cc:154-176 | The blocking read delivers the first message of the incoming bytes, or reports a malformed one, or the end of the stream, whatever the sizes of the reads. |
| `TcpConnections.TcpConnection.PrepareOutBuf` | src/ps/tcp_connection.cc:115-119 | The unwritten bytes are the encoded message. |
| `TcpConnections.TcpConnection.OnWritten` | src/ps/tcp_connection.cc:197-202 | The written bytes leave the unwritten ones; the code says whether any are left. |
| `TcpServers.StepKeepsInv` | src/ps/tcp_server.cc:65-135 | Any activity that runs next, on any thread, keeps the connection's invariant. |
| `TcpServers.OneActivity` | src/ps/tcp_server.cc:65-135 | In every reachable state a connection that is not closed has exactly one outstanding operation or running handler, so no request is processed while a response is being written. |
| `TcpServers.HandledInOrder` | src/ps/tcp_server.cc:77-106 | The messages handled are a prefix of the messages sent, in order; when the server waits for more, everything that arrived completely is handled and answered. |
| `TcpServers.ClientReadsResponsesInOrder` | src/ps/tcp_server.cc:108-135 | What the client takes off the bytes written so far is one response per response-bearing message handled, in order, but for those not completely written. |
| `TcpServers.EveryRequestAnswered` | src/ps/tcp_server.cc:77-135 | If a server answers in kind, then once it waits again the client has received, for every request among its messages in turn and for nothing else, a response of the kind that follows the request's. |
| `TcpServers.OneMessageSettled` | src/ps/tcp_server.cc:77-106 | With one accepted message in the buffer the handler ends in a write exactly for the five kinds that bear a response, else in a read. |
| `TcpServers.PullIsAnswered` | src/ps/tcp_server.cc:77-106 | By type: with an echo, file, pull, save or user request alone in the buffer the handler ends in a write, with any notification in a read. |
| `TcpServers.MayFail` | src/ps/tcp_server.cc:65-135 | An outstanding read or write may always fail and close the connection. |
| `TcpServers.AllCanBeServed` | src/ps/tcp_server.cc:65-135 | However the bytes of accepted messages are cut into chunks, and whatever number of bytes a write takes, there is a run in which the server takes all these chunks and, after writing every response due, waits for more: no cut leaves it stuck. |
| `ParamServers.AnswersInKind` | src/ps/param_server.cc:11-45 | The parameter server takes exactly seven kinds of messages and answers pull, save and user requests by the kind that follows. |
| `ParamServers.WorkerIsAnswered` | src/ps/param_server.cc:11-45 | So a worker's requests are each answered in turn by a response of their own kind, its notifications by nothing. |
| `TcpServers.TcpServer.OnRead` | src/ps/tcp_server.cc:77-106 | The completion handler leaves the buffers, the handled messages and at most one started operation as the specification of a handler says; one accepted request of any of the five kinds that bear a response ends in writing the encoded response, any other message in reading. |
| `TcpServers.TcpServer.OnWrite` | src/ps/tcp_server.cc:120-128 | The handler of a partial write starts the next write, that of a complete one goes on reading. |
| `TcpServers.HandlerIsPath` | src/ps/tcp_server.cc:77-135 | The handler code is a path of the connection's state machine. |
| `Names.ValidCharsAre` | src/graph/graph_node.cc:78-90 | The characters of valid names, one by one. |
| `Names.LessExactly` | src/graph/graph.cc:200-205 | The order by which nodes are numbered: a proper prefix comes first, otherwise the smaller character at the first difference. |
| `Graphs.GeneratedName` | src/graph/graph.cc:76-86 | The generated name is the class name with the least positive number not in use; the search ends. |
| `Graphs.Walk.CheckName` | src/graph/graph.cc:71-89 | Valid names stay; others get the first unused numbered class name; the name counts as used, and the names in use are always those of the nodes visited so far. |
| `Graphs.Walk.CompileTarget` | src/graph/graph.cc:91-111 | The depth-first walk ends; it adds exactly the nodes the node is computed from, once each, inputs before users, with their names, and the gradient flags of what it visited are final; names are given in the order of first visits. |
| `Graphs.Walk.CompileRoot` | src/graph/graph.cc:113-121 | A target's forward list holds exactly the nodes reachable from it, once each, inputs first. |
| `Graphs.Graph.CompileTargets` | src/graph/graph.cc:187-198 | The same for every target, with flags final for all nodes reached; over all targets each node reached has its valid given name, or the first numbered class name that no node visited before it has. |
| `Graphs.GeneratedApart` | src/graph/graph.cc:71-89 | Two nodes without a valid name never get the same name. |
| `Graphs.NamesDetermined` | src/graph/graph.cc:71-89 | The given names and the order of first visits determine the names of all nodes; they are those that a function of these two computes, whose generated names are the first unused ones. |
| `Graphs.ClashExactly` | src/graph/graph.cc:71-89 | Names clash exactly if a node was given the name that a node visited before it gets, which the given names and the order of the visits alone determine. |
| `Graphs.GivenApartSuffices` | src/graph/graph.cc:71-89 | No names clash if the valid given names differ from each other and none is a class name followed by a number. |
| `Graphs.LaterNameClashes` | src/graph/graph.cc:71-111 | An input on which they do: the second input of a node was given the name that is generated for the first. |
| `Graphs.Graph.MapNames` | src/graph/graph.cc:207-214 | Fails exactly if two nodes have the same name; otherwise the map inverts the naming. |
| `Graphs.Graph.AssignIds` | src/graph/graph.cc:225-234 | Fails exactly beyond 65535 nodes; otherwise ids are positions, untruncated. |
| `Graphs.Graph.Compile` | src/graph/graph.cc:184-239 | Compiling any DAG succeeds exactly if at most 65535 nodes are reached and none was given the name that one visited before it gets - a condition on the graph as constructed, met in particular if the given names are apart as above; then the ids are 0 to n-1, each the number of names that come after the node's own in that order, the name map is the inverse of the naming, and a node has its gradient flag exactly if it is computed from a node that had one. |
| `Graphs.NumberedOnce` | src/graph/graph.cc:200-234 | Being numbered so determines the ids. |
| `Graphs.TaintedByInput` | src/graph/graph.cc:101-106 | A node needs a gradient exactly if it is flagged itself or one of its inputs needs one. |
| `OpContexts.ChainOrdered` | src/graph/op_context.cc:122-153 | The deduplicated chain holds the nodes of all targets exactly once each, inputs before users. |
| `OpContexts.ForwardIsEval` | src/graph/op_context.cc:246-258 | Running an ordered chain over any stale values never lacks an input and gives every node the value of evaluating the graph recursively. |
| `OpContexts.LossPartComplete` | src/graph/op_context.cc:122-153 | The backward chain is the loss target's whole forward list exactly if the targets before it have no name in common with it; in particular if it is the first. |
| `OpContexts.LossListedAgain` | src/graph/op_context.cc:122-153 | A target listed a second time as the loss gets an empty backward chain. |
| `OpContexts.BackwardIsDerivative` | src/graph/op_context.cc:274-307 | Reverse accumulation over the whole forward list of the loss finds every gradient it needs and gives each node that needs one the derivative of the loss by it, defined by the chain rule over the graph. |
| `OpContexts.LossAnywhere` | src/graph/op_context.cc:122-307 | Wherever the loss target is listed: the backward chain gives every node of it that needs a gradient the derivative of the loss, for all partial derivatives, if and only if no node that it shares with an earlier target has an input that needs a gradient. |
| `OpContexts.OrderedRest` | src/graph/op_context.cc:274-307 | In an ordered list no node visited before its turn in reverse uses the node still to come: every node is visited after all its users. |
| `OpContexts.OpContext.InitOp` | src/graph/op_context.cc:100-155 | Builds exactly the chains above, or fails exactly on a class without an op. |
| `OpContexts.OpContext.Forward` | src/graph/op_context.cc:246-258 | Computes what running the chain means, or fails where that does. |
| `OpContexts.OpContext.Backward` | src/graph/op_context.cc:274-307 | Computes what running the reversed chain from gradient one of the loss means, or fails where that does. |
| `OpContexts.TrainingStep` | src/graph/op_context.cc:100-307 | For compiled targets with the loss first: every node of every target has its recursive value after the forward pass, and every node of the loss that needs a gradient the derivative of the loss after the backward pass. |
| `OpContexts.CompiledTrains` | src/graph/graph.cc:184-239 | What a successful compilation establishes is what that theorem asks for. |
| `ThreadPools.StepKeepsInv` | src/common/thread_pool.cc:18-134 | Every critical section of every worker, poster, caller of run and stop, with spurious wake-ups, keeps the invariant. |
| `ThreadPools.RunKeepsInv` | src/common/thread_pool.cc:18-134 | The invariant holds after every interleaving. |
| `ThreadPools.ExactlyOnce` | src/common/thread_pool.cc:18-73 | When all workers have left, exactly the tasks posted before the last one left have been completed, each as often as it was posted; the list holds those posted later. |
| `ThreadPools.PostedInTime` | src/common/thread_pool.cc:35-87 | Posts made while a worker was there, before stop or by a running task, lie before the point up to which everything is completed. |
| `ThreadPools.PostedIsCompleted` | src/common/thread_pool.cc:35-87 | From the initial state: if the pool is started or a worker is there when a task is posted, and no join follows, then once all workers have left everything posted up to then is completed, as often as it was posted, and nothing is completed more often. |
| `ThreadPools.RunReturnsLast` | src/common/thread_pool.cc:89-134 | run returns only when all its functions have completed, and no task with its token is left queued, running or counting down. |
| `ThreadPools.NoLostWakeUp` | src/common/thread_pool.cc:18-134 | If all workers of a started pool sleep there are at least as many notifications to come as tasks; a sleeping caller of run has functions to wait for; after stop nobody sleeps. |
| `ThreadPools.NeverStuck` | src/common/thread_pool.cc:18-87 | A started pool with tasks always has a worker that can go on or be notified. |
| `ThreadPools.CanFinish` | src/common/thread_pool.cc:18-134 | From every reachable state in which some worker has not left, some run completes every task, lets every caller of run return with all its functions completed, and joins all workers. |
| `ThreadPools.WholeLife` | src/common/thread_pool.cc:18-134 | For any number of threads, any functions posted and any calls of run whose callers all sleep first: the pool can be started, complete everything, let everybody return, and be stopped. |
| `ThreadPools.OneNotificationPerPost` | src/common/thread_pool.cc:75-87 | Over any run the notifications still to come are the posts less the notifications. |
| `ThreadPools.LastWakes` | src/common/thread_pool.cc:111-134 | The caller of run is woken exactly by the last of its functions to be counted down; after any other wake-up it sleeps again. |
| `ThreadPools.ThreadPool.WorkerSection` | src/common/thread_pool.cc:20-42 | The worker's code under the mutex is the worker's step of the state machine. |
| `ThreadPools.ThreadPool.Post` | src/common/thread_pool.cc:75-87 | A posted task goes to the front of the list. |
| `TensorMaps.DefaultShard` | src/graph/shard.cc:20-29 | The default placement puts every name and id on an existing shard. |
| `TensorMaps.ModuloShard` | src/graph/shard.cc:35-46 | So does the modulo placement. |
| `TensorMaps.DefaultPlaces` | src/graph/shard.cc:20-29 | Along the low 32 bits of the ids the shards take turns, starting at the first; a dense tensor is where its hash would be. |
| `TensorMaps.ModuloPlaces` | src/graph/shard.cc:35-46 | Along bits 24 to 47 of the ids the shards take turns, whatever the other bits; all dense tensors are on the first shard. |
| `TensorMaps.ProductMeans` | include/deepx_core/tensor/shape.h:109-130 | The number of elements of a shape: of one dimension its size, of a joined shape the product of both. |
| `TensorMaps.PlacedDetermines` | include/deepx_core/graph/shard.h:66-78 | A model is determined by what its shards hold. |
| `Models.Model.InitParam` | src/graph/model.cc:44-80 | A shard starts with its own dense tensors, random, and with all matrices, without rows. |
| `Models.Model.Pull` | src/graph/model.cc:312-360 | Answers each dense tensor asked for and each row asked for that exists, or in training is created; nothing else of the model changes, and nothing of an earlier answer survives. |
| `Models.Model.SetParam` | src/graph/model.cc:362-381 | The rows of the last batch are dropped and the parts taken over one after the other, first come first served. |
| `Models.Model.Reduce` | src/graph/model.cc:403-430 | Combines exactly the parameters of equal kind and shape or width that both sides have, dense ones only if owned. |
| `Models.Model.Merge` | src/graph/model.cc:255-272 | Takes over the shard's own dense tensors and its own rows, as far as rows are new. |
| `Models.Model.Update` | src/graph/model.cc:383-401 | Overwrites dense tensors of the same shape and all rows given. |
| `Models.WhoWins` | src/graph/model.cc:255-401 | Overwriting replaces rows and dense tensors of the same form; pulling and merging add rows but keep those that are there. |
| `ModelShards.ModelShard.LoadModel` | src/graph/model_shard.cc:369-396 | An equally placed shard takes its file; otherwise all files are merged into a fresh model. |
| `ModelShards.ModelShard.SplitPullRequest` | src/graph/model_shard.cc:932-970 | Shard i gets the names and ids placed on it, and every matrix name. |
| `ModelShards.ModelShard.SplitGrad` | src/graph/model_shard.cc:972-1029 | Every kept dense gradient is in exactly the part of its parameter's shard and every kept row in the part of its id's shard; moved gradients are left empty. |
| `ModelShards.ModelShard.SplitParam` | src/graph/model_shard.cc:1031-1072 | The same for parameters, by their own kind. |
| `Optimizers.Optimizer.InitParam` | src/graph/optimizer/optimizer_impl.cc:59-75 | Every parameter gets as many slots as the optimizer keeps for its form, of that form, zero or without rows. |
| `Optimizers.Optimizer.Update` | src/graph/optimizer/optimizer_impl.cc:234-289 | Counts the batch and applies the rule for that count to every parameter that has a fitting gradient and to its slots; for any rule that writes in place the new state is the one that `Wrote` describes. |
| `Optimizers.UpdateWrites` | include/deepx_core/tensor/ll_tensor.h:887-1060 | For every rule and at every level, parameter or slot, the elements after an update are the rule's result for that level, given the gradient and the old elements of all levels: of the whole tensor, of each row given of a dense tensor, of each row given of a matrix. All else stays, and so does everything whose gradient does not fit. |
| `Optimizers.WrittenOnce` | src/graph/optimizer/optimizer_impl.cc:234-289 | That determines the state after the update: no other state satisfies it. |
| `Optimizers.SlotIsWritten` | src/graph/optimizer/ada_grad.cc:58-60 | A tensor with one element and one slot: both take what the rule gives for them. |
| `Optimizers.UpdateKeepsSlotted` | src/graph/optimizer/optimizer_impl.cc:263-289 | No update changes the shape, width or size of a parameter or slot, if the rule writes in place. |
| `Optimizers.EmptyGradient` | include/deepx_core/tensor/ll_tensor.h:887-1060 | A gradient without elements or rows changes neither the parameter nor its slots. |
| `Optimizers.Optimizer.Merge` | src/graph/optimizer/optimizer_impl.cc:206-232 | Takes over the shard's own dense slots and its own rows of the others, as far as rows are new, where both optimizers have as many slots of the same form. |
| `Shardings.ShardPull` | src/graph/model_shard.cc:932-970 | A shard's answer to its part of a request is its part of the whole model's answer, and the rows it creates are its part of the rows created. |
| `Shardings.ShardedPullAgrees` | example/rank/trainer_context.cc:444-473 | For any shard count and placement: splitting a request, pulling from all shards and merging gives the local parameters exactly what one pull from the whole model gives, and the shards stay the parts of the whole model. |
| `Shardings.ShardPush` | example/rank/trainer_context.cc:475-489 | Pushing its parts of gradients and new values to a shard gives the shard its part of the model pushed to as a whole, optimizer slots included, for any rule that writes in place. |
| `Shardings.WhatMayBePushed` | example/rank/trainer_context.cc:444-489 | A request for all parameters allows every push; one that does not name a parameter allows none to it. |
| `Shardings.MaskWithholdsNothing` | example/rank/trainer_context.cc:448-486 | A shard whose part of the pull request was empty has nothing to be pushed, if the batch asked for all it has gradients or new values for. |
| `Shardings.ReshardingConserves` | src/graph/model_shard.cc:369-396 | Merging the files of any number of old shards gives every new shard exactly its part of the same model; no random initial value survives. |
| `Shardings.ReshardingThereAndBack` | src/graph/model_shard.cc:369-396 | From m to n shards and back to m every shard has what it had. |
| `Shardings.ReshardingConservesEntries` | src/graph/ts_store.cc:192-202 | The same for the maps from ids to timestamps (and frequencies). |
| `Shardings.ReshardingConservesSlots` | src/graph/model_shard.cc:447-490 | Merging the optimizers of all old shards into a fresh one gives every new shard exactly the slots of its part of the model. |
| `TrainerContexts.TrainerContextShard.Pull` | example/rank/trainer_context.cc:444-473 | With shards that hold the parts of a model and of the frequencies of all ids: afterwards they hold those of the model pulled from and of the new frequencies, the local parameters are those of one filtered pull from the whole, the mask says which parts of the request were not empty, and the buffers are of the model's kinds. |
| `TrainerContexts.TrainerContextShard.Push` | example/rank/trainer_context.cc:475-489 | With the mask of the pull: every shard, whatever it holds and however many batches it has counted, is updated by its part of the gradient, filtered by its own frequencies, under the rule for its own count, then takes its part of the new values, and counts the batch exactly if its part of the gradient is not empty; the buffers are of the kinds pushed. |
| `TrainerContexts.TrainerContextShard.RunBatches` | example/rank/trainer_context.cc:347-489 | Over any list of training and predicting batches, with or without frequency filters, the shards hold the parts of the model and the frequencies, and the trainer the local parameters, that the same batches give without shards - if kept ids of dense parameters are counted on the parameter's shard and, for a rule that counts batches, no shard gets anything for an element after it has missed a batch. |
| `TrainerContexts.PushedAt` | src/graph/model_shard.cc:866-886 | One push on one shard: a shard that holds its part, and has counted as many batches as the whole unless it is known to have missed one, holds its part of the whole after the push, and is then known to have missed a batch exactly if this one counts and it got nothing of it. |
| `BatchCounts.AgreeExactlyIfFed` | src/graph/model_shard.cc:866-879 | For any fixed list of pulls and gradients: every shard holds its part of the model without shards after every event, for all rules that write in place whatever they do with the count of batches, if and only if no shard gets nothing of a batch that counts before a batch that touches one of its elements. |
| `BatchCounts.IdleShardDisagrees` | src/graph/model_shard.cc:866-879 | Two shards, a matrix with row 0, a gradient for row 0 and then one for row 1: the second shard has counted one batch where two are counted without shards, agrees after the first and disagrees after the second. |
| `BatchCounts.UntouchedSame` | include/deepx_core/tensor/ll_tensor.h:887-1060 | A gradient that touches no element of a model changes neither parameters nor slots, whatever the rule. |
| `TrainerContexts.PushCounts` | src/graph/model_shard.cc:866-886 | A push counts as a batch exactly if some shard gets a part of its gradient (or always, if the model without shards counts so), and then exactly the shards that get none have missed one. |
| `TrainerContexts.CanTrain` | example/rank/trainer_context.cc:444-489 | Without a frequency filter, and with a rule that does not count or with no shard behind, every batch that pushes to what it has asked for meets the conditions of the run theorem. |
| `TrainerContexts.CanTrainFiltered` | example/rank/trainer_context.cc:444-489 | With a filter, if in addition every gradient is of the kind of its parameter. |
| `TrainerContexts.PredictionsChangeNothing` | example/rank/trainer_context.cc:444-489 | Any number of batches that only predict meet them, and leave model, slots, frequencies and counts as they are. |
| `TrainerContexts.PushTo` | src/graph/model_shard.cc:866-886 | A push updates by the filtered gradient, then overwrites; without a gradient the batch is not counted. |
| `TrainerContexts.PullFrom` | src/graph/model_shard.cc:859-864 | A pull in training counts and filters the request and answers what is left of it; one for prediction answers the request. |
| `FreqStores.CountsSaturate` | src/graph/freq_store.cc:195-203 | However locked additions interleave, an id's count is its first count plus all that was added, or 2^32-1 if that is less. |
| `FreqStores.InterleavingsAgree` | src/graph/freq_store.cc:195-203 | Two interleavings of the same additions leave the same store. |
| `FreqStores.RequestsSaturate` | src/graph/freq_store.cc:171-179 | The same over whole requests. |
| `FreqStores.PassingIsPermanent` | src/graph/freq_store.cc:244-259 | An id past the threshold stays past it whatever is added. |
| `FreqStores.PulledIsPushed` | src/graph/model_shard.cc:859-886 | A gradient row of an id that a pull let through is let through at every later push. |
| `FreqStores.ShardFiltersRequest` | src/graph/model_shard.cc:964-969 | Counting and filtering the parts of a request per shard is counting and filtering it before the split. |
| `FreqStores.ShardFilteredPull` | src/graph/model_shard.cc:859-864 | So pulling with filters on shards answers the parts of one filtered pull from the whole model. |
| `FreqStores.ShardFiltersGrad` | src/graph/freq_store.cc:220-230 | Filtering the parts of a gradient agrees with filtering before the split exactly if the sparse gradients of dense parameters have their kept ids on the parameter's shard. |
| `FreqStores.DenseRowLost` | src/graph/freq_store.cc:244-250 | An input for which it does not: a row of a dense tensor of two rows that the shard drops and an unsharded store keeps. |
| `FreqStores.ShardFilteredUpdate` | src/graph/model_shard.cc:866-879 | Under that condition a filtered push to the shards updates the whole model and its slots as one filtered push does. |
| `FreqStores.RequestKeeps` | src/graph/freq_store.cc:147-259 | With a threshold an id stays in a request exactly if it was in it and its count, with the request's own and stopping at 2^32-1, has reached the threshold; without one everything stays. |
| `FreqStores.GradKeeps` | src/graph/freq_store.cc:159-259 | With a threshold a row stays in a sparse gradient exactly if its id is counted and has reached the threshold. |
| `FreqStores.ThirdTimePasses` | src/graph/freq_store.cc:147-259 | A count of three passes a threshold of three, a count of two does not. |
| `FreqStores.FreqStore.FilterRequest` | src/graph/freq_store.cc:147-193 | Counts the request first; then exactly the ids stay whose count, stopping at 2^32-1, has reached the threshold; threshold 0 does nothing. |
| `FreqStores.FreqStore.FilterGrad` | src/graph/freq_store.cc:159-242 | In sparse gradients exactly the rows stay whose id is counted and has reached the threshold. |
| `FreqStores.FreqStore.Merge` | src/graph/freq_store.cc:97-107 | Takes over the shard's own entries as far as they are new. |
| `FreqStores.GetIdFreqMap` | src/graph/freq_store.cc:126-145 | Counts every occurrence of an id in a batch, modulo 2^32. |
| `OLStores.StepKeepsInv` | src/graph/ol_store.cc:25-86 | Pushes (with filtering), pulls, expiry and collections keep the invariant below. |
| `OLStores.ChangedIsPending` | src/graph/ol_store.cc:25-86 | Over any run: a row that differs from its baseline is pending, or some training pull found it missing and no push after that was for it. |
| `OLStores.PendingIsTouched` | src/graph/ol_store.cc:25-86 | Over any run: a row is pending exactly if a push has addressed it since it last moved into the baseline, whether or not its value changed. |
| `OLStores.CollectedIsClose` | src/graph/ol_store.cc:46-107 | After a collection a pending row that exists has a baseline, with update count and distance within the thresholds; a collected row's baseline is its value; other baselines stay. |
| `OLStores.CollectionIsRight` | src/graph/ol_store.cc:46-107 | A pending row leaves for the baseline exactly if it is in the model and has no baseline, more updates than the threshold, or a distance above the threshold; an id is returned exactly if one of its rows leaves; everything else stays. |
| `OLStores.CollectedOnce` | src/graph/ol_store.cc:46-107 | That determines the baseline, the pending rows and the ids after a collection. |
| `OLStores.OLStore.Update` | src/graph/ol_store.cc:25-44 | Counts every addressed row of every known matrix once, modulo 2^32; all other counts stay. |
| `OLStores.ExpiredExactly` | src/graph/model_shard.cc:888-907 | Expiring takes exactly the rows of the ids given out of the model and all slots; what is pending and the baseline stay. |
| `OLStores.PulledExactly` | src/graph/model.cc:312-360 | A training pull makes up exactly the rows asked for and missing, and changes nothing else; a predicting pull changes nothing. |
| `OLStores.OLStore.Collect` | src/graph/ol_store.cc:46-86 | Moves the rows that are due into the baseline and returns their ids, exactly as described above. |
| `EvalAuc.Sweep` | src/tools/eval_auc_main.cc:30-58 | One pass over items in descending order computes the quotient of the score over all positive-negative pairs and their number. |
| `EvalAuc.CloseGroup` | src/tools/eval_auc_main.cc:36-42 | Closing a group of ties adds the score of the group's negatives against everything above and beside them. |
| `EvalAuc.AucInRange` | src/tools/eval_auc_main.cc:54-58 | The result lies between 0 and 1. |
| `EvalAuc.OrderDoesNotMatter` | src/tools/eval_auc_main.cc:86-95 | It is the same for every permutation of the items, in particular inside ties. |
| `EvalAuc.AucByCounting` | src/tools/eval_auc_main.cc:31-58 | It is the number of pairs of an item with a positive label and one without in which the first has the higher probability, plus half the number of ties, by the number of all such pairs; there is a result exactly if there is such a pair. |
| `Streams.BufferedInputStream.FillEmptyBuf` | src/common/stream.cc:644-655 | Keeps what remains to be read; gets nothing only at the source's end or with a buffer of size 0. |
| `Streams.BufferedInputStream.EnsureBuf` | src/common/stream.cc:657-683 | Keeps what remains, never asks for nothing or writes outside the buffer, and gets more unless the source has none. |
| `Streams.BufferedInputStream.Read` | src/common/stream.cc:685-705 | Delivers the next bytes in order and falls short only at the source's end. |
| `Streams.BufferedInputStream.ReadChar` | src/common/stream.cc:707-717 | Delivers the next byte, or 255 and a bad stream at the end. |
| `Streams.BufferedInputStream.Peek` | src/common/stream.cc:719-726 | Shows a prefix of what remains without moving; all that is asked for and there exactly if the buffered bytes and those of one read reach so far, at least one byte if there is one; marks the stream bad at the source's end even with bytes left. |
| `Streams.ShortPeek` | src/common/stream.cc:719-726 | A source that reads one byte first lets a peek at any number of bytes show one. |
| `Streams.BufferedInputStream.GetLine` | src/common/stream.cc:610-621 | Reads up to the first delimiter, or all that is left; on a stream that is already bad takes one byte and returns an empty line. |
| `Streams.RunOps` | src/common/stream.cc:644-726 | Over any mix of operations and any short reads: what was delivered followed by what remains is the original, and the reads fall short only at the end. |
| `FeatureKV.SplitItemsEncoded` | src/graph/feature_kv_util.cc:581-635 | Concatenated items split into the keys and values they were made of. |
| `FeatureKV.ParseEncoded` | src/graph/feature_kv_util.cc:499-576 | Parsing the encoded rows of an id stores them in their matrices, and the value is not bad. |
| `FeatureKV.RoundTrip` | src/graph/feature_kv_util.cc:279-635 | Collecting, encoding, concatenating, splitting and parsing gives back every row bit for bit but those of width 1 whose first byte is zero, with no bad key or value. |
| `FeatureKV.WriteThenRead` | src/graph/feature_kv_util.cc:279-635 | The same for the methods themselves, run one after the other over any matrices whose items fit. |
| `FeatureKV.BadExactlyIfWide` | src/graph/feature_kv_util.cc:289-293 | No value is bad exactly if every matrix with a row is at most 65535 wide. |
| `FeatureKV.LostRows` | src/graph/feature_kv_util.cc:558-567 | Of what was written, split and parsed, a row does not come back exactly if it has width 1 and its first byte is zero. |
| `FeatureKV.TwoIsLost` | src/graph/feature_kv_util.cc:558-567 | Writing a matrix of width 1 whose row is the float 2.0 and reading it back gives the matrix without the row. |
| `FeatureKV.CollectSparseParam` | src/graph/feature_kv_util.cc:279-300 | Every id gets one value for every matrix with a row for it, with node id, width and row. |
| `FeatureKV.GetSparseParamItem` | src/graph/feature_kv_util.cc:160-222 | Fills an item of exactly the computed size with head, key and values. |
| `FeatureKV.WriteSparseParam` | src/graph/feature_kv_util.cc:339-362 | Writes the items of all ids, each once. |
| `FeatureKV.GetKeyValues` | src/graph/feature_kv_util.cc:581-635 | Splits a buffer as specified, and fails at the first incomplete item. |
| `FeatureKV.SparseParamParser.ParseAll` | src/graph/feature_kv_util.cc:480-497 | Counts the answers and parses those with code 0. |
| `FeatureKV.SparseParamParser.Parse` | src/graph/feature_kv_util.cc:499-576 | Stores the rows up to the first that does not fit its matrix, which counts as a bad value. |
| `Shapes.ReshapeConserves` | src/tensor/shape.cc:62-123 | Reshaping dimensions without an open one keeps the number of elements; the result is the only way to fill the target in that does, and is found if there is one and the number is not zero. |
| `Shapes.ExpandKeepsTotal` | src/tensor/shape.cc:125-140 | Expanding keeps the number of elements exactly if there was a dimension before. |
| `Shapes.SqueezeKeepsTotal` | src/tensor/shape.cc:142-157 | Squeezing keeps it exactly if it was not the only dimension. |
| `Shapes.ExpandThenSqueeze` | src/tensor/shape.cc:125-157 | Expanding and squeezing the same axis, negative axes included, changes nothing. |
| `Shapes.SqueezeThenExpand` | src/tensor/shape.cc:125-157 | Nor does squeezing and expanding. |
| `Shapes.Shape.DoReshapeNothrow` | src/tensor/shape.cc:62-123 | Succeeds and sets the dimensions as specified, also when a shape is reshaped by itself, with the kept total equal to their product whenever both totals were; failure changes nothing. |
| `Shapes.Shape.DoExpandDimNothrow` | src/tensor/shape.cc:125-140 | Inserts a 1 at the real axis; failure on the axis leaves the rank raised by one; the kept total is the product afterwards exactly if the rank was not 0. |
| `Shapes.Shape.DoSqueezeNothrow` | src/tensor/shape.cc:142-157 | Removes a 1 at the real axis; the kept total is the product afterwards exactly if the rank was not 1. |
| `Shapes.Shape.ReshapeNothrow` | src/tensor/shape.cc:169-176 | Failure gives the empty shape. |
| `Shapes.Shape.Assign` | include/deepx_core/tensor/shape.h:109-130 | Keeps at most eight dimensions and their product. |
| `Shapes.Shape.SameShape` | src/tensor/shape.cc:210-220 | Exactly if the dimensions are equal. |

## Left out

- Sockets, asio, timers, real clocks, file systems, compression, logging, profiling branches and command lines: bytes arrive as sequences in arbitrary pieces, and clock readings and shuffles are parameters.
- Random numbers: the value given to a new row, or to a new dense tensor, is an arbitrary function of its name and id, so that the sharded and the unsharded model draw the same.
- Numeric kernels, optimizers and gradients of ops: arbitrary functions. Gradients are single real numbers per node, not tensors, and the partial derivatives at the current values are given.
- The configuration of optimizers and its merging: an optimizer is an arbitrary rule that may depend on the number of batches counted, and clips gradients as it likes. A gradient row beyond the end of a dense tensor, which no op makes, is ignored.
- Locks of the model and of the stores other than the interleaving of counts in `FreqStore`; the pulls and pushes of one batch to different shards run one after the other, and the countdown of their completions is that of `ThreadPool::run`.
- The expiry by timestamps beyond the merging of its map, and the warm-up variants of loading.
- Text, dot and legacy formats; `TensorMap` and graph serialization; feature-KV version 3, its dense parameters, and its writing restricted to a set of ids.
- `GraphNode` objects are immutable here: the fields that compiling changes (name, gradient flag, id) are kept in maps and sets of the compilation, and sorting by name stands for the library's sort. `PostInit` and heap ownership of nodes, and the map from target names, are not modelled.
- Signed 32-bit overflow of `total_dim_`, `remain`, shard ids and node counters: integers are unbounded except where the source stores 16, 32 or 64 bits and the value is read back.
- Views into memory that a server owns: pulled and pushed values are copies, so that a server's later change does not show through.
- The logarithmic loss and the averages that `EvalAUC` prints, and floating-point rounding of its sums; the division by zero when a class is missing is a result without a value.
- Two stops of the thread pool at once, and starting it while a stop is joining its threads.
- FeatureKV.RoundTrip: asks for ids and item sizes that fit their fields, as the source asserts, and for widths of at most 16 bits, outside of which `FeatureKV.BadExactlyIfWide` says what happens.
- Shardings.ShardPush: asks for a rule that writes elements in place, as all update kernels do, so that no size changes.
- BatchCounts.AgreeExactlyIfFed: speaks of pulls and gradients only, without frequency filter and without new values that overwrite parameters, and of matrices without rows of width 0; with these only the condition that suffices is proved, `TrainerContexts.TrainerContextShard.RunBatches`.
- TrainerContexts.TrainerContextShard.RunBatches: expiry by timestamps and exports during the run, and the merging of counters when optimizers are loaded, are not part of it.
- Coordinator.RunKeepsInv: the file timeout is off, as the coordinator is configured; with timeouts only what `FileDispatch.RunKeepsAccounted` says is kept.
