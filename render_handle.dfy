// Sources/RenderHandle.cpp: the render commands and their frames in flight, the
// swapchain's format and usage, the image helpers, and the upload of a texture or a
// skybox through the single-use command.
module RenderHandles {
  import opened Common
  import opened Initializers
  import opened RenderCommands
  import opened Textures
  import opened SkyboxTables
  import opened Skyboxes
  import Buffers
  import Devices

  const U8Modulus: nat := 0x100

  /** The VkFormat and VkColorSpaceKHR values the swapchain setup compares against. */
  const FormatUndefined: nat := 0
  const FormatB8G8R8A8Unorm: nat := 44
  const FormatB8G8R8A8Srgb: nat := 50
  const ColorSpaceSrgbNonlinear: nat := 0

  /** CPU-side view of a frame fence: not created yet, signalled (its work is done, or it
      was created signalled), reset and not yet submitted, or submitted with work pending. */
  datatype FenceState = NotCreated | Signalled | Unsignalled | Pending

  /** The calls the frame protocol makes on fences, the swapchain and the queues. */
  datatype FrameEvent =
    | WaitFence(fence: Handle)
    | ResetFence(fence: Handle)
    | AcquireImage(swapchain: Handle, signalSemaphore: Handle)
    | SubmitFrame(queue: Handle, commandBuffer: Handle, waitSemaphore: Handle, signalSemaphore: Handle, fence: Handle)
    | Present(queue: Handle, swapchain: Handle, waitSemaphore: Handle, imageIndex: nat)

  /** What vkGetPhysicalDeviceSurfaceCapabilitiesKHR reports and the swapchain uses. */
  datatype SurfaceCapabilities = SurfaceCapabilities(currentWidth: nat, currentHeight: nat,
                                                     supportedUsage: bv32, currentTransform: nat)

  datatype ImageViewCreateInfo = ImageViewCreateInfo(viewType: nat, format: nat, subRange: SubresourceRange, image: Handle)

  /** std::vector::resize: keeps the first n entries and pads with value-initialised ones. */
  function Resize<T>(s: seq<T>, n: nat, pad: T): (r: seq<T>)
    ensures |r| == n
    ensures forall i :: 0 <= i < n ==> r[i] == if i < |s| then s[i] else pad
  {
    if n <= |s| then s[..n] else s + seq(n - |s|, _ => pad)
  }

  // ------------------------------------------------------------- frame slots

  /** m_CurrentFrame = (m_CurrentFrame + 1) % m_PendingFrames, stored in a uint8_t. */
  function NextFrame(current: nat, pendingFrames: nat): (r: nat)
    requires pendingFrames >= 1
    ensures r < pendingFrames && r < U8Modulus
  {
    ((current + 1) % pendingFrames) % U8Modulus
  }

  /** The slot after k frames, starting from slot `start`. */
  function Advance(start: nat, pendingFrames: nat, k: nat): (r: nat)
    requires pendingFrames >= 1 && start < pendingFrames
    ensures r < pendingFrames
  {
    if k == 0 then start else NextFrame(Advance(start, pendingFrames, k - 1), pendingFrames)
  }

  /** With at most 256 frames in flight the slot cycles 0, 1, ..., N-1, 0, ...: after k
      frames from slot 0 it is k mod N. */
  lemma {:induction false} FrameSlotsCycle(pendingFrames: nat, k: nat)
    requires 1 <= pendingFrames <= U8Modulus
    ensures Advance(0, pendingFrames, k) == k % pendingFrames
  {
    if k > 0 {
      FrameSlotsCycle(pendingFrames, k - 1);
      var prev := (k - 1) % pendingFrames;
      assert Advance(0, pendingFrames, k) == NextFrame(prev, pendingFrames);
      ModSuccessor(k - 1, pendingFrames);
      var next := (prev + 1) % pendingFrames;
      assert next < U8Modulus;
      assert next % U8Modulus == next;
    }
  }

  lemma ModSuccessor(n: nat, m: nat)
    requires m >= 1
    ensures (n % m + 1) % m == (n + 1) % m
  {
    var q, r := n / m, n % m;
    assert n == q * m + r;
    if r + 1 == m {
      assert n + 1 == (q + 1) * m + 0;
      QuotientRemainder(q + 1, m, 0);
      QuotientRemainder(1, m, 0);
    } else {
      assert n + 1 == q * m + (r + 1);
      QuotientRemainder(q, m, r + 1);
      QuotientRemainder(0, m, r + 1);
    }
  }

  /** With more than 256 frames in flight the uint8_t slot wraps before reaching N: from
      slot 255 of 300 the next slot is 0, not 256. */
  lemma SlotWrapsPast255()
    ensures NextFrame(255, 300) == 0 && (255 + 1) % 300 == 256
  {
  }

  // ----------------------------------------------------------- present queue

  /** One step of the present-queue choice: a command's queue is taken only while no
      present queue has been set. */
  function PresentPick(current: Queue, candidate: Queue, presentFamilies: set<nat>): Queue
  {
    if current.apiQueue == NullHandle && candidate.familyIndex in presentFamilies then candidate else current
  }

  /** The present queue after visiting the commands' queues in order. */
  function PresentChoice(current: Queue, queues: seq<Queue>, presentFamilies: set<nat>): Queue
  {
    if |queues| == 0 then current
    else PresentPick(PresentChoice(current, queues[..|queues| - 1], presentFamilies), queues[|queues| - 1], presentFamilies)
  }

  /** The first queue whose family can present to the surface. */
  function FirstPresenting(queues: seq<Queue>, presentFamilies: set<nat>): (r: Option<nat>)
    ensures r.Some? ==> r.value < |queues| && queues[r.value].familyIndex in presentFamilies &&
                        forall j :: 0 <= j < r.value ==> queues[j].familyIndex !in presentFamilies
    ensures r.None? <==> forall j :: 0 <= j < |queues| ==> queues[j].familyIndex !in presentFamilies
  {
    if |queues| == 0 then None
    else match FirstPresenting(queues[..|queues| - 1], presentFamilies) {
      case Some(i) => Some(i)
      case None => if queues[|queues| - 1].familyIndex in presentFamilies then Some(|queues| - 1) else None
    }
  }

  /** Starting without a present queue, and with every command holding a real queue, the
      choice is the first command that can present; later ones never replace it. */
  lemma {:induction false} PresentChoiceIsFirst(current: Queue, queues: seq<Queue>, presentFamilies: set<nat>)
    requires current.apiQueue == NullHandle
    requires forall i :: 0 <= i < |queues| ==> queues[i].apiQueue != NullHandle
    ensures PresentChoice(current, queues, presentFamilies) ==
            match FirstPresenting(queues, presentFamilies) {
              case Some(i) => queues[i]
              case None => current
            }
  {
    if |queues| > 0 {
      var prefix := queues[..|queues| - 1];
      PresentChoiceIsFirst(current, prefix, presentFamilies);
    }
  }

  /** A present queue that is already set is kept. */
  lemma {:induction false} PresentChoiceKeepsSetQueue(current: Queue, queues: seq<Queue>, presentFamilies: set<nat>)
    requires current.apiQueue != NullHandle
    ensures PresentChoice(current, queues, presentFamilies) == current
  {
    if |queues| > 0 {
      PresentChoiceKeepsSetQueue(current, queues[..|queues| - 1], presentFamilies);
    }
  }

  // ------------------------------------------------------------ render setup

  predicate Supported(families: seq<QueueFamilyProperties>, kind: CommandType)
  {
    FirstQueueFamily(families, TypeBit(kind)).Some?
  }

  /** Index of the first command type no queue family supports, or the count if all are. */
  function FirstUnsupported(types: seq<CommandType>, families: seq<QueueFamilyProperties>): (r: nat)
    ensures r <= |types|
    ensures forall i :: 0 <= i < r ==> Supported(families, types[i])
    ensures r < |types| ==> !Supported(families, types[r])
  {
    if |types| == 0 || !Supported(families, types[0]) then 0
    else 1 + FirstUnsupported(types[1..], families)
  }

  // --------------------------------------------------------------- swapchain

  function PreferredFormat(useSRGB: bool): nat
  {
    if useSRGB then FormatB8G8R8A8Srgb else FormatB8G8R8A8Unorm
  }

  predicate IsPreferred(f: SurfaceFormat, useSRGB: bool)
  {
    f.format == PreferredFormat(useSRGB) && f.colorSpace == ColorSpaceSrgbNonlinear
  }

  /** The first reported format that is the preferred one in sRGB-nonlinear colour space. */
  function FirstPreferred(formats: seq<SurfaceFormat>, useSRGB: bool): (r: Option<nat>)
    ensures r.Some? ==> r.value < |formats| && IsPreferred(formats[r.value], useSRGB) &&
                        forall j :: 0 <= j < r.value ==> !IsPreferred(formats[j], useSRGB)
    ensures r.None? <==> forall j :: 0 <= j < |formats| ==> !IsPreferred(formats[j], useSRGB)
  {
    if |formats| == 0 then None
    else if IsPreferred(formats[0], useSRGB) then Some(0)
    else match FirstPreferred(formats[1..], useSRGB) {
      case Some(i) => Some(i + 1)
      case None => None
    }
  }

  /** The format CreateSwapchain settles on: the first preferred one if any (otherwise the
      format already held), then the first reported one if that is still undefined. */
  function ChosenFormat(prior: SurfaceFormat, formats: seq<SurfaceFormat>, useSRGB: bool): SurfaceFormat
    requires |formats| > 0
  {
    var picked := match FirstPreferred(formats, useSRGB) {
      case Some(i) => formats[i]
      case None => prior
    };
    if picked.format == FormatUndefined then formats[0] else picked
  }

  /** On a handle whose format is still undefined the choice is the first preferred format,
      or else the first reported one; either way one of the reported formats. */
  lemma FreshFormatChoice(prior: SurfaceFormat, formats: seq<SurfaceFormat>, useSRGB: bool)
    requires |formats| > 0 && prior.format == FormatUndefined
    ensures ChosenFormat(prior, formats, useSRGB) ==
            match FirstPreferred(formats, useSRGB) {
              case Some(i) => formats[i]
              case None => formats[0]
            }
    ensures ChosenFormat(prior, formats, useSRGB) in formats
  {
  }

  /** A format held from an earlier call survives when no preferred one is reported, even if
      it is not among the reported formats. */
  lemma HeldFormatSurvives(prior: SurfaceFormat, formats: seq<SurfaceFormat>, useSRGB: bool)
    requires |formats| > 0 && prior.format != FormatUndefined
    requires FirstPreferred(formats, useSRGB).None?
    ensures ChosenFormat(prior, formats, useSRGB) == prior
  {
  }

  /** What the command loop of RenderHandle::Setup leaves behind, with k the index of the
      first command type no queue family supports: entries 0..k are distinct new commands of
      their types, all set up except entry k, nothing recorded; entries past k are untouched. */
  ghost predicate CommandsMade(commands: seq<RenderCommand?>, resized: seq<RenderCommand?>,
                               commandTypes: seq<CommandType>, families: seq<QueueFamilyProperties>)
    reads commands
  {
    var k := FirstUnsupported(commandTypes, families);
    |commands| == |commandTypes| &&
    (forall i :: 0 <= i < |commandTypes| && i <= k ==>
       commands[i] != null && commands[i].commandType == commandTypes[i] &&
       (commands[i].isSetup <==> i < k) && commands[i].recorded == []) &&
    (forall i :: k < i < |commandTypes| && i < |resized| ==> commands[i] == resized[i]) &&
    (forall i, j :: 0 <= i < j < |commandTypes| && j <= k ==> commands[i] != commands[j])
  }

  /** The loop of RenderHandle::Setup over the (already resized) command vector: entry i
      becomes a new command of the i-th type, and the loop stops, failing, at the first
      command whose Setup fails. */
  method CreateRenderCommands(resized: seq<RenderCommand?>, commandTypes: seq<CommandType>,
                              families: seq<QueueFamilyProperties>) returns (commands: seq<RenderCommand?>, ok: bool)
    requires |resized| == |commandTypes|
    ensures CommandsMade(commands, resized, commandTypes, families)
    ensures forall i :: 0 <= i < |commands| && i <= FirstUnsupported(commandTypes, families) ==> fresh(commands[i])
    ensures ok <==> FirstUnsupported(commandTypes, families) == |commandTypes|
  {
    ghost var k := FirstUnsupported(commandTypes, families);
    commands := resized;
    var index := 0;
    while index < |commandTypes|
      invariant 0 <= index <= |commandTypes| && index <= k
      invariant |commands| == |commandTypes|
      invariant forall i :: 0 <= i < index ==>
                  commands[i] != null && fresh(commands[i]) &&
                  commands[i].commandType == commandTypes[i] && commands[i].isSetup && commands[i].recorded == []
      invariant forall i :: index <= i < |commandTypes| ==> commands[i] == resized[i]
      invariant forall i, j :: 0 <= i < j < index ==> commands[i] != commands[j]
    {
      var command, commandOk := NewCommand(commandTypes[index], families);
      assert forall i :: 0 <= i < index ==> commands[i] != command;
      commands := commands[index := command];
      if !commandOk {
        assert index == k;
        assert CommandsMade(commands, resized, commandTypes, families);
        return commands, false;
      }
      assert index < k;
      index := index + 1;
    }
    ok := true;
  }

  /** A new command of the given type, set up against the queue families: how Setup fills
      each entry of m_RenderCommands and m_SingleCommand (of type graphics). */
  method NewCommand(kind: CommandType, families: seq<QueueFamilyProperties>) returns (command: RenderCommand, ok: bool)
    ensures fresh(command) && command.commandType == kind && command.recorded == []
    ensures ok <==> Supported(families, kind)
    ensures command.isSetup <==> ok
  {
    command := new RenderCommand(kind);
    ok := command.Setup(families);
  }


  // ----------------------------------------------------------------- prepare

  predicate AllPresent(commands: seq<RenderCommand?>)
  {
    forall i :: 0 <= i < |commands| ==> commands[i] != null
  }

  /** Index of the first command that was not set up, or the count if all were. */
  function PreparedCount(commands: seq<RenderCommand?>): (r: nat)
    requires AllPresent(commands)
    reads commands
    ensures r <= |commands|
    ensures forall i :: 0 <= i < r ==> commands[i].isSetup
    ensures r < |commands| ==> !commands[r].isSetup
  {
    if |commands| == 0 || !commands[0].isSetup then 0 else 1 + PreparedCount(commands[1..])
  }

  /** The queues the commands hold, in order. */
  function QueuesOf(commands: seq<RenderCommand?>): (r: seq<Queue>)
    requires AllPresent(commands)
    reads commands
    ensures |r| == |commands| && forall i :: 0 <= i < |commands| ==> r[i] == commands[i].queue
  {
    if |commands| == 0 then [] else QueuesOf(commands[..|commands| - 1]) + [commands[|commands| - 1].queue]
  }

  /** What a render command holds, as one value. */
  datatype CommandState = CommandState(queue: Queue, commandPool: Handle, commandBuffer: Handle,
                                       isSetup: bool, recorded: seq<CommandEvent>)

  function StateOf(command: RenderCommand): CommandState
    reads command
  {
    CommandState(command.queue, command.commandPool, command.commandBuffer, command.isSetup, command.recorded)
  }

  /** RenderCommand::Prepare on a command that was set up: the device queue is fetched from
      its family, and a pool and a primary buffer are created. */
  function Prepared(state: CommandState, deviceQueue: Handle, pool: Handle, buffer: Handle): CommandState
  {
    state.(queue := state.queue.(apiQueue := deviceQueue), commandPool := pool, commandBuffer := buffer)
  }

  /** One iteration of the loop of RenderHandle::Prepare. */
  method PrepareOne(command: RenderCommand, deviceQueue: Handle, pool: Handle, buffer: Handle) returns (ok: bool)
    modifies command
    ensures ok == old(command.isSetup)
    ensures StateOf(command) == if ok then Prepared(old(StateOf(command)), deviceQueue, pool, buffer) else old(StateOf(command))
  {
    var poolInfo, allocateInfo;
    ok, poolInfo, allocateInfo := command.Prepare(deviceQueue, pool, buffer);
  }

  /** The first n queues once each has been given its device queue. */
  function PreparedQueues(queues: seq<Queue>, deviceQueues: seq<Handle>, n: nat): (r: seq<Queue>)
    requires n <= |queues| && n <= |deviceQueues|
    ensures |r| == n && forall i :: 0 <= i < n ==> r[i] == queues[i].(apiQueue := deviceQueues[i])
  {
    seq(n, i requires 0 <= i < n => queues[i].(apiQueue := deviceQueues[i]))
  }

  /** Preparing one more command offers its queue, with its device queue, to the choice. */
  lemma PresentChoiceStep(present: Queue, queues: seq<Queue>, deviceQueues: seq<Handle>, n: nat, presentFamilies: set<nat>)
    requires n < |queues| && n < |deviceQueues|
    ensures PresentChoice(present, PreparedQueues(queues, deviceQueues, n + 1), presentFamilies) ==
            PresentPick(PresentChoice(present, PreparedQueues(queues, deviceQueues, n), presentFamilies),
                        queues[n].(apiQueue := deviceQueues[n]), presentFamilies)
  {
    assert PreparedQueues(queues, deviceQueues, n + 1)[..n] == PreparedQueues(queues, deviceQueues, n);
  }

  /** The present-queue test of the loop of RenderHandle::Prepare; the surface support
      query only runs while no present queue is set. */
  method PickPresent(chosen: Queue, command: RenderCommand, presentFamilies: set<nat>) returns (next: Queue)
    ensures next == PresentPick(chosen, command.queue, presentFamilies)
  {
    next := chosen;
    if chosen.apiQueue == NullHandle {
      var canPresent := command.CanPresentSurface(presentFamilies);
      if canPresent {
        next := command.queue;
      }
    }
  }

  /** One iteration of the loop of RenderHandle::Prepare over the command list: only the
      command at `index` changes, and a prepared command's queue is offered to the
      present-queue choice. */
  method PrepareAt(commands: seq<RenderCommand?>, index: nat, deviceQueue: Handle, pool: Handle, buffer: Handle,
                   chosen: Queue, presentFamilies: set<nat>)
    returns (ok: bool, next: Queue)
    requires AllPresent(commands) && index < |commands|
    requires forall i, j :: 0 <= i < j < |commands| ==> commands[i] != commands[j]
    modifies commands[index]
    ensures ok == old(commands[index].isSetup)
    ensures StateOf(commands[index]) == if ok then Prepared(old(StateOf(commands[index])), deviceQueue, pool, buffer)
                                        else old(StateOf(commands[index]))
    ensures forall i :: 0 <= i < |commands| && i != index ==> StateOf(commands[i]) == old(StateOf(commands[i]))
    ensures ok ==> next == PresentPick(chosen, old(commands[index].queue).(apiQueue := deviceQueue), presentFamilies)
  {
    var command := commands[index];
    assert forall i :: 0 <= i < |commands| && i != index ==> commands[i] != command;
    ok := PrepareOne(command, deviceQueue, pool, buffer);
    next := chosen;
    if ok {
      next := PickPresent(chosen, command, presentFamilies);
    }
  }

  /** The loop of RenderHandle::Prepare: each command gets its device queue, pool and
      buffer, and the first one whose family can present becomes the present queue, until
      a command that was never set up stops the loop. */
  method PrepareCommands(commands: seq<RenderCommand?>, present: Queue, presentFamilies: set<nat>,
                         deviceQueues: seq<Handle>, createdPools: seq<Handle>, allocatedBuffers: seq<Handle>)
    returns (ok: bool, chosen: Queue)
    requires AllPresent(commands)
    requires forall i, j :: 0 <= i < j < |commands| ==> commands[i] != commands[j]
    requires |deviceQueues| == |commands| && |createdPools| == |commands| && |allocatedBuffers| == |commands|
    modifies commands
    ensures ok <==> old(PreparedCount(commands)) == |commands|
    ensures forall i :: 0 <= i < |commands| ==>
              StateOf(commands[i]) == if i < old(PreparedCount(commands))
                                      then Prepared(old(StateOf(commands[i])), deviceQueues[i], createdPools[i], allocatedBuffers[i])
                                      else old(StateOf(commands[i]))
    ensures chosen == PresentChoice(present, PreparedQueues(old(QueuesOf(commands)), deviceQueues, old(PreparedCount(commands))),
                                    presentFamilies)
  {
    ghost var k := PreparedCount(commands);
    ghost var before := QueuesOf(commands);
    ghost var prepared: seq<Queue> := [];
    chosen := present;
    var index := 0;
    while index < |commands|
      invariant k == old(PreparedCount(commands)) && before == old(QueuesOf(commands))
      invariant 0 <= index <= k
      invariant forall i :: 0 <= i < index ==>
                  StateOf(commands[i]) == Prepared(old(StateOf(commands[i])), deviceQueues[i], createdPools[i], allocatedBuffers[i])
      invariant forall i :: index <= i < |commands| ==> StateOf(commands[i]) == old(StateOf(commands[i]))
      invariant |prepared| == index && forall i :: 0 <= i < index ==> prepared[i] == before[i].(apiQueue := deviceQueues[i])
      invariant chosen == PresentChoice(present, prepared, presentFamilies)
    {
      ghost var queue := before[index].(apiQueue := deviceQueues[index]);
      var commandOk, next := PrepareAt(commands, index, deviceQueues[index], createdPools[index], allocatedBuffers[index],
                                       chosen, presentFamilies);
      if !commandOk {
        assert index == k;
        assert prepared == PreparedQueues(before, deviceQueues, k);
        return false, chosen;
      }
      chosen := next;
      assert (prepared + [queue])[..index] == prepared;
      prepared := prepared + [queue];
      index := index + 1;
    }
    assert index == k;
    assert prepared == PreparedQueues(before, deviceQueues, k);
    ok := true;
  }

  /** The fence and semaphore loop of RenderHandle::Prepare: every slot gets its objects. */
  method CreateFrameSync(fences: seq<Handle>, acquireSemaphores: seq<Handle>, presentSemaphores: seq<Handle>,
                         pendingFrames: nat,
                         fenceHandles: seq<Handle>, acquireHandles: seq<Handle>, presentHandles: seq<Handle>)
    returns (newFences: seq<Handle>, newAcquire: seq<Handle>, newPresent: seq<Handle>)
    requires |fences| == pendingFrames && |acquireSemaphores| == pendingFrames && |presentSemaphores| == pendingFrames
    requires |fenceHandles| == pendingFrames && |acquireHandles| == pendingFrames && |presentHandles| == pendingFrames
    ensures newFences == fenceHandles && newAcquire == acquireHandles && newPresent == presentHandles
  {
    newFences, newAcquire, newPresent := fences, acquireSemaphores, presentSemaphores;
    var frameIndex := 0;
    while frameIndex < pendingFrames
      invariant 0 <= frameIndex <= pendingFrames
      invariant |newFences| == pendingFrames && |newAcquire| == pendingFrames && |newPresent| == pendingFrames
      invariant forall f :: 0 <= f < frameIndex ==>
                  newFences[f] == fenceHandles[f] && newAcquire[f] == acquireHandles[f] && newPresent[f] == presentHandles[f]
    {
      newFences := newFences[frameIndex := fenceHandles[frameIndex]];
      newAcquire := newAcquire[frameIndex := acquireHandles[frameIndex]];
      newPresent := newPresent[frameIndex := presentHandles[frameIndex]];
      frameIndex := frameIndex + 1;
    }
  }

  // ------------------------------------------------------- swapchain helpers

  /** The usage test of CreateSwapchain: the requested usage masked with the supported
      flags, and whether the mask removed no bit. */
  method MaskUsage(swapchainUsage: bv32, supportedUsage: bv32) returns (imageUsage: bv32, ok: bool)
    ensures ok <==> FlagsSupported(swapchainUsage, supportedUsage)
    ensures ok ==> imageUsage == swapchainUsage
  {
    imageUsage := swapchainUsage & supportedUsage;
    MaskKeepsSupportedFlags(swapchainUsage, supportedUsage);
    ok := imageUsage == swapchainUsage;
  }

  /** The VkImageViewType values, the texture format and the memory property the uploads use. */
  const ViewType2D: nat := 1
  const ViewTypeCube: nat := 3
  const FormatR8G8B8A8Unorm: nat := 37
  const MemoryDeviceLocal: bv32 := 1

  /** The format loop of RenderHandle::CreateSwapchain: the first preferred format, else the
      format already held, then the first reported one if that is still undefined. */
  method PickSurfaceFormat(prior: SurfaceFormat, formats: seq<SurfaceFormat>, useSRGB: bool) returns (chosen: SurfaceFormat)
    requires |formats| > 0
    ensures chosen == ChosenFormat(prior, formats, useSRGB)
  {
    var preferredFormat := PreferredFormat(useSRGB);
    chosen := prior;
    var formatIndex := 0;
    while formatIndex < |formats|
      invariant 0 <= formatIndex <= |formats|
      invariant chosen == prior
      invariant forall j :: 0 <= j < formatIndex ==> !IsPreferred(formats[j], useSRGB)
    {
      var current := formats[formatIndex];
      if current.format == preferredFormat && current.colorSpace == ColorSpaceSrgbNonlinear {
        chosen := current;
        break;
      }
      formatIndex := formatIndex + 1;
    }
    if chosen.format == FormatUndefined {
      chosen := formats[0];
    }
  }

  /** RenderHandle::CreateImageViews: fails, leaving the output as it was, on an empty image
      list; otherwise one view per image, each created from the shared view info with that
      image filled in. The view handles the driver returns are a parameter. */
  method CreateImageViews(images: seq<Handle>, viewType: nat, format: nat, subRange: SubresourceRange,
                          createdViews: seq<Handle>, priorViews: seq<Handle>)
    returns (ok: bool, views: seq<Handle>, infos: seq<ImageViewCreateInfo>)
    requires |createdViews| == |images|
    ensures ok <==> |images| > 0
    ensures !ok ==> views == priorViews && infos == []
    ensures ok ==> views == createdViews && |infos| == |images| &&
                   forall i :: 0 <= i < |images| ==> infos[i] == ImageViewCreateInfo(viewType, format, subRange, images[i])
  {
    if |images| == 0 {
      return false, priorViews, [];
    }
    views := Resize(priorViews, |images|, NullHandle);
    var info := ImageViewCreateInfo(viewType, format, subRange, NullHandle);
    infos := [];
    var imageIndex := 0;
    while imageIndex < |images|
      invariant 0 <= imageIndex <= |images|
      invariant |views| == |images| && |infos| == imageIndex
      invariant info.viewType == viewType && info.format == format && info.subRange == subRange
      invariant forall i :: 0 <= i < imageIndex ==>
                  views[i] == createdViews[i] && infos[i] == ImageViewCreateInfo(viewType, format, subRange, images[i])
    {
      info := info.(image := images[imageIndex]);
      infos := infos + [info];
      views := views[imageIndex := createdViews[imageIndex]];
      imageIndex := imageIndex + 1;
    }
    ok := true;
  }

  /** RenderHandle::CreateSampler: one sampler per image from the same create info; it
      never fails. */
  method CreateSampler(imagesCount: nat, createdSamplers: seq<Handle>, priorSamplers: seq<Handle>)
    returns (ok: bool, samplers: seq<Handle>)
    requires |createdSamplers| == imagesCount
    ensures ok && samplers == createdSamplers
  {
    samplers := Resize(priorSamplers, imagesCount, NullHandle);
    var imageIndex := 0;
    while imageIndex < imagesCount
      invariant 0 <= imageIndex <= imagesCount
      invariant |samplers| == imagesCount
      invariant forall i :: 0 <= i < imageIndex ==> samplers[i] == createdSamplers[i]
    {
      samplers := samplers[imageIndex := createdSamplers[imageIndex]];
      imageIndex := imageIndex + 1;
    }
    ok := true;
  }

  /** What the driver returns for one image: the created image, its memory requirements and
      the memory Device::AllocateMemory obtains for it. */
  datatype ImageAllocation = ImageAllocation(image: Handle, requirementsSize: nat, memoryTypeBits: bv32, memory: Handle)

  /** RenderHandle::CreateImages: both outputs are resized to imagesCount, and each image
      gets memory of the requested properties through Device::AllocateMemory. That call
      never reports a failure, so the early return of the loop is never taken. */
  method CreateImages(device: Devices.Device, memoryType: bv32, imagesCount: nat, created: seq<ImageAllocation>,
                      priorImages: seq<Handle>, priorMemories: seq<Handle>)
    returns (ok: bool, images: seq<Handle>, memories: seq<Handle>, allocations: seq<Devices.MemoryAllocateInfo>)
    requires |device.memoryPropertiesFlags| <= Devices.MaxMemoryTypes
    requires |created| == imagesCount
    ensures ok
    ensures |images| == imagesCount && |memories| == imagesCount && |allocations| == imagesCount
    ensures forall i :: 0 <= i < imagesCount ==>
              images[i] == created[i].image && memories[i] == created[i].memory &&
              allocations[i].allocationSize == created[i].requirementsSize &&
              (Devices.AnySuitable(device.memoryPropertiesFlags, created[i].memoryTypeBits, memoryType) ==>
                 allocations[i].memoryTypeIndex < |device.memoryPropertiesFlags| &&
                 Devices.MemoryTypeSuitable(device.memoryPropertiesFlags, created[i].memoryTypeBits, memoryType,
                                            allocations[i].memoryTypeIndex))
  {
    images := Resize(priorImages, imagesCount, NullHandle);
    memories := Resize(priorMemories, imagesCount, NullHandle);
    allocations := [];
    var imageIndex := 0;
    while imageIndex < imagesCount
      invariant 0 <= imageIndex <= imagesCount
      invariant |images| == imagesCount && |memories| == imagesCount && |allocations| == imageIndex
      invariant forall i :: 0 <= i < imageIndex ==>
                  images[i] == created[i].image && memories[i] == created[i].memory &&
                  allocations[i].allocationSize == created[i].requirementsSize &&
                  (Devices.AnySuitable(device.memoryPropertiesFlags, created[i].memoryTypeBits, memoryType) ==>
                     allocations[i].memoryTypeIndex < |device.memoryPropertiesFlags| &&
                     Devices.MemoryTypeSuitable(device.memoryPropertiesFlags, created[i].memoryTypeBits, memoryType,
                                                allocations[i].memoryTypeIndex))
    {
      var allocation := created[imageIndex];
      images := images[imageIndex := allocation.image];
      var allocateOk, info := device.AllocateMemory(allocation.requirementsSize, allocation.memoryTypeBits, memoryType);
      memories := memories[imageIndex := allocation.memory];
      allocations := allocations + [info];
      imageIndex := imageIndex + 1;
    }
    ok := true;
  }

  /** The staging buffer of an upload: a transfer-source byte buffer of `size` bytes filled
      from the start of `data`. */
  method Stage(size: nat, data: seq<byte>, handles: (Handle, Handle)) returns (staging: Buffers.Buffer)
    requires size <= |data|
    ensures fresh(staging)
    ensures staging.buffer == handles.0 && staging.memory == handles.1
    ensures staging.size == size && staging.createInfo == Buffers.BufferCreateInfoOf(Buffers.TransferSource, size)
    ensures staging.contents == data[..size]
  {
    staging := new Buffers.Buffer.Static(Buffers.TransferSource, 1, size, handles.0, handles.1);
    staging.UpdateData(data);
  }

  /** The skybox's staging buffer: `size` bytes, the face chunks copied in with the chunked
      overload of UpdateData; `overrun` reports a chunk that ran past the `size` bytes. */
  method StageChunks(size: nat, chunks: seq<seq<byte>>, handles: (Handle, Handle))
    returns (staging: Buffers.Buffer, overrun: bool)
    ensures fresh(staging)
    ensures overrun <==> !Buffers.ChunksFit(chunks, size)
    ensures staging.buffer == handles.0 && staging.memory == handles.1
    ensures staging.size == size && staging.createInfo == Buffers.BufferCreateInfoOf(Buffers.TransferSource, size)
    ensures staging.contents == Buffers.ChunkedWrite(seq(size, _ => 0), chunks, |chunks|)
  {
    staging := new Buffers.Buffer.Static(Buffers.TransferSource, 1, size, handles.0, handles.1);
    overrun := staging.UpdateChunks(chunks);
  }

  /** Six faces of one common byte size k, staged in a buffer of their total size, all fit
      and lie end to end in face order. */
  lemma EqualFacesStageInOrder(chunks: seq<seq<byte>>, k: nat)
    requires |chunks| == FaceCount && forall face :: 0 <= face < FaceCount ==> |chunks[face]| == k
    requires FaceCount * k < U32Modulus
    ensures Buffers.ChunksFit(chunks, FaceCount * k)
    ensures Buffers.ChunkedWrite(seq(FaceCount * k, _ => 0), chunks, FaceCount) == Buffers.Concat(chunks)
  {
    var memory: seq<byte> := seq(FaceCount * k, _ => 0);
    Buffers.EqualChunksConcatenate(memory, chunks, k, FaceCount);
    assert chunks[..FaceCount] == chunks;
    assert k * FaceCount == |memory|;
  }

  /** The six face pixel vectors, in face order, as PrepareSkybox lists them. */
  function FaceChunks(textures: seq<Texture>): (r: seq<seq<byte>>)
    requires |textures| == FaceCount
    reads textures
    ensures |r| == FaceCount && forall face :: 0 <= face < FaceCount ==> r[face] == textures[face].pixels
  {
    [textures[0].pixels, textures[1].pixels, textures[2].pixels,
     textures[3].pixels, textures[4].pixels, textures[5].pixels]
  }

  // --------------------------------------------------------------- the class

  class RenderHandle {
    var surface: Handle
    var surfaceFormat: SurfaceFormat
    var swapchain: Handle
    var swapchainImages: seq<Handle>
    var swapchainImageViews: seq<Handle>
    var swapchainWidth: nat
    var swapchainHeight: nat
    var doubleBuffering: bool

    var renderCommands: seq<RenderCommand?>
    var singleCommand: RenderCommand?
    var presentQueue: Queue

    var fences: seq<Handle>
    ghost var fenceStates: seq<FenceState>
    var acquireSemaphores: seq<Handle>
    var presentSemaphores: seq<Handle>

    /** m_PendingFrames: not initialised by the C++ constructor; 0 here. */
    var pendingFrames: nat
    /** m_CurrentFrame, a uint8_t. */
    var currentFrame: nat
    var currentSwapchainImage: nat
    /** Between BeginRender and EndRender. */
    ghost var recording: bool
    /** Every fence, swapchain and queue call of the frame protocol, oldest first. */
    var frameCalls: seq<FrameEvent>

    constructor ()
      ensures surface == NullHandle && swapchain == NullHandle
      ensures surfaceFormat.format == FormatUndefined
      ensures swapchainImages == [] && swapchainImageViews == []
      ensures renderCommands == [] && singleCommand == null && presentQueue == DefaultQueue
      ensures fences == [] && fenceStates == [] && acquireSemaphores == [] && presentSemaphores == []
      ensures pendingFrames == 0 && currentFrame == 0 && !recording && frameCalls == []
    {
      surface := NullHandle;
      swapchain := NullHandle;
      surfaceFormat := SurfaceFormat(FormatUndefined, 0);
      swapchainImages := [];
      swapchainImageViews := [];
      renderCommands := [];
      singleCommand := null;
      presentQueue := DefaultQueue;
      fences := [];
      fenceStates := [];
      acquireSemaphores := [];
      presentSemaphores := [];
      pendingFrames := 0;
      currentFrame := 0;
      recording := false;
      frameCalls := [];
    }

    /** The state the frame loop runs in: N >= 1 slots with a fence, two semaphores and a
        distinct command each; outside a frame no fence is reset-and-unsubmitted, so waiting
        on the current slot's fence always returns, and inside a frame exactly the current
        slot's fence is. */
    ghost predicate FramesReady()
      reads this
    {
      1 <= pendingFrames <= |renderCommands| &&
      |fences| == pendingFrames && |fenceStates| == pendingFrames &&
      |acquireSemaphores| == pendingFrames && |presentSemaphores| == pendingFrames &&
      currentFrame < pendingFrames &&
      (forall i :: 0 <= i < |renderCommands| ==> renderCommands[i] != null) &&
      (forall i, j :: 0 <= i < j < |renderCommands| ==> renderCommands[i] != renderCommands[j]) &&
      (forall f :: 0 <= f < pendingFrames && f != currentFrame ==> fenceStates[f] in {Signalled, Pending}) &&
      (if recording then fenceStates[currentFrame] == Unsignalled
       else fenceStates[currentFrame] in {Signalled, Pending})
    }

    /** The command part of RenderHandle::Setup: one render command per requested type,
        stopping at the first one no queue family supports; then the single-use graphics
        command. */
    method SetupCommands(commandTypes: seq<CommandType>, families: seq<QueueFamilyProperties>) returns (ok: bool)
      modifies this`renderCommands, this`singleCommand
      ensures CommandsMade(renderCommands, Resize(old(renderCommands), |commandTypes|, null), commandTypes, families)
      ensures forall i :: 0 <= i < |renderCommands| && i <= FirstUnsupported(commandTypes, families) ==>
                fresh(renderCommands[i])
      ensures ok <==> FirstUnsupported(commandTypes, families) == |commandTypes| && Supported(families, GraphicsOp)
      ensures ok ==> singleCommand != null && fresh(singleCommand) && singleCommand.isSetup &&
                     singleCommand.commandType == GraphicsOp && singleCommand.recorded == []
    {
      var commands, commandsOk := CreateRenderCommands(Resize(renderCommands, |commandTypes|, null), commandTypes, families);
      renderCommands := commands;
      if !commandsOk {
        return false;
      }
      var single;
      single, ok := NewCommand(GraphicsOp, families);
      singleCommand := single;
    }

    /** The end of RenderHandle::Setup: the frame count is kept and the per-frame vectors
        are resized to it. */
    method ResizeFrameVectors(frames: nat)
      modifies this`pendingFrames, this`fences, this`fenceStates, this`acquireSemaphores, this`presentSemaphores
      ensures pendingFrames == frames &&
              fences == Resize(old(fences), frames, NullHandle) &&
              fenceStates == Resize(old(fenceStates), frames, NotCreated) &&
              acquireSemaphores == Resize(old(acquireSemaphores), frames, NullHandle) &&
              presentSemaphores == Resize(old(presentSemaphores), frames, NullHandle)
      ensures unchanged(set c: RenderCommand | c in renderCommands)
    {
      pendingFrames := frames;
      fences := Resize(fences, frames, NullHandle);
      fenceStates := Resize(fenceStates, frames, NotCreated);
      acquireSemaphores := Resize(acquireSemaphores, frames, NullHandle);
      presentSemaphores := Resize(presentSemaphores, frames, NullHandle);
    }

    /** RenderHandle::Setup: the surface is kept, the commands are made as above, and when
        they all could be set up the per-frame vectors are resized to the frame count. */
    method Setup(createdSurface: Handle, commandTypes: seq<CommandType>, families: seq<QueueFamilyProperties>,
                 frames: nat) returns (ok: bool)
      modifies this`surface, this`renderCommands, this`singleCommand, this`pendingFrames,
               this`fences, this`fenceStates, this`acquireSemaphores, this`presentSemaphores
      ensures surface == createdSurface
      ensures CommandsMade(renderCommands, Resize(old(renderCommands), |commandTypes|, null), commandTypes, families)
      ensures forall i :: 0 <= i < |renderCommands| && i <= FirstUnsupported(commandTypes, families) ==>
                fresh(renderCommands[i])
      ensures ok <==> FirstUnsupported(commandTypes, families) == |commandTypes| && Supported(families, GraphicsOp)
      ensures ok ==> singleCommand != null && fresh(singleCommand) && singleCommand.isSetup &&
                     singleCommand.commandType == GraphicsOp && singleCommand.recorded == []
      ensures ok ==> pendingFrames == frames &&
                     fences == Resize(old(fences), frames, NullHandle) &&
                     fenceStates == Resize(old(fenceStates), frames, NotCreated) &&
                     acquireSemaphores == Resize(old(acquireSemaphores), frames, NullHandle) &&
                     presentSemaphores == Resize(old(presentSemaphores), frames, NullHandle)
      ensures !ok ==> pendingFrames == old(pendingFrames) && fences == old(fences) && fenceStates == old(fenceStates) &&
                      acquireSemaphores == old(acquireSemaphores) && presentSemaphores == old(presentSemaphores)
    {
      surface := createdSurface;
      ok := SetupCommands(commandTypes, families);
      if ok {
        ResizeFrameVectors(frames);
      }
    }

    /** The fence and semaphore loop of RenderHandle::Prepare, on this handle's vectors. */
    method CreateSyncObjects(fenceHandles: seq<Handle>, acquireHandles: seq<Handle>, presentHandles: seq<Handle>)
      requires |fences| == pendingFrames && |acquireSemaphores| == pendingFrames && |presentSemaphores| == pendingFrames
      requires |fenceHandles| == pendingFrames && |acquireHandles| == pendingFrames && |presentHandles| == pendingFrames
      modifies this`fences, this`fenceStates, this`acquireSemaphores, this`presentSemaphores
      ensures fences == fenceHandles && acquireSemaphores == acquireHandles && presentSemaphores == presentHandles
      ensures |fenceStates| == pendingFrames && forall f :: 0 <= f < pendingFrames ==> fenceStates[f] == Signalled
    {
      fences, acquireSemaphores, presentSemaphores :=
        CreateFrameSync(fences, acquireSemaphores, presentSemaphores, pendingFrames, fenceHandles, acquireHandles, presentHandles);
      // every fence is created from Fence::CreateInfo, which asks for it signalled
      fenceStates := seq(pendingFrames, _ => if FenceCreateInfoOf().signaled then Signalled else Unsignalled);
    }

    /** The render-command loop of RenderHandle::Prepare, on this handle's commands and
        present queue. */
    method PrepareRenderCommands(presentFamilies: set<nat>, deviceQueues: seq<Handle>, createdPools: seq<Handle>,
                                 allocatedBuffers: seq<Handle>) returns (ok: bool)
      requires AllPresent(renderCommands)
      requires forall i, j :: 0 <= i < j < |renderCommands| ==> renderCommands[i] != renderCommands[j]
      requires |deviceQueues| == |renderCommands| && |createdPools| == |renderCommands| && |allocatedBuffers| == |renderCommands|
      modifies this`presentQueue, renderCommands
      ensures ok <==> old(PreparedCount(renderCommands) == |renderCommands|)
      ensures presentQueue == old(PresentChoice(presentQueue, PreparedQueues(QueuesOf(renderCommands), deviceQueues, PreparedCount(renderCommands)),
                                                presentFamilies))
    {
      var chosen;
      ok, chosen := PrepareCommands(renderCommands, presentQueue, presentFamilies, deviceQueues, createdPools, allocatedBuffers);
      presentQueue := chosen;
    }

    /** RenderHandle::Prepare: prepares every render command (failing at the first one that
        was not set up) and picks the present queue, prepares the single-use command (its
        result is ignored), then creates each slot's fence and semaphores. */
    method Prepare(presentFamilies: set<nat>, deviceQueues: seq<Handle>, createdPools: seq<Handle>, allocatedBuffers: seq<Handle>,
                   singleQueue: Handle, singlePool: Handle, singleBuffer: Handle,
                   fenceHandles: seq<Handle>, acquireHandles: seq<Handle>, presentHandles: seq<Handle>) returns (ok: bool)
      requires AllPresent(renderCommands)
      requires forall i, j :: 0 <= i < j < |renderCommands| ==> renderCommands[i] != renderCommands[j]
      requires singleCommand != null && singleCommand !in renderCommands
      requires |deviceQueues| == |renderCommands| && |createdPools| == |renderCommands| && |allocatedBuffers| == |renderCommands|
      requires |fences| == pendingFrames && |fenceStates| == pendingFrames
      requires |acquireSemaphores| == pendingFrames && |presentSemaphores| == pendingFrames
      requires |fenceHandles| == pendingFrames && |acquireHandles| == pendingFrames && |presentHandles| == pendingFrames
      modifies this`presentQueue, this`fences, this`fenceStates, this`acquireSemaphores, this`presentSemaphores
      modifies renderCommands, singleCommand
      ensures ok <==> old(PreparedCount(renderCommands) == |renderCommands|)
      ensures presentQueue == old(PresentChoice(presentQueue, PreparedQueues(QueuesOf(renderCommands), deviceQueues, PreparedCount(renderCommands)),
                                                presentFamilies))
      ensures ok ==> fences == fenceHandles && acquireSemaphores == acquireHandles && presentSemaphores == presentHandles &&
                     |fenceStates| == pendingFrames &&
                     forall f :: 0 <= f < pendingFrames ==> fenceStates[f] == Signalled
      ensures !ok ==> fences == old(fences) && fenceStates == old(fenceStates) &&
                      acquireSemaphores == old(acquireSemaphores) && presentSemaphores == old(presentSemaphores)
      ensures ok && 1 <= pendingFrames <= |renderCommands| && currentFrame < pendingFrames && !recording ==> FramesReady()
    {
      var commandsOk := PrepareRenderCommands(presentFamilies, deviceQueues, createdPools, allocatedBuffers);
      if !commandsOk {
        return false;
      }
      var singleOk := PrepareOne(singleCommand, singleQueue, singlePool, singleBuffer);
      CreateSyncObjects(fenceHandles, acquireHandles, presentHandles);
      ok := true;
    }

    /** RenderHandle::BeginRender: wait for the current slot's fence, reset it, reset the
        slot's command buffer, acquire the next swapchain image (its index is what the
        driver returns) and begin recording. */
    method BeginRender(acquiredImage: nat)
      requires FramesReady() && !recording
      modifies this`frameCalls, this`fenceStates, this`recording, this`currentSwapchainImage, renderCommands[currentFrame]
      ensures FramesReady() && recording
      ensures currentFrame == old(currentFrame) && currentSwapchainImage == acquiredImage
      ensures old(fenceStates[currentFrame]) in {Signalled, Pending}
      ensures fenceStates == old(fenceStates)[currentFrame := Unsignalled]
      ensures frameCalls == old(frameCalls) + [WaitFence(fences[currentFrame]), ResetFence(fences[currentFrame]),
                                               AcquireImage(swapchain, acquireSemaphores[currentFrame])]
      ensures renderCommands[currentFrame].recorded ==
                old(renderCommands[currentFrame].recorded) +
                [ResetBuffer(renderCommands[currentFrame].commandBuffer), BeginBuffer(renderCommands[currentFrame].commandBuffer)]
      ensures renderCommands[currentFrame].commandBuffer == old(renderCommands[currentFrame].commandBuffer)
      ensures renderCommands[currentFrame].queue == old(renderCommands[currentFrame].queue)
    {
      var fence := fences[currentFrame];
      frameCalls := frameCalls + [WaitFence(fence), ResetFence(fence)];
      // the wait returns once the fence is signalled; the reset then unsignals it
      fenceStates := fenceStates[currentFrame := Unsignalled];
      var command := renderCommands[currentFrame];
      command.Reset();
      frameCalls := frameCalls + [AcquireImage(swapchain, acquireSemaphores[currentFrame])];
      currentSwapchainImage := acquiredImage;
      command.Begin();
      recording := true;
    }

    /** RenderHandle::EndRender: end the slot's command buffer, submit it waiting on the
        acquire semaphore and signalling the present semaphore and the slot's fence, present
        the acquired image, and move to the next slot. */
    method EndRender()
      requires FramesReady() && recording
      modifies this`frameCalls, this`fenceStates, this`recording, this`currentFrame, renderCommands[currentFrame]
      ensures FramesReady() && !recording
      ensures currentFrame == NextFrame(old(currentFrame), pendingFrames)
      ensures old(fenceStates[currentFrame]) == Unsignalled
      ensures fenceStates == old(fenceStates)[old(currentFrame) := Pending]
      ensures var f := old(currentFrame);
              var command := renderCommands[f];
              frameCalls == old(frameCalls) +
                [SubmitFrame(command.queue.apiQueue, command.commandBuffer, acquireSemaphores[f], presentSemaphores[f], fences[f]),
                 Present(presentQueue.apiQueue, swapchain, presentSemaphores[f], currentSwapchainImage)]
      ensures var command := renderCommands[old(currentFrame)];
              command.recorded == old(command.recorded) + [EndBuffer(command.commandBuffer)] &&
              command.commandBuffer == old(command.commandBuffer) && command.queue == old(command.queue)
    {
      var frame := currentFrame;
      var command := renderCommands[frame];
      command.End();
      frameCalls := frameCalls + [SubmitFrame(command.queue.apiQueue, command.commandBuffer, acquireSemaphores[frame],
                                              presentSemaphores[frame], fences[frame])];
      fenceStates := fenceStates[frame := Pending];
      frameCalls := frameCalls + [Present(presentQueue.apiQueue, swapchain, presentSemaphores[frame], currentSwapchainImage)];
      currentFrame := NextFrame(currentFrame, pendingFrames);
      recording := false;
    }

    /** RenderHandle::CreateSwapchain: fails on a surface reporting no formats; otherwise
        picks the format, takes the surface's current extent, and fails if the requested
        usage holds a bit the surface does not support. On success it records the double
        buffering choice, builds the create info (exclusive sharing), takes the swapchain's
        images and makes a 2D colour view for each. The driver's handles are parameters. */
    method CreateSwapchain(formats: seq<SurfaceFormat>, capabilities: SurfaceCapabilities, swapchainUsage: bv32,
                           useSRGB: bool, doubleBuffer: bool, createdSwapchain: Handle, images: seq<Handle>,
                           createdViews: seq<Handle>) returns (ok: bool, info: Option<SwapchainCreateInfo>)
      requires |createdViews| == |images|
      modifies this`surfaceFormat, this`swapchainWidth, this`swapchainHeight, this`doubleBuffering,
               this`swapchain, this`swapchainImages, this`swapchainImageViews
      ensures ok <==> |formats| > 0 && FlagsSupported(swapchainUsage, capabilities.supportedUsage)
      ensures |formats| == 0 ==>
                surfaceFormat == old(surfaceFormat) &&
                swapchainWidth == old(swapchainWidth) && swapchainHeight == old(swapchainHeight)
      ensures |formats| > 0 ==>
                surfaceFormat == ChosenFormat(old(surfaceFormat), formats, useSRGB) &&
                swapchainWidth == capabilities.currentWidth && swapchainHeight == capabilities.currentHeight
      ensures !ok ==> info == None && doubleBuffering == old(doubleBuffering) && swapchain == old(swapchain) &&
                      swapchainImages == old(swapchainImages) && swapchainImageViews == old(swapchainImageViews)
      ensures ok ==> info == Some(SwapchainCreateInfoOf(surface, surfaceFormat, swapchainWidth, swapchainHeight, swapchainUsage,
                                                        capabilities.currentTransform, doubleBuffer, true))
      ensures ok ==> doubleBuffering == doubleBuffer && swapchain == createdSwapchain && swapchainImages == images &&
                     swapchainImageViews == if |images| > 0 then createdViews else old(swapchainImageViews)
    {
      if |formats| == 0 {
        return false, None;
      }
      SetSurface(formats, capabilities, useSRGB);
      var imageUsage, usageOk := MaskUsage(swapchainUsage, capabilities.supportedUsage);
      if !usageOk {
        return false, None;
      }
      info := Some(SwapchainCreateInfoOf(surface, surfaceFormat, swapchainWidth, swapchainHeight, imageUsage,
                                         capabilities.currentTransform, doubleBuffer, true));
      TakeSwapchain(doubleBuffer, createdSwapchain, images, createdViews);
      ok := true;
    }

    /** The format and extent part of CreateSwapchain. */
    method SetSurface(formats: seq<SurfaceFormat>, capabilities: SurfaceCapabilities, useSRGB: bool)
      requires |formats| > 0
      modifies this`surfaceFormat, this`swapchainWidth, this`swapchainHeight
      ensures surfaceFormat == ChosenFormat(old(surfaceFormat), formats, useSRGB)
      ensures swapchainWidth == capabilities.currentWidth && swapchainHeight == capabilities.currentHeight
    {
      surfaceFormat := PickSurfaceFormat(surfaceFormat, formats, useSRGB);
      swapchainWidth, swapchainHeight := capabilities.currentWidth, capabilities.currentHeight;
    }

    /** The tail of CreateSwapchain: the swapchain, its images and one 2D colour view per
        image in the surface format. */
    method TakeSwapchain(doubleBuffer: bool, createdSwapchain: Handle, images: seq<Handle>, createdViews: seq<Handle>)
      requires |createdViews| == |images|
      modifies this`doubleBuffering, this`swapchain, this`swapchainImages, this`swapchainImageViews
      ensures doubleBuffering == doubleBuffer && swapchain == createdSwapchain && swapchainImages == images
      ensures swapchainImageViews == if |images| > 0 then createdViews else old(swapchainImageViews)
    {
      doubleBuffering := doubleBuffer;
      swapchain := createdSwapchain;
      swapchainImages := images;
      var subRange := SubresourceRangeOf(AspectColor, 1, 0, 1, 0);
      var viewsOk, views, viewInfos := CreateImageViews(swapchainImages, ViewType2D, surfaceFormat.format, subRange,
                                                        createdViews, swapchainImageViews);
      swapchainImageViews := views;
    }

    /** RenderHandle::PrepareTexture: fails on a texture without pixels. Otherwise it creates
        one device-local image with the texture's mip chain, its view and its sampler, and
        stores them in the texture; stages width*height*4 bytes (a uint32 product) of the
        pixels; records the upload with mipmap generation on the single-use command; and
        frees the pixels. The driver's handles are parameters. */
    method PrepareTexture(device: Devices.Device, texture: Texture, allocation: ImageAllocation, createdView: Handle,
                          createdSampler: Handle, stagingHandles: (Handle, Handle))
      returns (ok: bool, staging: Buffers.Buffer?)
      requires singleCommand != null
      requires |device.memoryPropertiesFlags| <= Devices.MaxMemoryTypes
      requires |texture.pixels| == 0 || Wrap32(texture.width * texture.height * 4) <= |texture.pixels|
      modifies texture, singleCommand
      ensures ok <==> old(|texture.pixels|) > 0
      ensures !ok ==> staging == null && unchanged(texture) && unchanged(singleCommand)
      ensures ok ==> texture.image == allocation.image && texture.memory == allocation.memory &&
                     texture.imageView == createdView && texture.sampler == createdSampler && texture.pixels == []
      ensures ok ==> staging != null && fresh(staging) &&
                     staging.size == Wrap32(texture.width * texture.height * 4) &&
                     staging.createInfo == Buffers.BufferCreateInfoOf(Buffers.TransferSource, staging.size) &&
                     staging.contents == old(texture.pixels)[..staging.size]
      ensures ok ==> singleCommand.recorded ==
                       old(singleCommand.recorded) +
                       SingleSubmitCommands(singleCommand.commandBuffer, singleCommand.queue.apiQueue, allocation.image,
                                            staging.buffer, texture.width, texture.height, texture.mipmapLevels,
                                            SubresourceRangeOf(AspectColor, texture.mipmapLevels, 0, 1, 0), true)
    {
      if |texture.pixels| == 0 {
        return false, null;
      }
      var subRange := SubresourceRangeOf(AspectColor, texture.mipmapLevels, 0, 1, 0);
      AttachImage(device, texture, allocation, ViewType2D, subRange, createdView, createdSampler);
      var bufferSize := Wrap32(texture.width * texture.height * 4);
      staging := Stage(bufferSize, texture.pixels, stagingHandles);
      singleCommand.SingleSubmit(texture, staging.buffer, subRange, true);
      texture.FreeTexture();
      ok := true;
    }

    /** The image steps shared by PrepareTexture and PrepareSkybox: one device-local image,
        its view of the given type over subRange and a sampler, stored in the texture. */
    method AttachImage(device: Devices.Device, texture: Texture, allocation: ImageAllocation, viewType: nat,
                       subRange: SubresourceRange, createdView: Handle, createdSampler: Handle)
      requires |device.memoryPropertiesFlags| <= Devices.MaxMemoryTypes
      modifies texture
      ensures texture.image == allocation.image && texture.memory == allocation.memory &&
              texture.imageView == createdView && texture.sampler == createdSampler
      ensures texture.pixels == old(texture.pixels)
    {
      var imagesOk, images, memories, allocations := CreateImages(device, MemoryDeviceLocal, 1, [allocation], [], []);
      var viewsOk, views, viewInfos := CreateImageViews(images, viewType, FormatR8G8B8A8Unorm, subRange, [createdView], []);
      var samplersOk, samplers := CreateSampler(1, [createdSampler], []);
      texture.image, texture.imageView, texture.memory, texture.sampler := images[0], views[0], memories[0], samplers[0];
    }

    /** The upload steps of PrepareSkybox: the six face pixel vectors go into a staging
        buffer with the chunked UpdateData, the copy into face 0's image is recorded on the
        single-use command, and every face frees its pixels. */
    method UploadSkybox(skybox: Skybox, subRange: SubresourceRange, stagingHandles: (Handle, Handle))
      returns (staging: Buffers.Buffer, overrun: bool)
      requires singleCommand != null
      requires DistinctFaces(skybox.textures)
      modifies skybox.textures, singleCommand
      ensures fresh(staging)
      ensures overrun <==> !Buffers.ChunksFit(old(FaceChunks(skybox.textures)), skybox.size)
      ensures forall face :: 0 <= face < FaceCount ==> skybox.textures[face].pixels == []
      ensures var face := skybox.textures[0];
              face.image == old(face.image) && face.memory == old(face.memory) &&
              face.imageView == old(face.imageView) && face.sampler == old(face.sampler)
      ensures staging.size == skybox.size &&
              staging.createInfo == Buffers.BufferCreateInfoOf(Buffers.TransferSource, skybox.size) &&
              staging.contents == Buffers.ChunkedWrite(seq(skybox.size, _ => 0), old(FaceChunks(skybox.textures)), FaceCount)
      ensures singleCommand.recorded ==
                old(singleCommand.recorded) +
                SingleSubmitCommands(singleCommand.commandBuffer, singleCommand.queue.apiQueue, old(skybox.textures[0].image),
                                     staging.buffer, skybox.textures[0].width, skybox.textures[0].height,
                                     skybox.textures[0].mipmapLevels, subRange, false)
    {
      var texture := skybox.textures[0];
      staging, overrun := StageChunks(skybox.size, FaceChunks(skybox.textures), stagingHandles);
      singleCommand.SingleSubmit(texture, staging.buffer, subRange, false);
      skybox.FreeTextures();
    }

    /** RenderHandle::PrepareSkybox: one device-local cube-compatible image of six layers,
        whose handles (with its cube view and sampler) go into face 0; the six face pixel
        vectors are copied into a staging buffer of the skybox's size with the chunked
        UpdateData; the upload is recorded without mipmaps on the single-use command; and
        every face frees its pixels. The source does not check that the chunks fit the
        staging memory; `overrun` reports a face that did not. */
    method PrepareSkybox(device: Devices.Device, skybox: Skybox, allocation: ImageAllocation, createdView: Handle,
                         createdSampler: Handle, stagingHandles: (Handle, Handle))
      returns (ok: bool, staging: Buffers.Buffer, overrun: bool)
      requires singleCommand != null
      requires |device.memoryPropertiesFlags| <= Devices.MaxMemoryTypes
      requires DistinctFaces(skybox.textures)
      modifies skybox.textures, singleCommand
      ensures ok && fresh(staging)
      ensures overrun <==> !Buffers.ChunksFit(old(FaceChunks(skybox.textures)), skybox.size)
      ensures var face := skybox.textures[0];
              face.image == allocation.image && face.memory == allocation.memory &&
              face.imageView == createdView && face.sampler == createdSampler
      ensures forall face :: 0 <= face < FaceCount ==> skybox.textures[face].pixels == []
      ensures staging.size == skybox.size &&
              staging.createInfo == Buffers.BufferCreateInfoOf(Buffers.TransferSource, skybox.size) &&
              staging.contents == Buffers.ChunkedWrite(seq(skybox.size, _ => 0), old(FaceChunks(skybox.textures)), FaceCount)
      ensures singleCommand.recorded ==
                old(singleCommand.recorded) +
                SingleSubmitCommands(singleCommand.commandBuffer, singleCommand.queue.apiQueue, allocation.image,
                                     staging.buffer, skybox.textures[0].width, skybox.textures[0].height,
                                     skybox.textures[0].mipmapLevels, SubresourceRangeOf(AspectColor, 1, 0, 6, 0), false)
    {
      var texture := skybox.textures[0];
      var subRange := SubresourceRangeOf(AspectColor, 1, 0, 6, 0);
      AttachImage(device, texture, allocation, ViewTypeCube, subRange, createdView, createdSampler);
      staging, overrun := UploadSkybox(skybox, subRange, stagingHandles);
      ok := true;
    }
  }
}
