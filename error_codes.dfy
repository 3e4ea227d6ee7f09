/** The diagnostics table of cl-helper.c: `cl_error_to_str` turns an OpenCL
    status code into a human-readable message.

    The numeric values of the codes live in the OpenCL headers, so a code is
    modelled by name; `Unnamed` stands for every value of `cl_int` that is not
    one of the named codes. The preprocessor conditions that add or remove
    case labels become the fields of a `BuildConfig`.
 */
module ErrorCodes {
  import opened Outcomes

  datatype Status =
    | Success
    | DeviceNotFound
    | DeviceNotAvailable
    | CompilerNotAvailable
    | MemObjectAllocationFailure
    | OutOfResources
    | OutOfHostMemory
    | ProfilingInfoNotAvailable
    | MemCopyOverlap
    | ImageFormatMismatch
    | ImageFormatNotSupported
    | BuildProgramFailure
    | MapFailure
    | InvalidValue
    | InvalidDeviceType
    | InvalidPlatform
    | InvalidDevice
    | InvalidContext
    | InvalidQueueProperties
    | InvalidCommandQueue
    | InvalidHostPtr
    | InvalidMemObject
    | InvalidImageFormatDescriptor
    | InvalidImageSize
    | InvalidSampler
    | InvalidBinary
    | InvalidBuildOptions
    | InvalidProgram
    | InvalidProgramExecutable
    | InvalidKernelName
    | InvalidKernelDefinition
    | InvalidKernel
    | InvalidArgIndex
    | InvalidArgValue
    | InvalidArgSize
    | InvalidKernelArgs
    | InvalidWorkDimension
    | InvalidWorkGroupSize
    | InvalidWorkItemSize
    | InvalidGlobalOffset
    | InvalidEventWaitList
    | InvalidEvent
    | InvalidOperation
    | InvalidGlObject
    | InvalidBufferSize
    | InvalidMipLevel
    | InvalidGlSharegroupReferenceKhr
    | MisalignedSubBufferOffset
    | ExecStatusErrorForEventsInWaitList
    | InvalidGlobalWorkSize
    | Unnamed(code: int)

  /** The three preprocessor conditions of the table:
      - `nvidiaPlatform0x3001`: `CL_PLATFORM_NVIDIA` is defined and equals
        0x3001, which removes the CL_COMPILER_NOT_AVAILABLE label;
      - `glSharing`: `cl_khr_gl_sharing` is defined and at least 1;
      - `clVersion11`: `CL_VERSION_1_1` is defined. */
  datatype BuildConfig = BuildConfig(nvidiaPlatform0x3001: bool, glSharing: bool, clVersion11: bool)

  const UNKNOWN_MESSAGE := "invalid/unknown error code"

  /** The codes that have a case label of their own under `cfg`. */
  predicate Listed(e: Status, cfg: BuildConfig)
  {
    match e
    case Unnamed(_) => false
    case CompilerNotAvailable => !cfg.nvidiaPlatform0x3001
    case InvalidGlSharegroupReferenceKhr => cfg.glSharing
    case MisalignedSubBufferOffset => cfg.clVersion11
    case ExecStatusErrorForEventsInWaitList => cfg.clVersion11
    case InvalidGlobalWorkSize => cfg.clVersion11
    case _ => true
  }

  /** The message of every code, as the source spells it, whether or not the
      code's label is compiled in. */
  function Message(e: Status): (m: string)
    ensures |m| > 0
  {
    match e
    case Success => "success"
    case DeviceNotFound => "device not found"
    case DeviceNotAvailable => "device not available"
    case CompilerNotAvailable => "device compiler not available"
    case MemObjectAllocationFailure => "mem object allocation failure"
    case OutOfResources => "out of resources"
    case OutOfHostMemory => "out of host memory"
    case ProfilingInfoNotAvailable => "profiling info not available"
    case MemCopyOverlap => "mem copy overlap"
    case ImageFormatMismatch => "image format mismatch"
    case ImageFormatNotSupported => "image format not supported"
    case BuildProgramFailure => "build program failure"
    case MapFailure => "map failure"
    case InvalidValue => "invalid value"
    case InvalidDeviceType => "invalid device type"
    case InvalidPlatform => "invalid platform"
    case InvalidDevice => "invalid device"
    case InvalidContext => "invalid context"
    case InvalidQueueProperties => "invalid queue properties"
    case InvalidCommandQueue => "invalid command queue"
    case InvalidHostPtr => "invalid host ptr"
    case InvalidMemObject => "invalid mem object"
    case InvalidImageFormatDescriptor => "invalid image format descriptor"
    case InvalidImageSize => "invalid image size"
    case InvalidSampler => "invalid sampler"
    case InvalidBinary => "invalid binary"
    case InvalidBuildOptions => "invalid build options"
    case InvalidProgram => "invalid program"
    case InvalidProgramExecutable => "invalid program executable"
    case InvalidKernelName => "invalid kernel name"
    case InvalidKernelDefinition => "invalid kernel definition"
    case InvalidKernel => "invalid kernel"
    case InvalidArgIndex => "invalid arg index"
    case InvalidArgValue => "invalid arg value"
    case InvalidArgSize => "invalid arg size"
    case InvalidKernelArgs => "invalid kernel args"
    case InvalidWorkDimension => "invalid work dimension"
    case InvalidWorkGroupSize => "invalid work group size"
    case InvalidWorkItemSize => "invalid work item size"
    case InvalidGlobalOffset => "invalid global offset"
    case InvalidEventWaitList => "invalid event wait list"
    case InvalidEvent => "invalid event"
    case InvalidOperation => "invalid operation"
    case InvalidGlObject => "invalid gl object"
    case InvalidBufferSize => "invalid buffer size"
    case InvalidMipLevel => "invalid mip level"
    case InvalidGlSharegroupReferenceKhr => "invalid gl sharegroup reference number"
    case MisalignedSubBufferOffset => "misaligned sub-buffer offset"
    case ExecStatusErrorForEventsInWaitList => "exec status error for events in wait list"
    case InvalidGlobalWorkSize => "invalid global work size"
    case Unnamed(_) => UNKNOWN_MESSAGE
  }

  /** `cl_error_to_str`: CL_SUCCESS reads "success", and every code without a
      case label of its own under `cfg` (an unnamed value, or a named code
      whose label is compiled out) reads the default message. */
  function ErrorToStr(e: Status, cfg: BuildConfig): (s: string)
    ensures e == Status.Success ==> s == "success"
    ensures !Listed(e, cfg) ==> s == UNKNOWN_MESSAGE
  {
    if Listed(e, cfg) then Message(e) else UNKNOWN_MESSAGE
  }

  /** Reads a message back to the code it names: the inverse of the table.
      It looks at the length first, so that a message is compared only with
      the few messages of the same length. */
  function MessageToStatus(s: string): Option<Status>
  {
    match |s|
    case 7 =>
      if s == "success" then Some(Status.Success)
      else None
    case 11 =>
      if s == "map failure" then Some(MapFailure)
      else None
    case 13 =>
      if s == "invalid value" then Some(InvalidValue)
      else if s == "invalid event" then Some(InvalidEvent)
      else None
    case 14 =>
      if s == "invalid device" then Some(InvalidDevice)
      else if s == "invalid binary" then Some(InvalidBinary)
      else if s == "invalid kernel" then Some(InvalidKernel)
      else None
    case 15 =>
      if s == "invalid context" then Some(InvalidContext)
      else if s == "invalid sampler" then Some(InvalidSampler)
      else if s == "invalid program" then Some(InvalidProgram)
      else None
    case 16 =>
      if s == "device not found" then Some(DeviceNotFound)
      else if s == "out of resources" then Some(OutOfResources)
      else if s == "mem copy overlap" then Some(MemCopyOverlap)
      else if s == "invalid platform" then Some(InvalidPlatform)
      else if s == "invalid host ptr" then Some(InvalidHostPtr)
      else if s == "invalid arg size" then Some(InvalidArgSize)
      else None
    case 17 =>
      if s == "invalid arg index" then Some(InvalidArgIndex)
      else if s == "invalid arg value" then Some(InvalidArgValue)
      else if s == "invalid operation" then Some(InvalidOperation)
      else if s == "invalid gl object" then Some(InvalidGlObject)
      else if s == "invalid mip level" then Some(InvalidMipLevel)
      else None
    case 18 =>
      if s == "out of host memory" then Some(OutOfHostMemory)
      else if s == "invalid mem object" then Some(InvalidMemObject)
      else if s == "invalid image size" then Some(InvalidImageSize)
      else None
    case 19 =>
      if s == "invalid device type" then Some(InvalidDeviceType)
      else if s == "invalid kernel name" then Some(InvalidKernelName)
      else if s == "invalid kernel args" then Some(InvalidKernelArgs)
      else if s == "invalid buffer size" then Some(InvalidBufferSize)
      else None
    case 20 =>
      if s == "device not available" then Some(DeviceNotAvailable)
      else None
    case 21 =>
      if s == "image format mismatch" then Some(ImageFormatMismatch)
      else if s == "build program failure" then Some(BuildProgramFailure)
      else if s == "invalid command queue" then Some(InvalidCommandQueue)
      else if s == "invalid build options" then Some(InvalidBuildOptions)
      else if s == "invalid global offset" then Some(InvalidGlobalOffset)
      else None
    case 22 =>
      if s == "invalid work dimension" then Some(InvalidWorkDimension)
      else if s == "invalid work item size" then Some(InvalidWorkItemSize)
      else None
    case 23 =>
      if s == "invalid work group size" then Some(InvalidWorkGroupSize)
      else if s == "invalid event wait list" then Some(InvalidEventWaitList)
      else None
    case 24 =>
      if s == "invalid queue properties" then Some(InvalidQueueProperties)
      else if s == "invalid global work size" then Some(InvalidGlobalWorkSize)
      else None
    case 25 =>
      if s == "invalid kernel definition" then Some(InvalidKernelDefinition)
      else None
    case 26 =>
      if s == "image format not supported" then Some(ImageFormatNotSupported)
      else if s == "invalid program executable" then Some(InvalidProgramExecutable)
      else None
    case 28 =>
      if s == "profiling info not available" then Some(ProfilingInfoNotAvailable)
      else if s == "misaligned sub-buffer offset" then Some(MisalignedSubBufferOffset)
      else None
    case 29 =>
      if s == "device compiler not available" then Some(CompilerNotAvailable)
      else if s == "mem object allocation failure" then Some(MemObjectAllocationFailure)
      else None
    case 31 =>
      if s == "invalid image format descriptor" then Some(InvalidImageFormatDescriptor)
      else None
    case 38 =>
      if s == "invalid gl sharegroup reference number" then Some(InvalidGlSharegroupReferenceKhr)
      else None
    case 41 =>
      if s == "exec status error for events in wait list" then Some(ExecStatusErrorForEventsInWaitList)
      else None
    case _ => None
  }

  /** Every listed code's message reads back to that code. */
  lemma MessageRoundTrip(e: Status, cfg: BuildConfig)
    requires Listed(e, cfg)
    ensures MessageToStatus(ErrorToStr(e, cfg)) == Some(e)
  {
    if e in {Status.Success, DeviceNotFound, DeviceNotAvailable, CompilerNotAvailable, MemObjectAllocationFailure, OutOfResources, OutOfHostMemory} {
      RoundTripSlice0(e);
    } else if e in {ProfilingInfoNotAvailable, MemCopyOverlap, ImageFormatMismatch, ImageFormatNotSupported, BuildProgramFailure, MapFailure, InvalidValue} {
      RoundTripSlice1(e);
    } else if e in {InvalidDeviceType, InvalidPlatform, InvalidDevice, InvalidContext, InvalidQueueProperties, InvalidCommandQueue, InvalidHostPtr} {
      RoundTripSlice2(e);
    } else if e in {InvalidMemObject, InvalidImageFormatDescriptor, InvalidImageSize, InvalidSampler, InvalidBinary, InvalidBuildOptions, InvalidProgram} {
      RoundTripSlice3(e);
    } else if e in {InvalidProgramExecutable, InvalidKernelName, InvalidKernelDefinition, InvalidKernel, InvalidArgIndex, InvalidArgValue, InvalidArgSize} {
      RoundTripSlice4(e);
    } else if e in {InvalidKernelArgs, InvalidWorkDimension, InvalidWorkGroupSize, InvalidWorkItemSize, InvalidGlobalOffset, InvalidEventWaitList, InvalidEvent} {
      RoundTripSlice5(e);
    } else if e in {InvalidOperation, InvalidGlObject, InvalidBufferSize, InvalidMipLevel, InvalidGlSharegroupReferenceKhr, MisalignedSubBufferOffset, ExecStatusErrorForEventsInWaitList} {
      RoundTripSlice6(e);
    } else {
      RoundTripSlice7(e);
    }
  }

  /** No two listed codes share a message. */
  lemma ListedMessagesDistinct(e1: Status, e2: Status, cfg: BuildConfig)
    requires Listed(e1, cfg) && Listed(e2, cfg) && e1 != e2
    ensures ErrorToStr(e1, cfg) != ErrorToStr(e2, cfg)
  {
    MessageRoundTrip(e1, cfg);
    MessageRoundTrip(e2, cfg);
  }

  /** The table is total: every code, listed or not, gets a non-empty
      message, and a listed code never gets the default one. */
  lemma ErrorToStrTotal(e: Status, cfg: BuildConfig)
    ensures |ErrorToStr(e, cfg)| > 0
    ensures Listed(e, cfg) <==> ErrorToStr(e, cfg) != UNKNOWN_MESSAGE
  {
    if Listed(e, cfg) {
      MessageRoundTrip(e, cfg);
      assert MessageToStatus(UNKNOWN_MESSAGE) == None;
    }
  }

  // The round trip, seven case labels at a time in the order of the
  // source's switch: Dafny proves each slice unaided, but the whole table
  // in one proof obligation is close to the verifier's resource limit.

  lemma RoundTripSlice0(e: Status)
    requires e in {
        Status.Success, DeviceNotFound, DeviceNotAvailable,
        CompilerNotAvailable, MemObjectAllocationFailure, OutOfResources,
        OutOfHostMemory}
    ensures MessageToStatus(Message(e)) == Some(e)
  {
  }

  lemma RoundTripSlice1(e: Status)
    requires e in {
        ProfilingInfoNotAvailable, MemCopyOverlap, ImageFormatMismatch,
        ImageFormatNotSupported, BuildProgramFailure, MapFailure,
        InvalidValue}
    ensures MessageToStatus(Message(e)) == Some(e)
  {
  }

  lemma RoundTripSlice2(e: Status)
    requires e in {
        InvalidDeviceType, InvalidPlatform, InvalidDevice,
        InvalidContext, InvalidQueueProperties, InvalidCommandQueue,
        InvalidHostPtr}
    ensures MessageToStatus(Message(e)) == Some(e)
  {
  }

  lemma RoundTripSlice3(e: Status)
    requires e in {
        InvalidMemObject, InvalidImageFormatDescriptor, InvalidImageSize,
        InvalidSampler, InvalidBinary, InvalidBuildOptions,
        InvalidProgram}
    ensures MessageToStatus(Message(e)) == Some(e)
  {
  }

  lemma RoundTripSlice4(e: Status)
    requires e in {
        InvalidProgramExecutable, InvalidKernelName, InvalidKernelDefinition,
        InvalidKernel, InvalidArgIndex, InvalidArgValue,
        InvalidArgSize}
    ensures MessageToStatus(Message(e)) == Some(e)
  {
  }

  lemma RoundTripSlice5(e: Status)
    requires e in {
        InvalidKernelArgs, InvalidWorkDimension, InvalidWorkGroupSize,
        InvalidWorkItemSize, InvalidGlobalOffset, InvalidEventWaitList,
        InvalidEvent}
    ensures MessageToStatus(Message(e)) == Some(e)
  {
  }

  lemma RoundTripSlice6(e: Status)
    requires e in {
        InvalidOperation, InvalidGlObject, InvalidBufferSize,
        InvalidMipLevel, InvalidGlSharegroupReferenceKhr, MisalignedSubBufferOffset,
        ExecStatusErrorForEventsInWaitList}
    ensures MessageToStatus(Message(e)) == Some(e)
  {
  }

  lemma RoundTripSlice7(e: Status)
    requires e in {
        InvalidGlobalWorkSize}
    ensures MessageToStatus(Message(e)) == Some(e)
  {
  }
}
