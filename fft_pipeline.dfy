/** The host side of clfft.c: `swap`, the radix-8 Stockham pass driver
    `stockham`, and `clFFT`, which selects a device, uploads the input,
    runs the passes and reads the result back.

    The process-wide globals of the C file (`N`, `in`, `out`, and the two
    buffers `cl_src` and `cl_dst`) become the fields of class `Fft`. What
    the OpenCL runtime does is abstracted: a buffer holds symbolic `Data`
    (what was uploaded and which passes have been applied to it), and every
    runtime call the driver makes is appended to `log` as an `Event`.
 */
module FftPipeline {
  import opened Outcomes
  import opened Powers
  import DeviceSelect

  /** C's 32-bit `int`. */
  newtype int32 = x: int | -0x8000_0000 <= x < 0x8000_0000

  /** The two device buffers: `cl_src` and `cl_dst`. */
  datatype Slot = Src | Dst

  function Other(s: Slot): (o: Slot)
    ensures o != s
  {
    if s == Src then Dst else Src
  }

  /** Symbolic buffer contents: never written, the host input as uploaded,
      or the output of one radix-8 pass with the given block size applied
      to earlier contents. */
  datatype Data = Uninitialized | HostInput | Stage(prev: Data, blockSize: int)

  /** `d` after passes with block sizes 1, 8, ..., 8^(k-1). */
  function Transformed(d: Data, k: nat): Data
  {
    if k == 0 then d else Stage(Transformed(d, k - 1), Pow8(k - 1))
  }

  /** The number of passes whose results a buffer holds. */
  function Depth(d: Data): nat
  {
    if d.Stage? then 1 + Depth(d.prev) else 0
  }

  lemma {:induction false} DepthOfTransformed(d: Data, k: nat)
    ensures Depth(Transformed(d, k)) == Depth(d) + k
  {
    if k > 0 {
      DepthOfTransformed(d, k - 1);
    }
  }

  datatype Handle = Buffer(slot: Slot) | Kernel | Queue | Context

  /** The runtime calls the driver makes, in the order it makes them. */
  datatype Event =
    | CreateBuffer(created: Slot)
    | WriteBuffer(written: Slot)
    | BuildKernel(name: string)
    | Dispatch(input: Slot, output: Slot, blockSize: int, threadCount: int, globalSize: int, localSize: int)
    | Finish
    | ReadBuffer(read: Slot)
    | Release(handle: Handle)

  const KERNEL_NAME := "fft_radix8"

  /** The work-group size of every dispatch. */
  const LOCAL_SIZE := 512

  /** `logN / 3` with `logN = (int) log2(N)`. */
  function PassCount(n: nat): nat
    requires n >= 1
  {
    Log2Floor(n) / 3
  }

  /** Dispatch number `t`, counting from zero: even passes read `cl_src` and
      write `cl_dst`, odd passes the other way round. */
  function PassEvent(t: nat, threadCount: int): (e: Event)
    ensures e.Dispatch? && e.input != e.output
    ensures e.blockSize == Pow8(t)
    ensures e.threadCount == e.globalSize == threadCount && e.localSize == LOCAL_SIZE
  {
    Dispatch(InRoleAfter(t), Other(InRoleAfter(t)), Pow8(t), threadCount, threadCount, LOCAL_SIZE)
  }

  /** The first `p` dispatches of the pass loop. */
  function PassEvents(p: nat, threadCount: int): (es: seq<Event>)
    ensures |es| == p
  {
    if p == 0 then [] else PassEvents(p - 1, threadCount) + [PassEvent(p - 1, threadCount)]
  }

  /** The buffer `in` names after `p` passes: `cl_src` after an even
      number, `cl_dst` after an odd one. */
  function InRoleAfter(p: nat): Slot
  {
    if p % 2 == 0 then Src else Dst
  }

  /** Each pass hands the roles over. */
  lemma InRoleAlternates(p: nat)
    ensures InRoleAfter(p + 1) == Other(InRoleAfter(p))
  {
  }

  /** The resources `clFFT` frees, in the order it frees them. */
  const RELEASE_ORDER: seq<Event> :=
    [Release(Buffer(Src)), Release(Buffer(Dst)), Release(Kernel), Release(Queue), Release(Context)]

  datatype FftError =
    | ListingFailed        // print_devices aborts on a failed query
    | SelectFailed(cause: DeviceSelect.SelectError)  // create_context_on aborts
    | BufferRejected       // clCreateBuffer refuses a size of 0 or less and the program aborts

  /** What the pass loop changes: the buffers `in` and `out` name, the
      contents of `cl_src` and `cl_dst`, and the runtime calls so far. */
  datatype Pipeline = Pipeline(inRole: Slot, outRole: Slot, src: Data, dst: Data, log: seq<Event>)

  function Holds(s: Pipeline, slot: Slot): Data
  {
    if slot == Src then s.src else s.dst
  }

  /** `swap(&in, &out)` on the state. */
  function Swapped(s: Pipeline): Pipeline
  {
    s.(inRole := s.outRole, outRole := s.inRole)
  }

  /** One dispatch of the radix-8 kernel with arguments `*in`, `*out`,
      `block_size` and `thread_count`, `thread_count` work items in groups
      of LOCAL_SIZE: the `out` buffer receives one more pass over the `in`
      buffer, and the call is logged. */
  function Dispatched(s: Pipeline, blockSize: int, threadCount: int): Pipeline
  {
    var stage := Stage(Holds(s, s.inRole), blockSize);
    var logged := s.log + [Dispatch(s.inRole, s.outRole, blockSize, threadCount, threadCount, LOCAL_SIZE)];
    if s.outRole == Src then s.(src := stage, log := logged) else s.(dst := stage, log := logged)
  }

  /** The state after `k` turns of the pass loop started in `s`: dispatch
      with block size 8^(t-1), then swap. */
  function AfterPasses(s: Pipeline, k: nat, threadCount: int): Pipeline
  {
    if k == 0 then s else Swapped(Dispatched(AfterPasses(s, k - 1, threadCount), Pow8(k - 1), threadCount))
  }

  /** Swapping twice restores the roles; swapping touches nothing else. */
  lemma SwapTwice(s: Pipeline)
    ensures Swapped(Swapped(s)) == s
    ensures Swapped(s).src == s.src && Swapped(s).dst == s.dst && Swapped(s).log == s.log
  {
  }

  /** A dispatch writes its `out` buffer and leaves its `in` buffer and the
      roles alone. */
  lemma DispatchWritesOut(s: Pipeline, blockSize: int, threadCount: int)
    requires s.inRole != s.outRole
    ensures var r := Dispatched(s, blockSize, threadCount);
            && r.inRole == s.inRole && r.outRole == s.outRole
            && Holds(r, s.outRole) == Stage(Holds(s, s.inRole), blockSize)
            && Holds(r, s.inRole) == Holds(s, s.inRole)
  {
  }

  /** The pass loop started with `in` on `cl_src` and `out` on `cl_dst`:
      after `k` turns `in` holds all `k` passes over the original `cl_src`,
      `out` holds the input of the last pass (the untouched `cl_dst` when
      there was none), and the log has grown by the `k` dispatches. */
  lemma {:induction false} AfterPassesFacts(s: Pipeline, k: nat, threadCount: int)
    requires s.inRole == Src && s.outRole == Dst
    ensures var r := AfterPasses(s, k, threadCount);
            && r.inRole == InRoleAfter(k) && r.outRole == Other(r.inRole)
            && Holds(r, r.inRole) == Transformed(s.src, k)
            && Holds(r, r.outRole) == (if k == 0 then s.dst else Transformed(s.src, k - 1))
            && r.log == s.log + PassEvents(k, threadCount)
  {
    if k > 0 {
      AfterPassesFacts(s, k - 1, threadCount);
      InRoleAlternates(k - 1);
      var before := AfterPasses(s, k - 1, threadCount);
      DispatchWritesOut(before, Pow8(k - 1), threadCount);
    }
  }

  /** The effect of `stockham` for N = n: the kernel is built, `in` and
      `out` are pointed at `cl_src` and `cl_dst`, `logN / 3` turns of the
      pass loop run with `N / 8` threads, and the queue is drained. */
  function StockhamRun(s: Pipeline, n: nat): Pipeline
    requires n >= 1
  {
    var started := s.(inRole := Src, outRole := Dst, log := s.log + [BuildKernel(KERNEL_NAME)]);
    var finished := AfterPasses(started, PassCount(n), n / 8);
    finished.(log := finished.log + [Finish])
  }

  /** After `stockham`, `in` holds the result of all passes over the
      original `cl_src` and `out` holds the input of the last pass (the
      untouched `cl_dst` when there was none); the log has grown by the
      kernel build, the dispatches and the final `clFinish`. */
  lemma StockhamOutcome(s: Pipeline, n: nat)
    requires n >= 1
    ensures var r := StockhamRun(s, n);
            var p := PassCount(n);
            && r.log == s.log + [BuildKernel(KERNEL_NAME)] + PassEvents(p, n / 8) + [Finish]
            && r.inRole == InRoleAfter(p) && r.outRole == Other(r.inRole)
            && Holds(r, r.inRole) == Transformed(s.src, p)
            && Holds(r, r.outRole) == (if p == 0 then s.dst else Transformed(s.src, p - 1))
  {
    var started := s.(inRole := Src, outRole := Dst, log := s.log + [BuildKernel(KERNEL_NAME)]);
    AfterPassesFacts(started, PassCount(n), n / 8);
  }

  class Fft {
    var n: int32          // N
    var inRole: Slot      // *in
    var outRole: Slot     // *out
    var srcData: Data     // contents of cl_src
    var dstData: Data     // contents of cl_dst
    var log: seq<Event>

    function State(): Pipeline
      reads this
    {
      Pipeline(inRole, outRole, srcData, dstData, log)
    }

    function Contents(s: Slot): Data
      reads this
    {
      Holds(State(), s)
    }

    /** The globals before `clFFT`. In C `in` and `out` are NULL until
        `stockham` points them at the buffers; nothing dereferences them
        before that, so they start here on the values `stockham` gives them. */
    constructor ()
      ensures n == 0 && State() == Pipeline(Src, Dst, Uninitialized, Uninitialized, [])
    {
      n := 0;
      inRole, outRole := Src, Dst;
      srcData, dstData := Uninitialized, Uninitialized;
      log := [];
    }

    /** `swap(&in, &out)`: the two roles trade places and nothing else
        changes. */
    method Swap()
      modifies this
      ensures State() == Swapped(old(State())) && n == old(n)
    {
      var temp := inRole;
      inRole := outRole;
      outRole := temp;
    }

    /** One `clEnqueueNDRangeKernel` of the radix-8 kernel. */
    method Enqueue(blockSize: int32, threadCount: int32)
      modifies this
      ensures State() == Dispatched(old(State()), blockSize as int, threadCount as int) && n == old(n)
    {
      log := log + [Dispatch(inRole, outRole, blockSize as int, threadCount as int, threadCount as int, LOCAL_SIZE)];
      var stage := Stage(Contents(inRole), blockSize as int);
      if outRole == Src {
        srcData := stage;
      } else {
        dstData := stage;
      }
    }

    /** `stockham`: build the kernel, point `in` at `cl_src` and `out` at
        `cl_dst`, run `logN / 3` turns of dispatch-then-swap with block
        sizes 1, 8, 64, ... and `N / 8` threads, then wait for the queue. */
    method Stockham()
      modifies this
      requires 1 <= n
      ensures n == old(n) && State() == StockhamRun(old(State()), n as nat)
    {
      log := log + [BuildKernel(KERNEL_NAME)];
      var logN := Log2Floor(n as nat) as int32;
      var blockSize: int32 := 1;
      var threadCount := n / 8;
      inRole, outRole := Src, Dst;
      ghost var started := State();
      var t: int32 := 1;
      ghost var done: nat := 0;   // passes run so far
      while t <= logN / 3
        invariant n == old(n) && threadCount == n / 8 && logN as int == Log2Floor(n as nat)
        invariant done == t as int - 1 <= PassCount(n as nat)
        invariant blockSize as int == Pow8(done)
        invariant State() == AfterPasses(started, done, threadCount as int)
      {
        Enqueue(blockSize, threadCount);
        Swap();
        BlockSizeFits(n as nat, done + 1);
        blockSize := blockSize * 8;
        t := t + 1;
        done := done + 1;
      }
      log := log + [Finish];
    }

    /** `clEnqueueReadBuffer` of `s` into the host array, then `clFinish`. */
    method ReadBack(s: Slot) returns (d: Data)
      modifies this
      ensures d == Contents(s)
      ensures State() == old(State()).(log := old(log) + [ReadBuffer(s), Finish]) && n == old(n)
    {
      d := Contents(s);
      log := log + [ReadBuffer(s), Finish];
    }

    /** The releases at the end of `clFFT`. */
    method ReleaseAll()
      modifies this
      ensures State() == old(State()).(log := old(log) + RELEASE_ORDER) && n == old(n)
    {
      log := log + RELEASE_ORDER;
    }

    /** Everything `clFFT` does before reading back: set `N`, list the
        platforms and devices, select the
        first device of the first platform whose vendor contains `device`,
        create both buffers, upload the input into `cl_src`, and run
        `stockham`. */
    method Prepare(platforms: seq<DeviceSelect.Platform>, device: Option<string>, count: int32)
      returns (r: Result<DeviceSelect.Binding, FftError>)
      modifies this
      ensures n == count
      ensures r.Failure? <==> DeviceSelect.ListingFaults(platforms) || !Selects(platforms, device) || count <= 0
      ensures r.Failure? ==> r.error == (if DeviceSelect.ListingFaults(platforms) then ListingFailed
                                         else if DeviceSelect.Faults(platforms, device, None, 0) then SelectFailed(DeviceSelect.QueryFailed)
                                         else if !Selects(platforms, device) then SelectFailed(DeviceSelect.DeviceNotFound)
                                         else BufferRejected)
      ensures r.Failure? ==> State() == old(State())
      ensures r.Success? ==> !r.value.profiling
      ensures r.Success? ==> DeviceSelect.IsMatch(platforms, device, None, r.value.platform, r.value.device)
      ensures r.Success? ==> DeviceSelect.Rank(platforms, device, None, r.value.platform, r.value.device) == 0
      ensures r.Success? ==> 1 <= count && State() == StockhamRun(Uploaded(old(State())), count as nat)
    {
      n := count;
      var listingFailed := DeviceSelect.PrintDevices(platforms);
      if listingFailed {
        return Failure(ListingFailed);
      }
      var selected := DeviceSelect.CreateContextOn(platforms, device, None, 0, 0);
      if selected.Failure? {
        return Failure(SelectFailed(selected.error));
      }
      if n <= 0 {
        return Failure(BufferRejected);
      }
      ghost var before := State();
      srcData, dstData := Uninitialized, Uninitialized;
      log := log + [CreateBuffer(Src), CreateBuffer(Dst)];
      srcData := HostInput;
      log := log + [WriteBuffer(Src), Finish];
      assert State() == Uploaded(before);
      Stockham();
      r := Success(selected.value);
    }

    /** `clFFT` as written: the result is read back from `*out`, which after
        the final swap names the buffer the last pass read, not the one it
        wrote. */
    method ClFft(platforms: seq<DeviceSelect.Platform>, device: Option<string>, count: int32)
      returns (r: Result<Data, FftError>)
      modifies this
      ensures r.Failure? <==> DeviceSelect.ListingFaults(platforms) || !Selects(platforms, device) || count <= 0
      ensures r.Success? ==> r.value == AsWrittenOutput(PassCount(count as nat))
      ensures r.Success? ==> log == old(log) + Upload() + [BuildKernel(KERNEL_NAME)]
                                   + PassEvents(PassCount(count as nat), count as nat / 8) + [Finish]
                                   + [ReadBuffer(Other(InRoleAfter(PassCount(count as nat)))), Finish]
                                   + RELEASE_ORDER
    {
      ghost var initial := State();
      var prepared := Prepare(platforms, device, count);
      if prepared.Failure? {
        return Failure(prepared.error);
      }
      StockhamOutcome(Uploaded(initial), count as nat);
      var output := ReadBack(outRole);
      ReleaseAll();
      return Success(output);
    }

    /** `clFFT` reading back from `*in`, the buffer the last pass wrote: the
        host receives the input with every pass applied. */
    method ClFftCorrected(platforms: seq<DeviceSelect.Platform>, device: Option<string>, count: int32)
      returns (r: Result<Data, FftError>)
      modifies this
      ensures r.Failure? <==> DeviceSelect.ListingFaults(platforms) || !Selects(platforms, device) || count <= 0
      ensures r.Success? ==> r.value == Transformed(HostInput, PassCount(count as nat))
      ensures r.Success? ==> log == old(log) + Upload() + [BuildKernel(KERNEL_NAME)]
                                   + PassEvents(PassCount(count as nat), count as nat / 8) + [Finish]
                                   + [ReadBuffer(InRoleAfter(PassCount(count as nat))), Finish]
                                   + RELEASE_ORDER
    {
      ghost var initial := State();
      var prepared := Prepare(platforms, device, count);
      if prepared.Failure? {
        return Failure(prepared.error);
      }
      StockhamOutcome(Uploaded(initial), count as nat);
      var output := ReadBack(inRole);
      ReleaseAll();
      return Success(output);
    }
  }

  /** `create_context_on(device, NULL, 0, ...)` finds a device: some platform
      vendor contains `device` and no runtime query on the way fails. */
  predicate Selects(platforms: seq<DeviceSelect.Platform>, device: Option<string>)
  {
    0 < DeviceSelect.TotalMatches(platforms, device, None) && !DeviceSelect.Faults(platforms, device, None, 0)
  }

  /** `print_devices` runs first and aborts on a platform without devices,
      even when device selection alone would succeed. */
  lemma ListingAbortsBeforeSelection()
    ensures var ps := [DeviceSelect.Platform("p", "X", ["gpu"]), DeviceSelect.Platform("q", "Y", [])];
            Selects(ps, Some("X")) && DeviceSelect.ListingFaults(ps)
  {
    var ps := [DeviceSelect.Platform("p", "X", ["gpu"]), DeviceSelect.Platform("q", "Y", [])];
    assert DeviceSelect.ListingFails(ps[1]);
    assert DeviceSelect.Contains("X", "X");
    assert DeviceSelect.MatchingDevices(ps[0].devices, None, 1) == 1;
    assert !DeviceSelect.Contains("Y", "X") by {
      assert "Y"[1..] == "" && "Y"[0] != "X"[0];
      assert !DeviceSelect.Contains("", "X");
    }
    assert !DeviceSelect.TooLong("X") && !DeviceSelect.TooLong("gpu");
    assert !DeviceSelect.FaultsBefore(ps, Some("X"), None, 0, 1);
    assert !DeviceSelect.FaultsBefore(ps, Some("X"), None, 0, 2);
  }

  /** The state once `clFFT` has created both buffers and uploaded the host
      input into `cl_src`. */
  function Uploaded(s: Pipeline): Pipeline
  {
    s.(src := HostInput, dst := Uninitialized, log := s.log + Upload())
  }

  /** Buffer creation and the upload of the host input. */
  function Upload(): seq<Event>
  {
    [CreateBuffer(Src), CreateBuffer(Dst), WriteBuffer(Src), Finish]
  }

  /** What `*out` holds after `p` passes: the never-written `cl_dst` when
      there were none, else the input of the last pass. */
  function AsWrittenOutput(p: nat): Data
  {
    if p == 0 then Uninitialized else Transformed(HostInput, p - 1)
  }

  /** `PassCount` is the floor of log base 8: the largest `k` with
      8^k <= n. */
  lemma PassCountBounds(n: nat)
    requires n >= 1
    ensures Pow8(PassCount(n)) <= n < Pow8(PassCount(n) + 1)
  {
    var l := Log2Floor(n);
    var k := l / 3;
    Pow8IsPow2(k);
    Pow8IsPow2(k + 1);
    Pow2Monotone(3 * k, l);
    Pow2Monotone(l + 1, 3 * (k + 1));
  }

  lemma PassCountUnique(n: nat, k: nat)
    requires n >= 1
    requires Pow8(k) <= n < Pow8(k + 1)
    ensures PassCount(n) == k
  {
    PassCountBounds(n);
    var p := PassCount(n);
    if p < k {
      Pow8Monotone(p + 1, k);
    } else if k < p {
      Pow8Monotone(k + 1, p);
    }
  }

  /** N = 8^k takes exactly k passes. */
  lemma PassCountOfPow8(k: nat)
    ensures PassCount(Pow8(k)) == k
  {
    PassCountUnique(Pow8(k), k);
  }

  /** Below 8 points no pass runs. */
  lemma NoPassesBelowEight(n: nat)
    requires 1 <= n < 8
    ensures PassCount(n) == 0
  {
    PassCountUnique(n, 0);
  }

  /** The block size of every pass, and the one left after the last
      multiplication, is at most N: `block_size *= 8` never overflows. */
  lemma BlockSizeFits(n: nat, t: nat)
    requires n >= 1 && t <= PassCount(n)
    ensures Pow8(t) <= n
  {
    PassCountBounds(n);
    Pow8Monotone(t, PassCount(n));
  }

  /** Entry `t` of the dispatch log is pass `t`. */
  lemma {:induction false} PassEventsAt(p: nat, threadCount: int, t: nat)
    requires t < p
    ensures PassEvents(p, threadCount)[t] == PassEvent(t, threadCount)
  {
    if t < p - 1 {
      PassEventsAt(p - 1, threadCount, t);
    }
  }

  /** Pass 1 reads `cl_src` and writes `cl_dst`. */
  lemma FirstPassSrcToDst(p: nat, threadCount: int)
    requires 1 <= p
    ensures var es := PassEvents(p, threadCount);
            es[0].Dispatch? && es[0].input == Src && es[0].output == Dst
  {
    PassEventsAt(p, threadCount, 0);
  }

  /** The ping-pong: every pass after the first reads the buffer the pass
      before wrote and writes the one that pass read. */
  lemma PassesChain(p: nat, threadCount: int, t: nat)
    requires t + 1 < p
    ensures var es := PassEvents(p, threadCount);
            && es[t].Dispatch? && es[t + 1].Dispatch?
            && es[t + 1].input == es[t].output
            && es[t + 1].output == es[t].input
  {
    PassEventsAt(p, threadCount, t);
    PassEventsAt(p, threadCount, t + 1);
  }

  /** After `p >= 1` passes the last one wrote the buffer `in` names, so
      `out` names the one it read. */
  lemma LastPassWroteIn(p: nat, threadCount: int)
    requires p >= 1
    ensures var last := PassEvents(p, threadCount)[p - 1];
            last.Dispatch? && last.output == InRoleAfter(p) && last.input == Other(InRoleAfter(p))
  {
    PassEventsAt(p, threadCount, p - 1);
  }

  /** The read-back of `clFFT` as written never yields the transformed
      input, whatever the number of passes. */
  lemma StaleReadBack(p: nat)
    ensures AsWrittenOutput(p) != Transformed(HostInput, p)
  {
    DepthOfTransformed(HostInput, p);
    if p > 0 {
      DepthOfTransformed(HostInput, p - 1);
    }
  }

  /** N = 4096 = 8^4: four passes run, and the as-written read-back
      returns `cl_dst` with only three of them applied. */
  lemma FourPassesReadBackThree()
    ensures PassCount(4096) == 4
    ensures AsWrittenOutput(PassCount(4096)) == Transformed(HostInput, 3)
    ensures InRoleAfter(4) == Src && Other(InRoleAfter(4)) == Dst
  {
    assert Pow8(4) == 4096;
    PassCountOfPow8(4);
  }

  /** Below 8 points no pass runs, and the as-written read-back returns
      `cl_dst`, which nothing has written. */
  lemma FewPointsReadBackNothing(n: nat)
    requires 1 <= n < 8
    ensures AsWrittenOutput(PassCount(n)) == Uninitialized
  {
    NoPassesBelowEight(n);
  }

  /** Every resource `clFFT` creates is released. */
  lemma ReleasedOnce(h: Handle)
    ensures Release(h) in RELEASE_ORDER
  {
    match h
    case Buffer(s) => assert RELEASE_ORDER[if s == Src then 0 else 1] == Release(h);
    case Kernel => assert RELEASE_ORDER[2] == Release(h);
    case Queue => assert RELEASE_ORDER[3] == Release(h);
    case Context => assert RELEASE_ORDER[4] == Release(h);
  }

  /** No resource is released twice. */
  lemma ReleasedNoneTwice()
    ensures forall i, j :: 0 <= i < j < |RELEASE_ORDER| ==> RELEASE_ORDER[i] != RELEASE_ORDER[j]
  {
  }
}
