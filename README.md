# OpenCL radix-8 FFT host program: a Dafny model

The program computes a fast Fourier transform on an OpenCL device. The host
side in `clfft.c` selects a device and uploads the input into one of two
device buffers, `cl_src`. It then runs `logN / 3` radix-8 Stockham passes,
ping-ponging between `cl_src` and `cl_dst`, and reads the result back.
The helper library `cl-helper.c` supplies three routines:

- a status-code-to-message table;
- a line reader for standard input whose block grows by doubling;
- a routine that picks the `idx`-th device whose platform vendor and
  device name contain the given filters, and creates a context and a
  command queue on it.

The model has these modules:

- `ErrorCodes` (error_codes.dfy): `cl_error_to_str` as a function over
  symbolic status codes and a build configuration. It is proved a partial
  bijection onto its messages.
- `LineReader` (line_reader.dfy): `read_a_line` as a method over a
  heap `array`. The input stream and the allocator's successes are
  parameters. It comes in two versions, as written and corrected (see
  Findings).
- `DeviceSelect` (device_select.dfy): `create_context_on` as a nested
  loop. It is specified by the rank of the chosen device among the
  qualifying devices. It also covers the runtime queries the walk makes
  that fail on the inputs: a name too long for the 1000-byte query
  buffer, and the device list of a platform with no devices. The same
  module models `print_devices`, which `clFFT` calls first. It makes the
  same kinds of query about every platform and every device, so it decides
  whether `clFFT` gets as far as selecting a device.
- `FftPipeline` (fft_pipeline.dfy): `swap`, `stockham` and `clFFT` as
  the methods of class `Fft`. Its fields are the globals the C file
  updates: `N`, `in`, `out`, the contents of the two buffers, and a log
  of runtime calls. The buffer contents are symbolic: a value records
  what was uploaded and which passes have been applied to it.
- `Powers` (powers.dfy): powers of 2 and 8, and the integer `log2`.
- `NameBuffer` (name_buffer.dfy): `MAX_NAME_LEN`, the size of the name
  buffers.
- `Outcomes` (outcomes.dfy): `Option` and `Result`.

Several external influences become parameters:

- the bytes on standard input;
- which allocation fails;
- the platform and device lists the runtime reports.

The FFT driver's calls that create, fill, dispatch on, read and release
buffers and kernels are recorded as events rather than executed. The
platform and device queries of `print_devices` and `create_context_on`
are not recorded. They decide only whether `clFFT` aborts or goes on, and
with which device.

## Model

| member | source | states |
|---|---|---|
| ErrorCodes.ErrorToStr | cl-helper.c:36-102 | CL_SUCCESS reads "success"; every code without a case label under the build configuration reads the default "invalid/unknown error code" |
| ErrorCodes.Message | cl-helper.c:40-97 | every message in the table is non-empty |
| ErrorCodes.MessageRoundTrip | cl-helper.c:36-102 | every code with a case label maps to a message that reads back to that code (the table is injective on its labels) |
| ErrorCodes.ListedMessagesDistinct | cl-helper.c:40-97 | two different labelled codes never share a message |
| ErrorCodes.ErrorToStrTotal | cl-helper.c:38-101 | every code gets a non-empty message, and a code gets the default message exactly when it has no label under the configuration |
| Powers.Log2Floor | clfft.c:86 | `(int) log2(N)` for N >= 1 is the unique k with 2^k <= N < 2^(k+1) |
| Powers.Log2FloorUnique | clfft.c:86 | any k with 2^k <= N < 2^(k+1) is that logarithm |
| LineReader.LineLength | cl-helper.c:117-139 | the reader keeps at most the whole remaining input |
| LineReader.LineLengthStops | cl-helper.c:117-139 | the kept line has no newline before its last character, and it stops short of end of input only right after a newline |
| LineReader.GrowthsBounds | cl-helper.c:111-126 | after Growths(n) doublings of the 1000-byte block, n characters and the '\0' fit, and one doubling fewer would not |
| LineReader.Realloc | cl-helper.c:125 | `realloc` yields a fresh block of the requested size that starts with the old block's bytes |
| LineReader.ReadALine | cl-helper.c:108-142 | as written: for a line of fewer than 2000 characters it returns the line plus '\0'; it returns NULL exactly when the first malloc fails, or when the line reaches 1000 characters and the first realloc fails; it stores past the end of the 2000-byte block exactly when that realloc succeeds and the line has 2000 or more characters |
| LineReader.ReadALineCorrected | cl-helper.c:108-142 | with the countdown reset to the space left, no store is ever out of bounds; the result is the whole line plus '\0', and NULL comes exactly when one of the Growths(line length) allocations fails |
| LineReader.LongLineOverflows | cl-helper.c:123-126 | a 2000-character line without a newline is kept whole, so it reaches the overflowing store |
| LineReader.ReadersAgreeBelowOverflow | cl-helper.c:123-131 | below 2000 characters the two readers return NULL on exactly the same allocation failures |
| DeviceSelect.ContainsIffOccurs | cl-helper.c:174-198 | the `strstr` test holds exactly when the filter occurs at some position of the name |
| DeviceSelect.OccursContains | cl-helper.c:174-198 | an occurrence at a position makes the `strstr` test succeed |
| DeviceSelect.ContainsOccurs | cl-helper.c:174-198 | a successful `strstr` test yields a position where the filter occurs |
| DeviceSelect.EmptyNeedleContained | cl-helper.c:174-198 | an empty filter string accepts every name |
| DeviceSelect.RankWithinPlatform | cl-helper.c:190-229 | a qualifying device's position lies below the count of qualifying devices up to and including its platform |
| DeviceSelect.RankBelowTotal | cl-helper.c:166-234 | every qualifying device's position lies below the total number of qualifying devices |
| DeviceSelect.RankIncreasing | cl-helper.c:166-230 | positions grow strictly in platform-major, device-minor order, so distinct qualifying devices have distinct positions |
| DeviceSelect.SkippedDevicesDoNotCount | cl-helper.c:198-229 | a device advances the count by one exactly when it qualifies |
| DeviceSelect.AllDevicesMatch | cl-helper.c:198 | with a NULL device filter every device of a platform qualifies |
| DeviceSelect.NoFiltersMatchAllBefore | cl-helper.c:174-198 | with both filters NULL, every device on the first n platforms qualifies |
| DeviceSelect.NoFiltersMatchAll | cl-helper.c:174-198 | with both filters NULL, the qualifying devices are all devices of all platforms |
| DeviceSelect.PlatformNameIgnored | cl-helper.c:170-174 | only the vendor string and the device names decide the selection, not the platform name |
| DeviceSelect.CreateContextOn | cl-helper.c:149-240 | it succeeds exactly when idx is below the number of qualifying devices and no query the walk makes fails; then the chosen device qualifies and exactly idx qualifying devices precede it, and profiling is on exactly when enable_profiling is non-zero; a failure is a failed query exactly when the walk reaches one, else "device not found" |
| DeviceSelect.PrintDevices | cl-helper.c:324-364 | the listing aborts exactly when some platform has a name that does not fit the 1000-byte buffer, reports no devices, or has a device whose name does not fit |
| FftPipeline.ListingAbortsBeforeSelection | clfft.c:114-118 | a platform without devices aborts `clFFT` in the listing, even when device selection alone would succeed |
| DeviceSelect.PlatformFaultAborts | cl-helper.c:166-187 | a reached platform whose vendor name does not fit, or whose vendor passes and which has no devices or a device whose name does not fit, aborts the walk |
| DeviceSelect.DeviceFaultAborts | cl-helper.c:190-195 | a device name that does not fit, queried before the idx-th qualifying device is found, aborts the walk |
| DeviceSelect.ChosenWithoutFaults | cl-helper.c:198-225 | once the idx-th qualifying device is reached without a failed query, the walk returns and makes no further query |
| DeviceSelect.EmptyPlatformAborts | cl-helper.c:174-187 | a vendor-matching platform with no devices aborts the walk even when a later platform holds a qualifying device |
| FftPipeline.PassEvent | clfft.c:96-102 | pass t reads one buffer and writes the other, with block size 8^t, thread_count work items and work groups of 512 |
| FftPipeline.PassEvents | clfft.c:96-105 | the pass loop issues exactly one dispatch per turn |
| FftPipeline.InRoleAlternates | clfft.c:96-105 | each turn hands the input role to the other buffer |
| FftPipeline.SwapTwice | clfft.c:71-75 | swapping twice restores both pointers, and swapping changes no buffer and no call |
| FftPipeline.DispatchWritesOut | clfft.c:97-102 | a dispatch writes one more pass over `*in` into `*out` and leaves `*in` and the roles alone |
| FftPipeline.AfterPassesFacts | clfft.c:91-105 | after k turns `*in` holds all k passes over the uploaded input, `*out` holds the input of the last pass, and the log has grown by the k dispatches |
| FftPipeline.StockhamOutcome | clfft.c:77-111 | after `stockham` the kernel was built, `logN / 3` passes ran with N / 8 threads, the queue was drained, `*in` holds the fully transformed input and `*out` the one before it |
| FftPipeline.Fft.constructor | clfft.c:15-19 | the globals start with no data in either buffer and no calls made |
| FftPipeline.Fft.Swap | clfft.c:71-75 | `*in` and `*out` trade places and nothing else changes |
| FftPipeline.Fft.Enqueue | clfft.c:97-102 | the dispatch writes one pass over `*in` into `*out` and is logged with its arguments |
| FftPipeline.Fft.Stockham | clfft.c:77-111 | the new state is the kernel build, the pass loop and the final `clFinish` applied to the old one; `block_size *= 8` never leaves the range of `int` |
| FftPipeline.Fft.ReadBack | clfft.c:141-146 | the host receives the named buffer's contents, followed by a `clFinish` |
| FftPipeline.Fft.ReleaseAll | clfft.c:149-153 | both buffers, the kernel, the queue and the context are released in that order |
| FftPipeline.Fft.Prepare | clfft.c:114-139 | the device listing first, then device selection with the device string as the platform filter and index 0, without profiling; failure exactly when the listing aborts, device selection fails (no platform vendor matches, or a query on the way fails) or N <= 0, with the first of these as the cause; otherwise buffer creation, upload into `cl_src` and `stockham` |
| FftPipeline.Fft.ClFft | clfft.c:114-154 | as written: failure exactly when the listing aborts, selection fails or N <= 0; otherwise the host gets what `*out` holds after the passes (nothing written for fewer than 8 points, else the input of the last pass), with the complete call sequence |
| FftPipeline.Fft.ClFftCorrected | clfft.c:114-154 | the same failure condition as `ClFft`; otherwise reading back `*in` gives the host the input with all `logN / 3` passes applied, with the complete call sequence |
| FftPipeline.PassCountBounds | clfft.c:86-96 | the number of passes is floor(log base 8 of N): 8^p <= N < 8^(p+1) |
| FftPipeline.PassCountUnique | clfft.c:86-96 | any p with 8^p <= N < 8^(p+1) is the number of passes |
| FftPipeline.PassCountOfPow8 | clfft.c:86-96 | N = 8^k takes exactly k passes |
| FftPipeline.NoPassesBelowEight | clfft.c:86-96 | fewer than 8 points run no pass |
| FftPipeline.BlockSizeFits | clfft.c:87-104 | every block size, including the one left after the last pass, is at most N |
| FftPipeline.PassEventsAt | clfft.c:96-105 | entry t of the dispatch log is pass t |
| FftPipeline.FirstPassSrcToDst | clfft.c:91-102 | whenever a pass runs, pass 1 reads `cl_src` and writes `cl_dst` |
| FftPipeline.PassesChain | clfft.c:96-104 | every pass after the first reads what the previous one wrote and writes what it read |
| FftPipeline.LastPassWroteIn | clfft.c:96-105 | the last pass wrote the buffer `*in` names after the loop |
| FftPipeline.StaleReadBack | clfft.c:141-143 | what the as-written read-back returns is never the fully transformed input |
| FftPipeline.FourPassesReadBackThree | clfft.c:141-143 | for N = 4096 four passes run, `*out` names `cl_dst`, and the as-written read-back returns the input with only three passes applied |
| FftPipeline.FewPointsReadBackNothing | clfft.c:141-143 | for N < 8 no pass runs, and the as-written read-back returns `cl_dst`, which nothing has written |
| FftPipeline.ReleasedOnce | clfft.c:149-153 | every resource `clFFT` creates is released |
| FftPipeline.ReleasedNoneTwice | clfft.c:149-153 | no resource is released twice |

## Left out

- Aborts: `CALL_CL_GUARDED`, `CHECK_CL_ERROR` and `CHECK_SYS_ERROR` end the process when a runtime call fails. The model assumes every runtime call succeeds, except where a failure follows from the inputs. Those failures become `Failure` results:
  - in the listing of `print_devices`, any platform name or device name does not fit the 1000-byte buffer with its '\0' (the query fails instead of truncating), or any platform reports no devices;
  - no device is found;
  - a vendor or device name the selection walk queries does not fit the 1000-byte buffer;
  - a vendor-matching platform the selection walk reaches reports no devices;
  - `clCreateBuffer` rejects a size of N <= 0.
- With no platforms at all, `clGetPlatformIDs` and `malloc(0)` may themselves report an error. The model lets the listing pass and reports "device not found" instead; either way the program aborts.
- A failure of `malloc` for the platform and device handle arrays is not modelled. The runtime's platform and device handles become positions in the reported lists.
- Context and command-queue creation are recorded as a `Binding` (device position and profiling flag), not performed.
- The text `print_devices` prints is not modelled. Its queries are, because a failed query aborts the program.
- `read_file`, `kernel_from_string`, the timing code and the GFLOP/s report are not modelled. They are output and file I/O, or runtime calls whose failures the model assumes away. Building the kernel is one logged event.
- The kernels are not modelled: the float arithmetic of the radix-8 butterflies, and `naivefft` and `cooleyTukey`. Buffer contents are symbolic: the input plus the list of passes applied.
- main.c is not part of this model.
- `free` of the line block and of the platform and device arrays is not modelled.
- `clFFT` is declared to return `int` but returns nothing. The model returns the data read back.
- FftPipeline.Fft.constructor: `in` and `out` are NULL in C until `stockham` sets them. The model starts them on `cl_src` and `cl_dst`, the values `stockham` gives them, since nothing reads them before that.
- FftPipeline.Fft.Stockham: requires N >= 1. `clFFT` reaches `stockham` only after both buffers were created, which needs N >= 1. For N <= 0, converting `log2(N)` to `int` is undefined in C.
- `log2(N)` is computed in floating point. The model uses the exact integer floor of the logarithm, which equals the rounded-down floating-point result for every positive 32-bit N.
- The runtime checks that the global size N / 8 is a multiple of the work-group size 512. That check is not modelled, and the dispatch is recorded with both sizes.
- LineReader.ReadALine: a store past the end of the block is reported as an `OutOfBounds` outcome and not performed. C leaves it undefined.

## Findings

| source | as written | input that shows it | evidently intended | confidence | as-written member | corrected member |
|---|---|---|---|---|---|---|
| cl-helper.c:123-126 | after a doubling the countdown `len` is reset to the whole new capacity `lenmax`, not to the space left, so the second doubling would come only after 3000 characters | 2000 characters without a newline, then end of input, with both allocations succeeding: the terminating '\0' is stored at index 2000 of the 2000-byte block | reset `len` to the old capacity, the number of bytes just added, so that the block doubles whenever it is full | high (not executed) | LineReader.ReadALine (with LineReader.LongLineOverflows) | LineReader.ReadALineCorrected |
| clfft.c:141-143 | the result is read back from `*out`, but the swap at the end of each pass leaves `*in` on the buffer the last pass wrote | N = 4096 = 8^4, which the work-group size of 512 admits: four passes run and the last one writes `cl_src`. `out` then names `cl_dst`, which holds only three passes, and the host receives that. (For N < 8 no pass runs, and the host receives the never-written `cl_dst`.) | read back from `*in` | medium (not executed; the kernel source is not part of this model, and the kernel is assumed to write its second argument) | FftPipeline.Fft.ClFft (with FftPipeline.StaleReadBack and FftPipeline.FourPassesReadBackThree) | FftPipeline.Fft.ClFftCorrected |
