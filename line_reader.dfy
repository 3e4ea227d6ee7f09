/** `read_a_line` of cl-helper.c: read one line from standard input into a
    heap block that starts at MAX_NAME_LEN bytes and doubles when full.

    The input stream is the sequence of characters still to be read (its end
    is EOF). Whether the C allocator succeeds is not something the program
    decides, so it is a parameter: `failingAlloc` is the number of the first
    allocation that fails (0 the initial `malloc`, k the k-th `realloc`), or
    None when none does. The reader stops at the first failure, so later
    ones do not matter.
    A store past the end of the block, which C leaves undefined, is reported
    as an `OutOfBounds` outcome instead of being performed.
 */
module LineReader {
  import opened Outcomes
  import opened NameBuffer

  datatype LineResult =
    | Line(text: seq<char>)                   // the block up to and including its '\0'
    | AllocFailed                              // NULL is returned
    | OutOfBounds(index: nat, capacity: nat)   // a store at `index` into a block of `capacity` bytes

  /** How many characters a line reader keeps from `s`: everything up to and
      including the first newline, or all of `s` when it has none. */
  function LineLength(s: seq<char>): (k: nat)
    ensures k <= |s|
  {
    if s == [] then 0
    else if s[0] == '\n' then 1
    else 1 + LineLength(s[1..])
  }

  /** The line holds no newline before its last character, and it ends early
      only at a newline. */
  lemma {:induction false} LineLengthStops(s: seq<char>)
    ensures forall i :: 0 <= i < LineLength(s) - 1 ==> s[i] != '\n'
    ensures LineLength(s) < |s| ==> 0 < LineLength(s) && s[LineLength(s) - 1] == '\n'
  {
    if s != [] && s[0] != '\n' {
      LineLengthStops(s[1..]);
      assert forall i :: 1 <= i < |s| ==> s[i] == s[1..][i - 1];
    }
  }

  /** The two facts a reader establishes when it stops pin the line length. */
  lemma LineLengthUnique(s: seq<char>, k: nat)
    requires k <= |s|
    requires forall i :: 0 <= i < k - 1 ==> s[i] != '\n'
    requires k < |s| ==> 0 < k && s[k - 1] == '\n'
    ensures LineLength(s) == k
  {
    LineLengthStops(s);
  }

  /** A reader that has seen `m` characters, none of them a newline, and is
      not at the end of the stream has not finished the line yet. */
  lemma LineLengthBeyond(s: seq<char>, m: nat)
    requires m < |s|
    requires forall i :: 0 <= i < m ==> s[i] != '\n'
    ensures m < LineLength(s)
  {
    LineLengthStops(s);
  }

  /** Allocation number `k` succeeds. */
  predicate Succeeds(failingAlloc: Option<nat>, k: nat)
  {
    failingAlloc.None? || k < failingAlloc.value
  }

  /** The size of the block after `g` doublings. */
  function Capacity(g: nat): (c: nat)
    ensures c >= MAX_NAME_LEN
  {
    if g == 0 then MAX_NAME_LEN else 2 * Capacity(g - 1)
  }

  lemma {:induction false} CapacityMonotone(a: nat, b: nat)
    requires a <= b
    ensures Capacity(a) <= Capacity(b)
  {
    if a < b {
      CapacityMonotone(a, b - 1);
    }
  }

  /** The number of doublings a block that starts at MAX_NAME_LEN bytes needs
      so that `n` characters and the terminating '\0' fit, when it grows the
      moment it becomes full. */
  function Growths(n: nat): nat
  {
    if n < MAX_NAME_LEN then 0 else 1 + Growths(n / 2)
  }

  /** After `Growths(n)` doublings the block holds `n` characters and the
      terminating '\0', and one doubling fewer would not. */
  lemma {:induction false} GrowthsBounds(n: nat)
    ensures n < Capacity(Growths(n))
    ensures Growths(n) > 0 ==> Capacity(Growths(n) - 1) <= n
  {
    if MAX_NAME_LEN <= n {
      GrowthsBounds(n / 2);
    }
  }

  lemma GrowthsUnique(n: nat, g: nat)
    requires n < Capacity(g)
    requires g > 0 ==> Capacity(g - 1) <= n
    ensures Growths(n) == g
  {
    var h := Growths(n);
    GrowthsBounds(n);
    if h < g {
      CapacityMonotone(h, g - 1);
    } else if g < h {
      CapacityMonotone(g, h - 1);
    }
  }

  lemma GrowthsExceed(n: nat, g: nat)
    requires Capacity(g) <= n
    ensures g < Growths(n)
  {
    GrowthsBounds(n);
    if Growths(n) <= g {
      CapacityMonotone(Growths(n), g);
    }
  }

  /** A reader that must grow its block for the character at `pos` needs
      more than `g` growths for the whole line. */
  lemma GrowthNeeded(input: seq<char>, pos: nat, g: nat)
    requires pos < |input|
    requires forall i :: 0 <= i < pos ==> input[i] != '\n'
    requires Capacity(g) <= pos + 1
    ensures g < Growths(LineLength(input))
  {
    LineLengthBeyond(input, pos);
    GrowthsExceed(LineLength(input), g);
  }

  /** Where the corrected reader stops: it has kept the whole line, and the
      block has grown exactly as often as that line needs. */
  lemma LineEnd(input: seq<char>, pos: nat, reallocs: nat)
    requires pos <= |input|
    requires forall i :: 0 <= i < pos - 1 ==> input[i] != '\n'
    requires pos < |input| ==> 0 < pos && input[pos - 1] == '\n'
    requires pos < Capacity(reallocs) && (reallocs > 0 ==> Capacity(reallocs) <= 2 * pos)
    ensures LineLength(input) == pos && Growths(pos) == reallocs
  {
    LineLengthUnique(input, pos);
    GrowthsUnique(pos, reallocs);
  }

  /** `realloc`: a larger block whose first bytes are those of the old one. */
  method Realloc(block: array<char>, size: nat) returns (grown: array<char>)
    requires block.Length <= size
    ensures fresh(grown) && grown.Length == size
    ensures forall i :: 0 <= i < block.Length ==> grown[i] == block[i]
  {
    grown := new char[size];
    forall i | 0 <= i < block.Length {
      grown[i] := block[i];
    }
  }

  /** `read_a_line` as written. After the first doubling (at the 1000th
      character) line 126 sets the countdown `len` to the whole new capacity
      of 2000 instead of the 1000 bytes that are left, so the next doubling
      would come only at the 3000th character: a line of 2000 or more
      characters stores past the end of the 2000-byte block. */
  method ReadALine(input: seq<char>, failingAlloc: Option<nat>) returns (r: LineResult, consumed: nat)
    ensures r.Line? ==> LineLength(input) < 2 * MAX_NAME_LEN
    ensures r.Line? ==> r.text == input[..LineLength(input)] + ['\0'] && consumed == LineLength(input)
    ensures r.AllocFailed? <==> !Succeeds(failingAlloc, 0) || (MAX_NAME_LEN <= LineLength(input) && !Succeeds(failingAlloc, 1))
    ensures r.OutOfBounds? <==> Succeeds(failingAlloc, 1) && 2 * MAX_NAME_LEN <= LineLength(input)
    ensures r.OutOfBounds? ==> r.index == r.capacity == 2 * MAX_NAME_LEN
  {
    consumed := 0;
    if !Succeeds(failingAlloc, 0) {
      return AllocFailed, consumed;
    }
    var buf := new char[MAX_NAME_LEN];
    var lenmax: nat := MAX_NAME_LEN;
    var len: nat := lenmax;
    var pos: nat := 0;       // line - linep
    var reallocs: nat := 0;  // numbers the allocation attempts
    var done := false;       // the newline has been stored
    while !done && consumed < |input|
      invariant pos == consumed <= |input|
      invariant fresh(buf) && buf.Length == lenmax
      invariant || (reallocs == 0 && lenmax == MAX_NAME_LEN && len + pos == MAX_NAME_LEN && pos < MAX_NAME_LEN)
                || (reallocs == 1 && lenmax == 2 * MAX_NAME_LEN && len + pos == 3 * MAX_NAME_LEN
                    && MAX_NAME_LEN <= pos <= 2 * MAX_NAME_LEN)
      invariant Succeeds(failingAlloc, reallocs)
      invariant forall i :: 0 <= i < pos ==> buf[i] == input[i]
      invariant forall i :: 0 <= i < pos - 1 ==> input[i] != '\n'
      invariant done <==> 0 < pos && input[pos - 1] == '\n'
    {
      var c := input[consumed];
      consumed := consumed + 1;
      len := len - 1;
      if len == 0 {
        lenmax := lenmax * 2;
        len := lenmax;
        if !Succeeds(failingAlloc, reallocs + 1) {
          LineLengthBeyond(input, pos);
          return AllocFailed, consumed;
        }
        buf := Realloc(buf, lenmax);
        reallocs := reallocs + 1;
      }
      if pos >= buf.Length {
        LineLengthBeyond(input, pos);
        return OutOfBounds(pos, buf.Length), consumed;
      }
      buf[pos] := c;
      pos := pos + 1;
      done := c == '\n';
    }
    LineLengthUnique(input, pos);
    if pos >= buf.Length {
      return OutOfBounds(pos, buf.Length), consumed;
    }
    buf[pos] := '\0';
    r := Line(buf[..pos + 1]);
  }

  /** `read_a_line` with the countdown reset to the space actually left (the
      old capacity). Every store is in bounds, whatever the length of the
      line, and the block is reallocated exactly `Growths` times. */
  method ReadALineCorrected(input: seq<char>, failingAlloc: Option<nat>) returns (r: LineResult, consumed: nat)
    ensures !r.OutOfBounds?
    ensures r.Line? ==> r.text == input[..LineLength(input)] + ['\0'] && consumed == LineLength(input)
    ensures r.AllocFailed? <==> !Succeeds(failingAlloc, Growths(LineLength(input)))
  {
    consumed := 0;
    if !Succeeds(failingAlloc, 0) {
      return AllocFailed, consumed;
    }
    var buf := new char[MAX_NAME_LEN];
    var lenmax: nat := MAX_NAME_LEN;
    var len: nat := lenmax;
    var pos: nat := 0;
    var reallocs: nat := 0;
    var done := false;
    while !done && consumed < |input|
      invariant pos == consumed <= |input|
      invariant fresh(buf) && buf.Length == lenmax == Capacity(reallocs)
      invariant len + pos == lenmax && 1 <= len
      invariant reallocs > 0 ==> lenmax <= 2 * pos
      invariant Succeeds(failingAlloc, reallocs)
      invariant forall i :: 0 <= i < pos ==> buf[i] == input[i]
      invariant forall i :: 0 <= i < pos - 1 ==> input[i] != '\n'
      invariant done <==> 0 < pos && input[pos - 1] == '\n'
    {
      var c := input[consumed];
      consumed := consumed + 1;
      len := len - 1;
      if len == 0 {
        len := lenmax;
        lenmax := lenmax * 2;
        if !Succeeds(failingAlloc, reallocs + 1) {
          GrowthNeeded(input, pos, reallocs);
          return AllocFailed, consumed;
        }
        buf := Realloc(buf, lenmax);
        reallocs := reallocs + 1;
      }
      buf[pos] := c;
      pos := pos + 1;
      done := c == '\n';
    }
    LineEnd(input, pos, reallocs);
    buf[pos] := '\0';
    assert buf[..pos + 1] == input[..pos] + ['\0'];
    r := Line(buf[..pos + 1]);
  }

  /** The input that exposes the overflow of `ReadALine`: a line of 2000
      characters without a newline. */
  lemma LongLineOverflows()
    ensures LineLength(seq(2 * MAX_NAME_LEN, _ => 'x')) == 2 * MAX_NAME_LEN
  {
    var s := seq(2 * MAX_NAME_LEN, _ => 'x');
    LineLengthUnique(s, |s|);
  }

  /** Below 2000 characters the two readers fail to allocate on the same
      inputs: no growth before the 1000th character and exactly one from
      there on. */
  lemma ReadersAgreeBelowOverflow(n: nat, failingAlloc: Option<nat>)
    requires n < 2 * MAX_NAME_LEN
    ensures !Succeeds(failingAlloc, Growths(n))
            <==> !Succeeds(failingAlloc, 0) || (MAX_NAME_LEN <= n && !Succeeds(failingAlloc, 1))
  {
    if MAX_NAME_LEN <= n {
      GrowthsUnique(n, 1);
    }
  }
}
