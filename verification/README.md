# free — a Dafny model of the memory reporter

`free.go` is a small Go program in the spirit of the Unix `free` tool. It reads
the host's memory and swap counters once per sample. It divides them by a power
of 1000 or 1024 chosen by size flags. It prints them as a table, as JSON or as
YAML, once, forever at an interval, or a fixed number of times.

This project models the parts of the program that make decisions, as pure
functions over unbounded integers. Go's fixed widths are written out where they
matter:

- `machine.dfy` (`Machine`): the `uint64` counters, whose `+` and `-` wrap
  modulo 2^64, and the 64-bit `int` of `--seconds` and `--count`.
- `flags.dfy` (`Flags`): the parsed command line.
- `units.dfy` (`Units`): `getBaseExponent`, the priority chain over the
  thirteen size flags, with its default and the `--si` override. It also holds
  an independent description of the same selector: an ordered table of flags
  searched for the first one set. A lemma proves that the chain and the table
  agree on every command line.
- `sampler.dfy` (`Sampler`): the arithmetic of `gatherData`. Swap used is total
  minus free. The combined totals are memory plus swap for total, used and
  free. Both wrap as `uint64`.
- `render.dfy` (`Render`): `displayOutput` and the map building of
  `generateJSON`/`generateYAML`. The divisor is `base^exponent`. Every figure
  is divided with truncation. Output is an abstract key/value document, or the
  rows of the plain-text table. JSON takes precedence over YAML.
- `render_facts.dfy` (`RenderFacts`): JSON and YAML carry the same document,
  the table shows the document's figures, and `--bytes` is the only unscaled
  unit. It also has a worked example.
- `runloop.dfy` (`RunLoop`): the branches of `main`. A run either renders
  once, loops forever, renders `count` times with a pause between renders,
  refuses `--count` without `--seconds`, or does nothing when the values are
  negative. The two loops are methods with loop invariants. The counted loop's
  bound is computed as written, so the largest `int` count renders nothing
  (see "## Findings").

Behaviour kept as the code has it:

- `--exa` selects exponent 5, the same as `--peta` (free.go:155-159). The model
  keeps this, so the exabyte divisor is 1000^5.
- `--si` on a binary flag gives base 1000 but keeps the binary name, so
  `--gibi --si` divides by 1000^3 and reports "gibibytes".
- `gatherData` throws away the error of the operating-system query
  (free.go:176) and returns a nil error, so the error checks of `main`
  (free.go:348-351) never fire. A failed query is not modelled: the program
  would then read the fields of whatever result the query returned, which may
  be nil (free.go:178).
- The guard of the counted branch only rejects `--seconds` equal to 0, not
  every value that is not positive.
- For `--count 9223372036854775807`, the largest `int`, the counted branch is
  taken, but `opts.Count+1` wraps (free.go:369) and nothing is rendered.
  `RunLoop.Run` does the same.
- With `--count` positive and `--seconds` negative, the counted branch runs.
  Its pauses carry the negative interval. Go's `time.Sleep` returns at once for
  a negative duration.

`base` and `exponent` are `float64` in the program, and the divisor comes from
`math.Pow`. Every value the selector can produce is an exact integer: at most
1024^6 = 2^60, or 1000^6 = 10^18, which `float64` represents exactly. So the
model uses naturals, and `Render.Divisor` proves the divisor lies in
[1, 2^64).

## Model

| member | source | states |
|---|---|---|
| Machine.AddU64 | free.go:196-200 | `uint64` addition gives the exact sum when it fits below 2^64, and otherwise the sum less 2^64 |
| Machine.SubU64 | free.go:193 | `uint64` subtraction gives the exact difference when the subtrahend is not larger, and otherwise the difference plus 2^64 |
| Machine.SubUndoesAdd | free.go:196-200 | subtracting `b` after adding `b` gives back the original counter, even when the addition wrapped |
| Machine.AddUndoesSub | free.go:193 | adding `b` after subtracting `b` gives back the original counter, even when the subtraction wrapped |
| Machine.AddInt64 | free.go:369 | 64-bit signed addition is exact inside the `int` range and wraps by 2^64 above or below it |
| Units.GetBaseExponent | free.go:87-173 | for every flag combination the base is 1000 or 1024 and the exponent is at most 6; `--si` forces base 1000; the exponent is 0 exactly when `--bytes` is set |
| Units.FirstSet | free.go:95-160 | the index returned is a set flag with no set flag before it; no index is returned exactly when no flag of the order is set |
| Units.ChainIsPriorityTable | free.go:95-172 | the if/else chain equals the priority-table selector on every command line: the first set flag in the order bytes, kibi, mebi, gibi, tebi, pebi, exbi, kilo, mega, giga, tera, peta, exa decides, the default applies otherwise, then `--si` |
| Units.FirstSetFlagWins | free.go:95-170 | when the flag at priority position `i` is set and no earlier one is, the result is that flag's unit whatever lower-priority flags are also set, with only the base changed by `--si` |
| Units.NoSizeFlagGivesDefault | free.go:161-166 | with no size flag the unit is base 1024, exponent 1, "KiB", "kibi", apart from the `--si` base |
| Units.SiOnlyForcesBase | free.go:168-170 | turning `--si` on changes the base to 1000 and leaves exponent, abbreviation and prefix as the size flags alone select them |
| Sampler.GatherData | free.go:175-203 | memory counters are copied unchanged; swap total and free come from the reading; swap used plus swap free wraps back to swap total and is the exact difference when free does not exceed total; each combined total minus the swap figure gives back the memory figure, for total, used and free |
| Sampler.DerivedFiguresAreForced | free.go:190-200 | swap used and the three combined totals are the only `uint64` values for which swap used plus swap free wraps to the swap total and each total minus its swap figure gives back the memory figure |
| Sampler.ExactWhenNoWrap | free.go:190-200 | when nothing overflows, swap used is the exact difference and the totals are the exact sums |
| Render.Divisor | free.go:242 | the divisor `base^exponent` of every selectable unit lies in [1, 2^64), so no figure is divided by zero, and it is 1 exactly when the exponent is 0 |
| Render.Scale | free.go:244-256 | a displayed figure `q` is the truncated quotient of the count `x` by `d`: `q*d <= x < q*d + d`; with divisor 1 the count is unchanged |
| Render.MemoryOut | free.go:258-266 | the memory object holds exactly the keys total, used, free, active, inactive, wired and available, each the matching counter scaled by the divisor |
| Render.TripleOut | free.go:268-278 | the swap and totals objects hold exactly total, used and free, each scaled by the divisor |
| Render.StructuredDocument | free.go:205-212 | the document has the keys descriptor, memory and swap, and has the key total exactly when `--total` is set; each key holds its value |
| Render.SelectFormat | free.go:280-296 | JSON is chosen exactly when `--json` is set, YAML exactly when `--yaml` is set without `--json`, and the table otherwise |
| Render.DisplayOutput | free.go:240-321 | the output format follows that precedence; a JSON or YAML document has descriptor = prefix + "bytes", the scaled memory and swap objects, and a totals object exactly when `--total` is set; a table has the seven memory columns in header order, the swap row, and a totals row only with `--total` |
| RenderFacts.JsonAndYamlCarrySameDocument | free.go:205-231 | JSON and YAML output carry the same key/value document |
| RenderFacts.TableAgreesWithDocument | free.go:297-319 | each figure in the table equals the figure the structured document holds under that column's key, for memory, swap and totals |
| RenderFacts.DivisorIsOneIffBytes | free.go:95-99 | figures are left unscaled exactly when `--bytes` is given |
| RenderFacts.SelectedDivisor | free.go:242 | the divisor is the selected flag's base (1000 under `--si`) raised to that flag's exponent |
| RenderFacts.MebiExample | free.go:240-256 | a 16 MiB memory with 8 MiB free and 8 MiB used, plus 2 MiB of unused swap, shown with `--mebi`, gives 16, 8 and 8, and swap 2, 0 and 2, under "mebibytes", with no total key |
| RunLoop.PlanOf | free.go:346-381 | both values zero render once; positive seconds with zero count loops forever; positive count with zero seconds is the configuration error; positive count with non-zero seconds repeats `count` times; a negative count, or negative seconds with zero count, does nothing, and these cases cover all inputs and exclude each other |
| RunLoop.AlternationCounts | free.go:369-380 | a trace alternating renders and pauses of length `k` holds ceil(k/2) renders and floor(k/2) pauses |
| RunLoop.RunCount | free.go:364-381 | the counted loop renders samples 0..count-1 in order, with one pause after each render but the last: `count` renders and `count-1` pauses, ending on a render |
| RunLoop.RunForever | free.go:353-363 | over `horizon` observed iterations the endless loop renders samples 0..horizon-1 in order, each followed by a pause |
| RunLoop.FrameAt | free.go:344-352 | every render uses the unit selected once from the flags: a JSON or YAML document with descriptor = that unit's prefix + "bytes" and the figures of `GatherData(sample(i))` scaled by that unit's divisor, or the table of the same figures; JSON exactly under `--json`, YAML under `--yaml` alone |
| RunLoop.Run | free.go:346-381 | the events and exit of each branch: one render of the first sample and status 0; endless renders and pauses; in the counted branch as many renders as the as-written loop iterates, which is `count` renders with `count-1` pauses below the largest `int`, ending on a render, and status 0; the logged "--count requires --seconds" and status 1 with nothing rendered; nothing rendered and status 0 |
| RunLoop.ForeverKeepsRendering | free.go:354-363 | observing the endless loop one iteration longer extends the earlier trace by one more render and pause, so it never stops by itself |
| RunLoop.CountLoopIterationsAsWritten | free.go:369 | the loop as written runs `count` times for every count below the largest `int` |
| RunLoop.CountBoundWrapsAtMaximum | free.go:369 | for the largest `int` count the counted branch is taken, but `opts.Count+1` wraps and the loop body runs zero times |

## Left out

- The operating-system query `mem.VirtualMemory()` is a foreign call. Its readings are a parameter: `sample(i)` is the reading of the `i`-th sample, and `RunLoop.FrameAt` is what rendering it shows. A failed query is not modelled: the program discards its error (free.go:176) and would then dereference the returned result at free.go:178, which may be nil.
- JSON and YAML serialisation, the four-space indentation, and the trimming of YAML whitespace are foreign library code. Their serialisation error is also left out. The model stops at the key/value document they serialise.
- Render.DisplayOutput: figures are naturals rather than the strings `strconv.Itoa(int(x))` makes. The conversion to a signed `int`, which would print a negative number for a count of 2^63 bytes or more under `--bytes`, is not modelled.
- Column widths and the exact header text of the plain-text table are presentational. The model keeps the column names, their order and the row headings.
- `time.Sleep`, the blank line between renders, the logger and `os.Exit` are I/O and process control. They appear as `Pause`, `LogError` and `Exit` values. The overflow of `time.Duration(opts.Seconds) * time.Second` is not modelled.
- RunLoop.RunForever: the endless loop is observed for a chosen number of iterations (`horizon`), which stands for the process being stopped from outside.
- Flag parsing, the help request and the `--version` callback (free.go:323-341) are library code and process control.
- The `HighMemory` and `LowMemory` types (free.go:63-73) are never used.
- Go's `int` is taken to be 64 bits wide, as on the usual 64-bit platforms.

## Findings

| source | as written | input that shows it | evidently intended | confidence | as-written member | corrected member |
|---|---|---|---|---|---|---|
| free.go:369 | the counted loop runs while `i < opts.Count+1`, and `opts.Count+1` is a 64-bit `int` sum | `--seconds 1 --count 9223372036854775807`: the sum wraps to -2^63, so nothing is rendered although the counted branch was taken | render `count` times, as for every smaller count | not executed; follows from Go's defined wrap-around of signed integers | RunLoop.CountBoundWrapsAtMaximum | RunLoop.RunCount |
