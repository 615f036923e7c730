# beanstalktop, modelled in Dafny

beanstalktop is a curses dashboard for a beanstalkd work-queue broker. The
program has one class, `BeanstalkTopUI`, and its loop repeats three steps:

- it reads the terminal size;
- it asks the broker for its overall statistics and for each tube's statistics;
- it draws a frame, then waits for a key or for the refresh delay.

A frame has these parts, from top to bottom:

- three summary lines of three entries each, one of them the uptime as
  `"{h}h {m}m {s}s"`;
- a blank line;
- a title row of six column headings;
- one row per tube, most ready jobs first, as many as the height leaves room
  for.

When the broker cannot be asked, the frame shows placeholders. The program
quits on `q` or `Q`, on Ctrl-C, and on a wait that fails for a reason other
than EINTR. It also stops when a header line cannot be written: its `addstr`
calls have no handler, so a `curses.error` from them ends the program.

The model is organised as follows:

- `Text`: the Python string operations the frame is built from. These are
  `ljust`, `rjust`, `' ' * n`, `''.join` and `str()` of an integer, with a
  parser proved inverse to `str()`.
- `Stats`: the broker's statistics as records, and `get_data` with its
  fallback.
- `Uptime`: `_format_uptime` and the `try`/`except` around it, with a parser
  for the uptime text as the partner that pins the rendering down.
- `Ordering`: the row order `sorted(..., key=ready)[::-1]`, as a stable
  insertion sort followed by a reversal.
- `Layout`: the frame, in two forms:
  - functions that say what every line is;
  - methods that build it with the loops of `refresh_display`, each proved to
    build exactly what the functions say.
- `LayoutFacts`: the frame's shape, proved from those functions.
- `Top`: the `BeanstalkTopUI` class with its state, `resize`, `handle_key`,
  `refresh_display` and `run`. The loop is proved against `Session`, a
  function saying how many passes a run makes and how it ends.

The world outside the program becomes parameters:

- the broker's answer is a `Reply`: either the statistics, or the failure
  that interrupted the asking, one of the three error classes `get_data`
  catches;
- each pass of the loop is a `Tick`: the terminal size it reads, the broker's
  reply, and how its wait ended (timeout, a key, a `select.error` with its
  arguments, or a keyboard interrupt).

The program is Python 2, so the model uses Python 2's rules:

- `/` on integers floors;
- a number sorts below any string;
- `divmod` floors, and for the positive divisors used here Dafny's `/` and `%`
  agree with it, negative totals included.

## Model

| member | source | states |
|---|---|---|
| Text.Spaces | beanstalktop.py:169 | `' ' * n` is exactly max(n, 0) spaces: the empty string for a zero or negative count |
| Text.Ljust | beanstalktop.py:150-151 | `s.ljust(n)` is max(len(s), n) long: it pads and never cuts |
| Text.LjustSpec | beanstalktop.py:150-151 | `ljust` keeps the string whole as a prefix and pads only with spaces |
| Text.Rjust | beanstalktop.py:164 | `s.rjust(n)` is max(len(s), n) long: it pads and never cuts |
| Text.RjustSpec | beanstalktop.py:164 | `rjust` keeps the string whole as a suffix and pads only in front, with spaces |
| Text.IntStr | beanstalktop.py:193-195 | `str()` of an integer is non-empty and made of decimal digits, with a minus sign only in front |
| Text.IntStrRoundTrip | beanstalktop.py:193-195 | `str()` of any integer, negative ones included, parses back to the same integer |
| Text.ConcatUniformLength | beanstalktop.py:150 | joining parts that are all w long gives a string w times the number of parts long |
| Text.ConcatUniformAt | beanstalktop.py:150 | in such a join, part i sits exactly at offset i * w |
| Text.SplitOnFirst | beanstalktop.py:71 | splitting at the first unit letter recovers the field in front of it and the rest of the text |
| Stats.Show | beanstalktop.py:129-139 | a value as `str.format` renders it: a number as decimal text that parses back as that number, text as itself |
| Stats.GetData | beanstalktop.py:278-281 | on success, the broker's overview and its tube rows in its order; on a TypeError, SocketError or CommandFailed, the fallback overview and exactly one placeholder row named `default` |
| Stats.PlaceholderOverview | beanstalktop.py:26-38 | every statistic of the fallback overview is `'-'`, and it has no `uptime` key |
| Stats.PlaceholderRow | beanstalktop.py:40-49 | the placeholder row is the tube `default` with `'-'` for every count |
| Stats.FallbackData | beanstalktop.py:26-49 | with the program's own fallback, every statistic is `'-'`, there is no uptime, and the one row is the placeholder row |
| Uptime.Split | beanstalktop.py:69-70 | the two `divmod`s give minutes and seconds in 0..59 that add back up, with the hours, to the total |
| Uptime.RenderRoundTrip | beanstalktop.py:71 | the `'{}h {}m {}s'` text of any hours, minutes and seconds parses back to the same three numbers |
| Uptime.ParseClockOf | beanstalktop.py:71 | any three fields that are free of their unit letters and parse as the clock's numbers make up a text that parses back as that clock |
| Uptime.FormatUptime | beanstalktop.py:68-71 | the text `_format_uptime` returns parses back as exactly the given number of seconds, for every integer |
| Uptime.FormatUptimeShape | beanstalktop.py:68-71 | the text is the rendering of the only split with minutes and seconds below 60 that adds up to the total |
| Uptime.FormatUptimeExamples | beanstalktop.py:68-71 | 3661 seconds is `"1h 1m 1s"` and 59 seconds is `"0h 0m 59s"` |
| Uptime.UptimeText | beanstalktop.py:124-127 | the uptime shown names the reported seconds when they are a number, and 0 seconds when the key is missing (the `.get` default) or holds text (`divmod` raises and the bare `except` formats 0) |
| Uptime.UptimeFallback | beanstalktop.py:124-127 | a missing or non-numeric uptime is shown as `"0h 0m 0s"` |
| Uptime.FormatUptimeZero | beanstalktop.py:127 | `_format_uptime(0)` is `"0h 0m 0s"` |
| Ordering.KeyLeTotal | beanstalktop.py:182 | the sort key order is total and transitive, and its ties are exactly equal numbers or two text values |
| Ordering.InsertPermutes | beanstalktop.py:182 | inserting a tube adds it and loses nothing |
| Ordering.InsertAscending | beanstalktop.py:182 | inserting into an ascending sequence keeps it ascending |
| Ordering.InsertTies | beanstalktop.py:182 | an inserted tube lands after every tube whose key ties with it |
| Ordering.SortAscending | beanstalktop.py:182 | `sorted` as an insertion of each tube in input order; its contract keeps the length, and the next three rows prove it a stable ascending permutation |
| Ordering.SortPermutes | beanstalktop.py:182 | `sorted` returns a permutation of the tubes |
| Ordering.SortAscends | beanstalktop.py:182 | `sorted` returns the tubes in non-decreasing ready order |
| Ordering.SortStable | beanstalktop.py:182 | `sorted` is stable: tubes with tying keys keep their input order |
| Ordering.Reverse | beanstalktop.py:182 | `[::-1]` puts element i at position n-1-i |
| Ordering.ReverseTies | beanstalktop.py:182 | reversing reverses the order within every group of ties |
| Ordering.ReversePermutes | beanstalktop.py:182 | reversing is a permutation |
| Ordering.DisplayOrder | beanstalktop.py:182 | the sort followed by `[::-1]`; its contract keeps the length, and `Ordering.DisplayOrderSpec` gives its order |
| Ordering.DisplayOrderSpec | beanstalktop.py:182 | the drawn order is a permutation of the tubes in non-increasing ready order, with tied tubes in the reverse of their input order |
| Layout.SummaryItems | beanstalktop.py:129-139 | there are nine summary entries |
| Layout.SummaryLines | beanstalktop.py:141-151 | three lines of three entries each; `LayoutFacts.SummaryShape` gives their contents |
| Layout.Cell | beanstalktop.py:161-164 | a cell is the wider of its text plus one space and the cell width: it is never cut |
| Layout.TitleRow | beanstalktop.py:155-169 | the title cells followed by `width - titlelen` spaces, at least the terminal width long |
| Layout.DataRow | beanstalktop.py:189-200 | a tube's six cells joined and left-justified to the terminal width, so at least that long |
| Layout.RowCount | beanstalktop.py:180-188 | the number of rows drawn is at most `max_lines` (none when that is not positive) and at most the number of tubes, and equals one of the two |
| Layout.ShownTubes | beanstalktop.py:180-188 | the tubes drawn, as many as `RowCount` says, taken from the front of the display order |
| Layout.Frame | beanstalktop.py:122-202 | the whole frame, five header lines plus one per row drawn |
| Layout.JoinCells | beanstalktop.py:157-167 | the column loop appends every cell in turn; the running total `titlelen` is the length of what was appended |
| Layout.PadLine | beanstalktop.py:149-151 | a summary line is its entries, each left-justified to the summary width, joined, then left-justified to the terminal width |
| Layout.BuildSummary | beanstalktop.py:141-151 | the summary loop draws exactly the three summary lines, at a summary width of a third of the terminal width |
| Layout.BuildTitle | beanstalktop.py:155-169 | the title loop draws the title cells followed by `width - titlelen` spaces of filler |
| Layout.BuildDataRow | beanstalktop.py:189-200 | a tube's row is its six column cells, left-justified to the terminal width |
| Layout.BuildRows | beanstalktop.py:180-202 | the row loop draws one row per tube in display order, stopping at `max_lines` or when the tubes run out |
| Layout.BuildFrame | beanstalktop.py:122-202 | `refresh_display` draws exactly the frame: summary, blank line, title row, data rows |
| LayoutFacts.PaddedUniform | beanstalktop.py:150 | entries no wider than w take exactly w characters each, entry i at offset i * w |
| LayoutFacts.SummaryShape | beanstalktop.py:141-151 | the summary is three lines; each is at least the terminal width and starts with its three entries padded to a third of the width |
| LayoutFacts.TitleCellsLength | beanstalktop.py:157-166 | the title cells take 5, 6 and four times 7 characters, each raised to the cell width when that is larger |
| LayoutFacts.TitleCellsUniform | beanstalktop.py:157-166 | from a cell width of 7 on, every title cell is exactly the cell width |
| LayoutFacts.TitleRowLength | beanstalktop.py:155-169 | the title row is as long as the wider of the terminal and its cells |
| LayoutFacts.TitleRowExact | beanstalktop.py:155-169 | from 42 columns on, the cells are exactly a sixth of the width each and fewer than six spaces of filler bring the row to the terminal width |
| LayoutFacts.TitleRowOverflows | beanstalktop.py:155-169 | at 12 columns the title row is 39 characters long |
| LayoutFacts.TitleRowColumns | beanstalktop.py:155-169 | from 42 columns on, title cell c occupies the characters c * k up to (c + 1) * k, with k a sixth of the width |
| LayoutFacts.DataRowColumns | beanstalktop.py:189-200 | when every text of a row is narrower than k, row cell c occupies the same characters c * k up to (c + 1) * k, under title cell c |
| LayoutFacts.ReadyColumn | beanstalktop.py:193-195 | the READY column of such a row holds the ready count right-justified with a trailing space, and a numeric count reads back as that number |
| LayoutFacts.ShownTubesSpec | beanstalktop.py:180-188 | the tubes drawn are that many, taken from the tubes without repetition, in non-increasing ready order; no tube left out has more ready jobs than a tube drawn; and each group of ties is a prefix of that group reversed |
| LayoutFacts.PrefixOnTop | beanstalktop.py:182-188 | the first n tubes of a non-increasing ready order are a part of it, still in that order, and no tube after them has more ready jobs than one of them |
| LayoutFacts.FrameShape | beanstalktop.py:141-202 | the frame is 5 lines plus the rows drawn; line 3 is blank spaces, line 4 the title row, and line 5 + i is the row of the i-th tube shown, at least the terminal width |
| LayoutFacts.NoRoomNoRows | beanstalktop.py:180-184 | at height 4 or less the frame's lines hold no data row, because `range(max_lines)` at line 184 is empty |
| Top.KeyAction | beanstalktop.py:96-103 | a key quits exactly when it is `q` or `Q`; every other key does nothing |
| Top.Decide | beanstalktop.py:81-93 | a pass goes on exactly after a timeout, an unbound key or an EINTR select error; a keyboard interrupt ends the loop; any other select error is re-raised with its arguments; exit status 0 |
| Top.EintrIsTimeout | beanstalktop.py:84-85 | an EINTR select error is treated as a timeout with no input |
| Top.OnlyQuitExits | beanstalktop.py:96-103 | the program exits only on `q` or `Q`, and then with status 0 |
| Top.Session | beanstalktop.py:77-93 | a run over a script makes at most one pass per tick, and has no outcome exactly when it uses up the script with its last pass going on; `Top.SessionSpec` states that every earlier pass goes on too |
| Top.SessionSpec | beanstalktop.py:77-93 | a run goes on through every pass before the first whose wait ends it, and ends with that pass's outcome; with no such pass it uses up the script |
| Top.SessionExit | beanstalktop.py:91-103 | a run that exits ends at a pass that read `q` or `Q`, with status 0 |
| Top.ProgressStep | beanstalktop.py:77-93 | one more pass of the loop keeps track of how the whole run ends |
| Top.MarkedFrame | beanstalktop.py:124-127 | the formatted uptime written into the fallback overview does not change the frame |
| Top.DrawnWithFallback | beanstalktop.py:278-281 | the frame of the fetched data is the same whether or not the fallback overview has been written to |
| Top.Draw | beanstalktop.py:122-202 | the frame drawn for a reply is the frame of the broker's data, or of the placeholders when it failed |
| Top.TopUI.constructor | beanstalktop.py:13-49 | the window size is read; the fallback overview holds placeholders and no uptime |
| Top.TopUI.Resize | beanstalktop.py:106-107 | the height and width become the window's current size, and nothing else changes |
| Top.TopUI.HandleKey | beanstalktop.py:96-103 | `q` and `Q` exit with status 0; every other key returns with nothing to do |
| Top.TopUI.Wait | beanstalktop.py:81-93 | the end of a pass behaves exactly as `Decide` says |
| Top.TopUI.RefreshDisplay | beanstalktop.py:110-205 | the screen becomes the frame of the broker's data, or of the placeholders; after a failure the kept fallback overview holds `"0h 0m 0s"` as its uptime; the size is untouched |
| Top.TopUI.Run | beanstalktop.py:74-93 | the loop makes exactly the passes `Session` counts and ends with its outcome |

## Left out

- Curses output is left out: erasing, attributes (`A_REVERSE`), colours, cursor
  visibility and `refresh`. The screen is modelled as the list of lines the
  frame's `addstr` calls write.
- The header's `addstr` calls at lines 151, 153, 167 and 169 have no
  `curses.error` handler, and neither has the call of `refresh_display` at
  line 79. curses raises that error when a write reaches the window's
  bottom-right cell. Every header line is at least the width long, so on a
  terminal 5 lines tall or less the header reaches that cell and the program
  ends. It can also end this way on a narrow terminal whose title row wraps.
  The model does not capture this ending: `Top.TopUI.Run` goes on drawing the
  frame where the program stops.
- The `curses.error` handlers at lines 17-22, 197-198 and 201-202 are left out.
  So is the `curses.error` that `addstr` raises for text beyond the window. The
  model keeps every line whole.
- `_get_connection` is left out, including its unreachable caching code after
  the first `return`. The broker's statistics arrive as a `Reply` parameter.
- `poll`, `getch` and the refresh delay are left out, since they are input and
  timing. Their results arrive as a `PollResult` parameter.
- A missing dictionary key would raise `KeyError` in the program. Overviews and
  rows are records that hold every key the display reads, so this cannot arise
  in the model.
- Comparing two strings as sort keys is left out. Python compares them
  lexicographically; the model makes all text keys tie. The only text key that
  can reach the sort is the placeholder `'-'`.
- Floating-point statistics are left out, because the display never reads one.
- `run` is modelled over a finite script of passes rather than an endless loop.
  A keyboard interrupt anywhere but inside `poll` is left out, because it
  propagates out of the program.
- On success, the formatted uptime is also written into the broker's fresh
  dictionary. That dictionary is dropped after the frame, so only the write into
  the kept fallback overview is modelled.
- Top.TopUI.Run: does not state which frame is left on the screen when the loop
  ends. Each pass's frame is stated by `Top.TopUI.RefreshDisplay`.
- Below 42 columns the title cells are wider than a sixth of the terminal, and
  below 40 columns the title row is wider than the terminal
  (`LayoutFacts.TitleRowOverflows`). The model keeps such rows whole, as
  above.
- A fetch error outside the three classes `get_data` catches (for example the
  client library's `UnexpectedResponse`) passes out of `get_data` and
  `refresh_display`, which the loop at line 79 calls outside any `try`, and so
  ends the program. `Reply` cannot express such an error, and this way of
  ending is not modelled.
- `main`, option parsing, `curses.wrapper` and packaging (lines 285-322) are
  left out, because they are setup rather than behaviour.
