# SpeedTestC: command line, server selection and elapsed time, in Dafny

This project models the sequential logic of `src/Speedtest.c`, the main program of
SpeedTestC, a command-line client that measures latency, download and upload speed
against a speedtest.net server. Three parts of that file are modelled:

- **Command-line parsing** (`parseCmdLine` and the defaults set at the start of
  `main`), in `command_line.dfy`. The configuration globals (`csvOutput`,
  `totalToBeTransfered`, `totalDownloadTestCount`, `randomizeBestServers`,
  `downloadUrl`, `totalTransfered`) are the fields of class `CommandLine.Options`.
  `ParseCmdLine` loops over `argv` and overwrites them. It is proved equal to the
  specification function `Parse`, and the lemmas about `Parse` state what the
  program promises: which option sets which field, last occurrence wins, `--help`
  stops parsing with exit status 1.
- **Server selection** (the selection part of `getBestServer` and the comparator
  `sortServers`), in `server_selection.dfy`. The steps are:
  - fall back to the second directory when the first lists no servers;
  - fail when both list none;
  - write every entry's distance in place in an array;
  - sort the array by distance with an insertion sort that compares with `sortServers`;
  - choose index 0, or an index drawn from `rand()` when randomizing.
- **Elapsed time** (the integer part of `getElapsedTime`), in `elapsed_time.dfy`:
  seconds and microseconds are subtracted separately, with a borrow.

`wrappers.dfy` holds the `Option` and `Result` types used for NULL pointers and
failure exits.

## Model

| member | source | states |
|---|---|---|
| `CommandLine.Options.constructor` | src/Speedtest.c:177-183 | Before parsing: csv output off, upload size 1048576, download count 1, randomize 0, no server URL, `totalTransfered` 1048576 |
| `CommandLine.Options.ParseCmdLine` | src/Speedtest.c:50-91 | The loop leaves exactly the settings and exit status given by `Parse` of the old settings, and does not touch `totalTransfered`. Precondition: a value option reached by the loop is never the last argument |
| `CommandLine.CsvOutputIff` | src/Speedtest.c:86-89 | `csvOutput` is set afterwards iff it was set before or `--csv` occurs in `argv[1..]` before any help option. No other argument sets it |
| `CommandLine.HelpExits` | src/Speedtest.c:54-67 | Parsing ends with `Exit(1)` iff `--help` or `-h` occurs in `argv[1..]`, and with `Continue` otherwise |
| `CommandLine.HelpIgnoresLater` | src/Speedtest.c:52-67 | Two argument vectors that agree up to and including a help option parse to the same settings, with status `Exit(1)`. No later argument has any effect |
| `CommandLine.LastOccurrenceWins` | src/Speedtest.c:69-85 | For `--server`, `--upsize`, `--downtimes` and `--randomize`, the field holds the value read from the argument after the option's last occurrence before any help option. That argument exists |
| `CommandLine.AbsentOptionKeepsValue` | src/Speedtest.c:69-85 | A value option that does not occur before any help option leaves its field as it was. Applied to `Defaults`, the field keeps the default set in `main` |
| `CommandLine.ValueArgumentIsScanned` | src/Speedtest.c:52-89 | The value after an option is itself examined as an option. `--server --csv` sets the URL to "--csv" and also turns CSV output on. `--server --help` stores "--help" as the URL and then exits with 1 |
| `ServerSelection.SortServers` | src/Speedtest.c:33-36 | The comparator is the distance difference truncated to a 32-bit `int`. For distances in [0, 2^31) it is negative, zero or positive exactly as the first distance is smaller than, equal to or larger than the second |
| `ServerSelection.ComparatorWrapsOutsideRange` | src/Speedtest.c:35 | Above that range the truncated difference can order two servers the wrong way (2^31 km compares below 0 km) |
| `ServerSelection.FillDistances` | src/Speedtest.c:128-132 | Every array entry gets the haversine distance from the client to its own location. The other fields are unchanged |
| `ServerSelection.SortByDistance` | src/Speedtest.c:134-135 | Afterwards the array is sorted ascending by distance and is a permutation of what it held before |
| `ServerSelection.SourceIndex` | src/Speedtest.c:104-141 | As written, the chosen index is 0 when not randomizing. Otherwise it is `rand() % N`, which is below N, but nothing bounds it by the server count |
| `ServerSelection.SourceIndexLeavesList` | src/Speedtest.c:140 | Whenever N exceeds the server count, a draw equal to the server count gives, as written, the index one past the last entry of `serverList` |
| `ServerSelection.SelectIndex` | src/Speedtest.c:137-141 | The corrected index is below the server count. It is 0 when not randomizing and below N when randomizing. It equals the index as written whenever N does not exceed the server count |
| `ServerSelection.GetBestServer` | src/Speedtest.c:102-141 | No configuration gives `ConfigUnavailable` with no directory queried. Otherwise the primary directory is queried first, and the fallback is queried only if the primary listed none. No servers after that gives `NoServersAvailable`. Otherwise the result is the fetched servers with their distances filled in, sorted and permuted, plus the selected index, which lies within the list |
| `ServerSelection.CloserOfPermutation` | src/Speedtest.c:134-135 | Reordering the list does not change how many servers are strictly closer than a given distance |
| `ServerSelection.SortedCloserBound` | src/Speedtest.c:134-135 | In a sorted list, at most k entries are strictly closer than the entry at index k |
| `ServerSelection.FirstIsClosest` | src/Speedtest.c:104 | When not randomizing, the selected entry (index 0 of the ranking) is one of the candidates, and no candidate is closer |
| `ServerSelection.SelectedIsAmongClosest` | src/Speedtest.c:137-141 | The entry at the selected index is a candidate. Fewer than N candidates are strictly closer than it (fewer than 1 when not randomizing), so it is among the N closest |
| `ServerSelection.ClosestOfThree` | src/Speedtest.c:128-137 | With candidates at 50, 10 and 200 km and no randomizing, the 10 km server is selected |
| `ElapsedTime.GetElapsedTime` | src/Speedtest.c:41-46 | The difference stands for exactly end − start microseconds. On inputs with microseconds in [0, 1000000) its microseconds are in that range too, and its seconds are non-negative when end ≥ start |
| `ElapsedTime.ElapsedIsCanonical` | src/Speedtest.c:41-46 | On such inputs the borrowed difference is the unique normalised value for end − start |

## Left out

- `getConfig` and `getServers` are HTTP fetches. They are parameters: `config` is the client location, or `None` for a NULL configuration, and `fetch` maps a directory URL to the servers it lists.
- `getServerDownloadUrl` and `getLatencyUrl` are not part of this model. `GetBestServer` returns the sorted server list and the selected index; the program copies the `url` of the entry at that index as the upload URL.
- `testLatency`, `testDownload` and `testUpload` are network transfers with threads. They are not part of this model.
- `haversineDistance` is floating-point trigonometry. It is the parameter `haversine`, which returns whole kilometres. The conversion of its result into the distance field is inside that parameter.
- `srand(time(NULL))` and `rand()`: the draw is the natural-number parameter `draw`.
- The float conversion of the elapsed time (line 47), and the call to `gettimeofday`: the end time is a parameter.
- All `printf` output, the usage text, and the CSV timestamp built with `localtime`.
- `strdup`, `freeMem`, the loop that frees every server, and the other manual memory management.
- `exit()`: it is modelled as an outcome (`Exit(1)`, `Failure(...)`), not as process termination.
- `getUserDefinedServer`, and `main`'s choice between it and `getBestServer`.
- Server entries are values in an array. The `SPEEDTESTSERVER_T` pointers, and any aliasing between them, are not modelled. Each entry is owned by the list.
- `strtoul` is the parameter `strtoul`, a function from text to a natural number. The C types of the globals are declared in headers that are not part of this model, so truncation of its result to those types is not modelled.
- The type of the distance field is declared in a header that is not part of this model. It is taken to be a C `long`, because it is printed with `%ld`.
- `ServerSelection.GetBestServer`: requires every distance to lie in [0, 2^31) km. Outside that range `sortServers` is not a consistent order, and `qsort` is then undefined. Haversine distances on Earth stay below about 20 040 km.
- `ServerSelection.GetBestServer`: selects with the corrected `SelectIndex` (see Findings), `draw % min(N, serverCount)`, instead of the code's `draw % N`. The two agree whenever N does not exceed the server count. When N exceeds it they can differ even where the code stays in bounds: with 3 servers, `--randomize 5` and a draw of 7, the code reads index 2 and the model selects index 1. The out-of-bounds read the code performs for other draws is undefined behaviour and has no model.
- `ServerSelection.SortByDistance`: `qsort` is not stable, so the order of servers at equal distance is left open.
- The code falls back to the second directory only on a server count of 0, not on a failed fetch as such; the model does the same.

## Findings

| source | as written | input that shows it | evidently intended | confidence | as-written member | corrected member |
|---|---|---|---|---|---|---|
| src/Speedtest.c:140 | `selectedServer = rand() % randomizeBestServers`, then `serverList[selectedServer]` is read, with no check against `serverCount` | 3 servers, `--randomize 5`, `rand()` returns 4: index 4 is read from a 3-entry list | an index drawn below min(N, serverCount), among the N closest servers that exist | high; not executed | `ServerSelection.SourceIndexLeavesList` | `ServerSelection.SelectIndex` |
