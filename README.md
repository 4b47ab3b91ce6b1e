# Host inventory agent and report archive — a Dafny model

The repository has two programs. The **agent** (`collector.py`) inventories a
Windows host and writes one report file to a network share. The report covers
the external address, the system, the CPU, memory, the GPU, disks and network
interfaces. The **archive service** (`main.py`) receives such reports over HTTP
and stores them below `~/collected_data/<machine>/<file>`. It also serves three
read-only pages: the machine list, one machine's files, and one file's text.

This project models both programs and proves what they promise:

- `Namer`: the per-machine folder name, built from `"<host>-<user>"` with the
  characters `< > : " / \ | ? *` deleted, and the per-run file name
  `info_YYYY-MM-DD_HH-MM-SS.txt`.
- `Report`: `collect_system_info` as a method that appends to a line
  sequence section by section, with loops over the key map, the partitions,
  the interfaces and their addresses. It is proved equal to a specification
  function, and the section properties are proved of that function.
  - Every foreign call is an input: the HTTP lookup, `wmic`, psutil,
    `os.getlogin`, `socket.gethostname`, `platform.*` and the clock.
  - An unguarded call that raised is a `Probe.Raised(trace)`.
  - The three local guards are modelled branch by branch: the address
    lookup, the GPU query and the per-partition usage lookup.
- `Agent`: `main` as a method on a `Share` class whose `entries` map is the
  network share. The method makes the folder, collects the report and writes
  the file. Every failure ends the run silently.
- `Archive`: the server's home directory as a `Store` class with a `home` map
  of `Tree.Node`s. `Store.Ingest` is `collect_data`. The browse pages are
  functions of that map, so they cannot change it.
  - Paths are walked one name at a time, as POSIX resolves them.
  - The names `""`, `"."` and `".."` that `basename` lets through lead where
    they lead on a real system.
  - `Beyond` stands for the home directory's parent.
- `Text`, `Tree`, `Json`, `Options`: the Python string behaviour both programs
  rely on. This covers `str.strip`, `str.splitlines`, `"\n".join`, `str(int)`,
  the code-point order of `sorted`, and text-mode newline translation. It
  also holds the directory tree, `posixpath.basename`, and the JSON values the
  programs read.

The store is reached through the home directory rather than the archive root
alone. The reason: `basename("..")` is `".."`, so an upload whose folder name
ends in `/..` writes its file into the home directory, beside
`collected_data`. `Archive.IngestEscapes` proves this. The containment and
round-trip lemmas therefore require ordinary names: non-empty, not `.` or `..`,
and without `/` or NUL. `Archive.IngestReadBack` alone holds for every name.

The browse pages escape the same way. A machine name of `..` makes
`view_computer` list the home directory's regular files, and makes
`view_file` read a file of the home directory, such as `~/.bashrc`.
`Archive.ViewComputerEscapes` and `Archive.ViewFileEscapes` prove this.

A round trip through the store is exact only for text without a carriage
return. The file is read back in text mode, which turns `\r\n` and a lone
`\r` into `\n` (`Text.ReadTextIdentity`).

## Model

| member | source | states |
|---|---|---|
| Namer.FolderName | collector.py:136-138 | the folder name is `"<host>-<user>"` cleaned, so it holds no forbidden character; `Namer.FolderNameParts` and `Namer.FolderNameIsSegment` state its shape |
| Namer.FileStamp | collector.py:144 | `strftime("%Y-%m-%d_%H-%M-%S")`: 19 characters, fields zero-padded; `Namer.StampRoundTrip` parses it back |
| Namer.FileName | collector.py:145 | `info_<stamp>.txt`: 28 characters with the fixed prefix and suffix; `Namer.FileNameRoundTrip` and `Namer.FileNameInjective` state what it means |
| Namer.ClockText | collector.py:56 | `strftime('%Y-%m-%d %H:%M:%S')`: 19 characters with `-`, space and `:` separators in place |
| Namer.DropForbidden | collector.py:137-138 | the cleaned name holds none of the nine forbidden characters (angle brackets, colon, double quote, slash, backslash, pipe, question mark, asterisk) and is no longer than its input |
| Namer.DropForbiddenIsSubseq | collector.py:138 | cleaning only deletes characters: the result is a subsequence of the input, in order |
| Namer.DropForbiddenCounts | collector.py:138 | every permitted character survives exactly as often as it occurs; every forbidden one vanishes |
| Namer.DropForbiddenOfClean | collector.py:138 | a name without forbidden characters passes unchanged |
| Namer.DropForbiddenIdempotent | collector.py:138 | cleaning twice is cleaning once |
| Namer.FolderNameParts | collector.py:136-138 | the folder name is the cleaned host name, a hyphen, and the cleaned user name |
| Namer.FolderNameIsSegment | collector.py:136-138 | the folder name keeps its hyphen, so it is never empty, `.` or `..`, and holds no `/` or `\` |
| Namer.FileNameRoundTrip | collector.py:144-145 | the name `info_<stamp>.txt` of every valid clock reading parses back to that reading (fields zero-padded to 4/2 digits) |
| Namer.ParseFileNameSound | collector.py:144-145 | only artifact names parse, and each is the name of the reading it parses to |
| Namer.FileNameInjective | collector.py:144-145 | two different seconds give two different file names |
| Namer.FileNameIsSegment | collector.py:144-145 | the file name is 28 characters with no forbidden character, so no path separator, and is not `.` or `..` |
| Text.Strip | collector.py:91-93 | `str.strip()`: a contiguous piece of the line starting where its leading whitespace ends, no longer than the line; `Text.StripIsCore` states that only whitespace is cut and the ends are not whitespace |
| Text.StripIsCore | collector.py:91-93 | the stripped line is the line with its leading and trailing whitespace cut, and neither starts nor ends with whitespace |
| Text.StripIdempotent | collector.py:91-93 | `strip()` of a stripped line changes nothing |
| Text.StripEmptyIff | collector.py:93 | a line strips to nothing exactly when it is all whitespace |
| Text.SplitLines | collector.py:92 | `splitlines()` gives no line containing a line break, and none at all only for empty text |
| Text.SplitLinesKeepsText | collector.py:92 | the lines, written one after the other, are the text with its break characters deleted |
| Text.SplitLinesJoin | collector.py:92 | for text whose only breaks are `\n`, the lines joined by `\n` give the text back, less one final `\n` |
| Text.SortedNames | main.py:40-41 | `sorted` of distinct names lists exactly those names, each once, in strictly increasing code-point order |
| Text.SortedNamesUnique | main.py:40-41 | any strictly increasing listing of the same names is that same listing |
| Text.DecimalRoundTrip | collector.py:45 | the decimal text of a status code reads back as that code |
| Text.Crlf | collector.py:149-150 | a text-mode write on Windows adds one character per `\n` (each becomes `\r\n`); `Text.CrlfReadBack` is its partner |
| Text.ReadText | main.py:65-66 | a universal-newline read yields no `\r` and is no longer than the stored text; `Text.ReadTextIdentity` says when it is the identity |
| Text.CrlfReadBack | collector.py:149-150 | text written with Windows line ends reads back unchanged in text mode when it has no carriage return |
| Text.ReadTextIdentity | main.py:65-66 | reading in text mode leaves text unchanged exactly when it has no carriage return |
| Tree.Basename | main.py:16-17 | `basename` has no `/`, is a suffix of its input, and is preceded by a `/` when shorter than the input |
| Tree.BasenameOfName | main.py:16-17 | a name without `/` is its own basename |
| Tree.BasenameIdempotent | main.py:46 | reducing to the basename twice is reducing once |
| Tree.PutThenGet | main.py:26-28 | after a write at a path, that path holds exactly what was written |
| Tree.PutFrame | main.py:26-28 | a write changes no path that neither leads to it nor lies below it |
| Tree.PutTwice | main.py:27-28 | a second write at the same path replaces the first entirely |
| Report.IpLines | collector.py:25-48 | the address section's lines: at most one per key-map entry, and exactly one unless the answer was a 200 with a readable object; `Report.KeyLinesSelect`, `Report.StatusLine` and `Report.RequestFailedLine` state which |
| Report.KeyLines | collector.py:39-42 | at most one line per key of the map; `Report.KeyLinesSelect` says which |
| Report.KeyLinesSelect | collector.py:39-42 | on status 200 the lines are the `label: value` lines in key-map order, one exactly for each key whose value is present and truthy, and nothing else |
| Report.KeyMapLabelsDistinct | collector.py:29-38 | the eight keys are distinct and their labels start with distinct letters |
| Report.StatusLine | collector.py:43-46 | any status other than 200 gives exactly one error line from which the status code reads back |
| Report.RequestFailedLine | collector.py:47-48 | a failed request, and a 200 answer whose body is not a readable object, each give exactly one line ending in the exception's class name |
| Report.GpuLines | collector.py:83-101 | the GPU part: exactly one line only for a failed query, and the GPU heading first whenever the query answered with a name; `Report.GpuLinesShape` states it fully |
| Report.GpuNames | collector.py:90-94 | at most one name per output line; `Report.GpuNamesAreNames`, `Report.GpuNamesInOrder` and `Report.GpuNamesCount` say exactly which lines, in which order |
| Report.GpuNamesAreNames | collector.py:90-94 | every GPU name is stripped, non-empty and not `Name` |
| Report.GpuNamesInOrder | collector.py:90-94 | the GPU names keep the order of the query output |
| Report.GpuNamesCount | collector.py:90-94 | each stripped line that is a name appears as often as in the output; no other string appears |
| Report.GpuLinesShape | collector.py:95-101 | the GPU heading appears exactly when some name was found, followed by the names; a failed query gives only the placeholder |
| Report.DiskLine | collector.py:107-110 | the line of a measured partition starts with `Диск ` and the device name |
| Report.DiskLines | collector.py:104-112 | the partition loop's lines, at most one per partition, or the escaping failure; `Report.DiskLinesMeasured` gives a measured partition's line in its place, `Report.SkippedPartitionInvisible` the skipped ones and `Report.DiskLinesFail` the failure |
| Report.DiskLinesMeasured | collector.py:104-110 | a measured partition gives its own line after the lines of the partitions enumerated before it and before those after it |
| Report.SkippedPartitionInvisible | collector.py:104-112 | a partition whose usage lookup was denied or not found leaves no line |
| Report.DiskLinesFail | collector.py:104-112 | the disk loop fails exactly when some partition's usage lookup failed otherwise, with the first such partition's traceback |
| Report.AddressLines | collector.py:117-121 | at most one line per address; `Report.AddressLinesKept` gives the line of an IPv4 or link-layer address and `Report.OtherFamilyInvisible` the dropped ones |
| Report.AddressLinesAppend | collector.py:117-121 | two runs of addresses give their lines one after the other |
| Report.AddressLinesKept | collector.py:117-121 | an IPv4 address gives `  IPv4-адрес: <address>` and a link-layer address `  MAC-адрес: <address>`, in its place among the other addresses' lines |
| Report.InterfaceLines | collector.py:115-121 | at least one line per interface and at most one more per address; `Report.InterfaceBlock` places each heading before its own addresses |
| Report.InterfaceBlock | collector.py:115-121 | every interface gives `Интерфейс: <name>` followed by its own address lines, between the blocks of the interfaces before and after it |
| Report.OtherFamilyInvisible | collector.py:117-121 | an address of another family than IPv4 or link-layer leaves no line |
| Report.OneHeadingPerInterface | collector.py:115-121 | each interface contributes exactly one heading; address lines are never headings |
| Report.InterfaceLinesAppend | collector.py:115-121 | the interfaces' blocks follow one another in enumeration order |
| Report.SystemLines | collector.py:50-62 | the system section fails exactly when the login, host, platform or uptime call raised, with the first one's trace; otherwise six lines under the system heading |
| Report.CpuLines | collector.py:64-71 | the processor section fails exactly when the model or a core count raised, with the first one's trace; otherwise four lines under the processor heading |
| Report.MemoryLines | collector.py:73-81 | the memory section fails exactly when `virtual_memory` raised, with its trace; otherwise four lines under the memory heading |
| Report.LaterSectionsOrder | collector.py:50-121 | when nothing abandoned the report, the later sections are system, processor, memory, GPU, the disk heading and lines, then the interface heading and lines, in that order |
| Report.Assemble | collector.py:21-123 | the report's lines, starting with the address heading, or the traceback that replaced them; `Report.ReportFailsIff` says when |
| Report.ReportText | collector.py:21-126 | `collect_system_info`'s result starts with the address heading or with the failure prefix; `Report.ReportTextSections` gives the section order |
| Report.ReportFailsIff | collector.py:21-126 | the report is replaced by the failure text exactly when an unguarded call raised or a partition failed other than by denial or absence; the lookup and the GPU query never cause it |
| Report.LookupOnlyAffectsItsSection | collector.py:25-62 | whatever the address lookup did, every later section is the same |
| Report.SkippedPartitionLeavesReport | collector.py:104-112 | a denied or missing partition leaves the whole report as if it did not exist |
| Report.ReportTextSections | collector.py:123 | the report is the address section and the later sections, in that order, joined by newlines |
| Report.AppendLookup | collector.py:24-48 | the address block appends the heading and then the lookup's lines |
| Report.AppendDisks | collector.py:103-112 | the partition loop appends one line per measured partition, or stops with the escaping failure |
| Report.AppendAddresses | collector.py:117-121 | the address loop appends the IPv4 and link-layer lines of one interface |
| Report.AppendInterfaces | collector.py:114-121 | the interface loop appends each interface's heading and address lines |
| Report.AppendLater | collector.py:50-121 | the system, CPU, memory, GPU, disk and interface sections are appended in that order, or the first unguarded failure is returned |
| Report.AppendFromDisks | collector.py:103-121 | the disk and interface sections are appended, or their failure is returned |
| Report.CollectSystemInfo | collector.py:15-126 | the method returns the report text of the specification function, or the failure text |
| Agent.MadeFolder | collector.py:140-141 | after `makedirs(exist_ok=True)` succeeds, the folder is a directory |
| Agent.Written | collector.py:149-150 | the open fails exactly when a directory bears the file's name; otherwise the file holds the content written |
| Agent.RunEffect | collector.py:129-154 | one run of `main` on the share: no identity exactly when a name call raised, and the share unchanged then or when the folder is blocked; `Agent.RunSaves`, `Agent.RunFailsCleanly` and `Agent.RunFrame` state the rest |
| Agent.RunSaves | collector.py:129-154 | a run saves exactly when both identity calls answered, no file bears the folder's name and no directory the file's; the file then holds the report with Windows line ends, which reads back unchanged when the report has no carriage return |
| Agent.RunFailsCleanly | collector.py:129-154 | a run that did not save leaves the share as it was |
| Agent.RunFrame | collector.py:140-150 | a run changes no path of the share other than its folder and its file |
| Agent.TwoRunsKeepBoth | collector.py:144-150 | a second run at another second keeps the first run's report intact |
| Agent.Share.MakeFolder | collector.py:141 | the share after `makedirs(exist_ok=True)`: made when absent, kept when a directory, refused when a file |
| Agent.Share.WriteFile | collector.py:149-150 | the share after `open(..., "w")` and the write, or unchanged when the open raised |
| Agent.Share.Run | collector.py:129-154 | one run of `main`, in the source's order of calls; the new share and the outcome are those of the run's specification |
| Archive.Step | main.py:22-26 | joining a name resolves when the parent is a directory and the name has no NUL; only `..` from the home directory leaves it; an ordinary name adds itself to the path |
| Archive.RootMade | main.py:19-20 | after the root step succeeds, `collected_data` is a directory |
| Archive.TargetMade | main.py:22-24 | after the folder step succeeds, the target is a directory and the root is still one |
| Archive.TargetOrdinary | main.py:22-24 | for an ordinary folder name, the step fails exactly when a file bears the name, and changes nothing off the folder's path |
| Archive.RootMadeFrame | main.py:19-20 | making the root changes nothing outside it |
| Archive.WrittenOrdinary | main.py:26-28 | the file write succeeds exactly when no directory bears the name and the content is text; the file then holds the content; nothing off its path changes |
| Archive.FileWritten | main.py:26-30 | the write step: success only with text content; `Archive.WrittenOrdinary` gives the exact condition and the frame |
| Archive.Stored | main.py:19-30 | the upload once the names are reduced: success only with text content; `Archive.StoredOrdinary` and `Archive.StoredReadBack` state the rest |
| Archive.Ingested | main.py:12-33 | `collect_data`: success only when the request is an object with the three fields as text; `Archive.IngestSucceeds`, `Archive.IngestFrame`, `Archive.IngestReadBack` and `Archive.IngestEscapes` state the rest |
| Archive.StoredOrdinary | main.py:19-30 | an upload with ordinary names succeeds exactly when no file bears the root's or folder's name, no directory the file's, and the content is text; it then holds the content, overwriting; nothing else changes |
| Archive.StoredReadBack | main.py:26-30 | after any successful store, the same two names lead from the root to a file holding the content, and the file page shows that content as text mode reads it |
| Archive.IngestUpload | main.py:15-17 | an upload carrying three text fields is stored under the basenames of its names |
| Archive.IngestReadBack | main.py:12-33 | for any names, after a successful upload `view_file` with the same names returns the submitted content as text mode reads it: identical when the content has no carriage return |
| Archive.IngestSucceeds | main.py:12-33 | an upload with ordinary names succeeds exactly when no file bears the root's or folder's name and no directory the file's; the file then holds the content |
| Archive.IngestFrame | main.py:19-28 | success or failure, an upload with ordinary names changes no other folder and no other file |
| Archive.IngestContained | main.py:16-28 | an upload with ordinary names never changes anything outside `collected_data` |
| Archive.IngestEscapes | main.py:16-22 | a folder name whose basename is `..` puts the file in the home directory, outside the archive root |
| Archive.MissingContentTruncates | main.py:27-28 | a missing `content` field fails only after the file was created or truncated, so it is left empty |
| Archive.ListComputers | main.py:37-42 | `list_computers`: strictly sorted, empty when the root is no directory; `Archive.ListComputersExact` pins its contents |
| Archive.ListComputersExact | main.py:37-42 | the machine list is strictly sorted and holds exactly the sub-directories of the root; it is empty when the root is no directory |
| Archive.FolderPage | main.py:46-51 | the folder page of a reduced name: sorted when found, not found without a root; `Archive.FolderPageOrdinary` and `Archive.FolderPageParent` pin it |
| Archive.ViewComputer | main.py:45-54 | `view_computer`: sorted when found, not found without a root; `Archive.ViewComputerExact` and `Archive.ViewComputerEscapes` pin it |
| Archive.FolderPageOrdinary | main.py:46-51 | for an ordinary name, the folder page is missing exactly when the folder is no directory; otherwise it lists exactly its regular files, sorted |
| Archive.ViewComputerExact | main.py:45-54 | `view_computer` with an ordinary name: not found exactly when the folder is no directory; otherwise exactly its regular files, sorted, sub-directories excluded |
| Archive.FilePage | main.py:58-66 | the file page of reduced names: the text holds no carriage return, as text mode reads it; not found without a root; `Archive.FilePageOrdinary` and `Archive.FilePageParent` pin it |
| Archive.ViewFile | main.py:57-71 | `view_file`: the text holds no carriage return; not found without a root; `Archive.ViewFileExact` and `Archive.ViewFileEscapes` pin it |
| Archive.FilePageOrdinary | main.py:58-66 | for ordinary names, the file page is missing exactly when the path is no regular file; otherwise it shows the file's text |
| Archive.ViewFileExact | main.py:57-71 | `view_file` with ordinary names: not found exactly when the path is no regular file; otherwise the stored text as text mode reads it |
| Archive.FolderPageParent | main.py:46-51 | the folder `..` of the root is the home directory: its page lists the home directory's regular files |
| Archive.ViewComputerEscapes | main.py:45-51 | a machine name whose basename is `..` lists the home directory's regular files, outside the archive root |
| Archive.FilePageParent | main.py:58-66 | a file under the folder `..` of the root is the home directory's file of that name |
| Archive.ViewFileEscapes | main.py:57-66 | a machine name whose basename is `..` makes `view_file` read the home directory's own files, outside the archive root |
| Archive.StoredThenListed | main.py:19-51 | after a successful store the machine is listed and its page lists the file |
| Archive.IngestThenListed | main.py:12-54 | after a successful upload with ordinary names the machine is listed and its page lists the file |
| Archive.Store.MakeRoot | main.py:19-20 | the root is made only when it is no directory, and the step fails when a file bears its name |
| Archive.Store.MakeTarget | main.py:22-24 | the machine folder is made only when it is no directory; the new home is that of the folder step |
| Archive.Store.WriteFile | main.py:26-28 | the file is opened (created or truncated) and then written; the new home and response are those of the write step |
| Archive.Store.Ingest | main.py:12-33 | `collect_data` in the source's order of steps; the new home and response are those of its specification, and every exception becomes an error response |

## Left out

- Flask routing, `request.get_json`, `jsonify`, `render_template`, `abort` and `app.run`. An upload is the decoded JSON object, or `None` when the body is none. Responses are `Success` / `Error(cause)`. Pages are `NotFound` / `Found(value)`.
- Archive.Store.Ingest: the error response carries a `Cause` rather than Python's `str(e)` message, because that text depends on the host's paths and Python's wording.
- The external calls of the agent are inputs: `requests.get`, `response.json()`, `wmic`, psutil, `os.getlogin`, `socket.gethostname`, `platform.*` and `datetime.now`. They are foreign and nondeterministic.
- `bytes_to_gb`, the percentages, core counts and the uptime text are opaque strings. They use floating point, Python's `round` and `timedelta` formatting.
- `traceback.format_exc()` is an opaque trace string.
- When several calls inside one `extend([...])` list would raise, the model reports the first in evaluation order, as Python does. Which exception class it was is not kept, only its opaque trace.
- Report.CollectSystemInfo: requires a clock reading with a four-digit year. `strftime("%Y")` pads years below 1000 differently across platforms.
- Namer.FileNameRoundTrip: also limited to four-digit years, for the same reason.
- The Windows UNC share path, `ntpath` separator rules, drive letters and `os.path.join` with absolute segments. The share and the server store are POSIX-style trees.
- An unreachable network share, a name too long for the filesystem, and any other operating-system refusal of `makedirs` or `open` in the agent. Such an error is swallowed by the `except` at collector.py:152-154 exactly like the modelled clashes, so the report is not written; the model only produces the clash outcomes.
- Symbolic links, permissions and disk-full errors in the stores. Only the name clashes the code can meet are modelled: a file where a directory is needed, or a directory where a file is needed.
- Character encoding. Text is a sequence of Unicode scalar values, so UTF-8 encoding and decoding of stored files always succeed.
- The same-second overwrite race between concurrent writers. Requests are handled one at a time.
