# gibra: a verified model of its branch picker and the embedded skim core

gibra is a command line tool that lists the branches of a git repository in
skim, a fuzzy picker embedded in its source tree. It then runs `git checkout`
for the branch the user chooses. This project models four sequential pieces
of it in Dafny and proves what they promise:

- **Colour theme** (`theme.dfy`, module `Theme`).
  - skim's `ColorTheme`: the default theme, the attribute accessors the
    renderer uses, and the parser for colour options such as
    `fg:1,hl:#ff0000,bg+:236`.
  - The option string is modelled as its UTF-8 bytes, because the source
    measures and slices it by byte.
  - The parser is an imperative loop. It is proved equal to a fold over the
    comma-separated pairs. Properties of that fold are proved: it starts from
    the default theme, the last write wins, unknown keys change nothing, no
    effect field changes, and the aliases agree. A formatter gives the round
    trip `parse(format(t)) == t`.
- **Byte helpers** (`bytes.dfy`, module `Bytes`). They are the parts of
  Rust's standard library the parser relies on:
  - `str::split` on one byte, proved to invert joining;
  - `u8::from_str_radix` and `str::parse::<u8>`, including the optional `+`,
    the rejected `-` and overflow;
  - `str::is_char_boundary`.
- **Command reader** (`item_reader.dfy`, module `ItemReader`). This is skim's
  reader thread, run over a script of read outcomes and a script of answers
  from the item channel.
  - The loop is a method of a `Collector` class. The class holds what was
    sent on the item and interrupt channels and a reference to the shared
    liveness counter.
  - The loop is proved against a function `Run`. `Run` is compared with
    `StreamLines`, the lines a consumer that never hangs up receives, and
    with the terminator-stripping function.
- **Pre-selection** (`selector.dfy`, module `Selector`): skim's
  `DefaultSkimSelector::should_select`.
- **gibra's main program** (`gibra.dfy`, module `Gibra`).
  - The flag handling and the `get_branches` join of local and remote
    branches. The git enumerations are data: each iterator item and each
    name or upstream lookup may fail.
  - The order in which branches are sent to the picker.
  - The `git checkout` arguments for the chosen branch.

`wrappers.dfy` holds the `Option` and `Result` types.

## Model

| member | source | states |
|---|---|---|
| Bytes.Split | src/skim/theme.rs:90-91 | splitting on a byte gives at least one piece, no piece holds the separator, and joining the pieces with it gives the input back |
| Bytes.SplitJoin | src/skim/theme.rs:90-91 | splitting a join of separator-free pieces gives exactly those pieces (split and join are inverse) |
| Bytes.DigitValue | src/skim/theme.rs:95-97 | a byte read as a digit in a radix has a value below the radix |
| Bytes.ParseU8 | src/skim/theme.rs:95-100 | `u8` parsing succeeds exactly when at least one byte follows an optional leading '+', every one of them is a digit of the radix, and their value is below 256; it then yields that value |
| Bytes.DigitsValueAllDigits | src/skim/theme.rs:95-100 | a digit string has a value exactly when every byte of it is a digit of the radix |
| Bytes.ParseU8Edges | src/skim/theme.rs:95-100 | "", "+", "-1" and "256" fail; "+7", "255" and "Ff" (hex) parse |
| Bytes.ParseHex2 | src/skim/theme.rs:95-97 | two hex digits written from a byte parse back to that byte |
| Bytes.ParseDecimal | src/skim/theme.rs:100-102 | a byte's decimal digits parse back to that byte |
| Theme.WithColor | src/skim/theme.rs:106-122 | one field assignment sets that colour field and leaves every other colour field and every effect unchanged |
| Theme.ThemeEquality | src/skim/theme.rs:23-46 | two themes that agree on all seventeen colour fields and the five effects are equal |
| Theme.KeyField | src/skim/theme.rs:105-123 | a key that selects a field is one of that field's keywords |
| Theme.KeysOfListed | src/skim/theme.rs:105-123 | every keyword of a field, name or alias, selects that field |
| Theme.KeyFieldInverse | src/skim/theme.rs:105-124 | a key selects a field exactly when it is one of that field's keywords (its name or its alias) |
| Theme.AliasesWriteSameField | src/skim/theme.rs:108-120 | hl/matched, fg+/current, bg+/current_bg, hl+/current_match, pointer/cursor and marker/selected select the same field; query selects query_fg |
| Theme.Component | src/skim/theme.rs:95-97 | a component is the value of its hexadecimal digits when they parse as a `u8` (in any letter case), otherwise 255; two hex digits written from a byte read back as that byte |
| Theme.DecodeColor | src/skim/theme.rs:93-103 | a 7-byte value is the RGB colour whose components are bytes 1-2, 3-4 and 5-6 read as hex (255 for one that does not parse); any other value is a palette index exactly when it parses as a decimal `u8`, and that index is the parsed value, else the default colour |
| Theme.EncodeColor | src/skim/theme.rs:93-103 | a formatted colour value uses only '#', hex and decimal digits, and can be sliced as the decoder does |
| Theme.DecodeEncode | src/skim/theme.rs:93-103 | decoding a formatted colour gives the colour back |
| Theme.FirstByteIgnored | src/skim/theme.rs:93-98 | the first byte of a 7-byte value does not affect the decoded colour |
| Theme.DecodeRedExample | src/skim/theme.rs:93-98 | "#ff0000" is Rgb(255,0,0) |
| Theme.DecodeBadComponentExample | src/skim/theme.rs:93-98 | "#zz0080" is Rgb(255,0,128): a component that is no hex number becomes 255 |
| Theme.DecodeAnsiExamples | src/skim/theme.rs:99-103 | "236" is palette 236, and "256" and "x" are the default colour |
| Theme.ApplyPairs | src/skim/theme.rs:90-125 | applying pairs left to right never changes an effect field |
| Theme.ApplyPair | src/skim/theme.rs:90-123 | one pair sets the field its key names to the pair's colour; every other colour field and every effect is left alone, and a pair with an unknown key changes nothing |
| Theme.ParseTheme | src/skim/theme.rs:88-127 | a parsed theme carries the default theme's effects |
| Theme.FromOptions | src/skim/theme.rs:88-127 | the loop over the comma-separated pairs, starting from the default theme, yields the left-to-right fold of the pairs over the default theme |
| Theme.InitFromOptions | src/skim/theme.rs:51-57 | no colour option gives the default theme; an option gives its parse |
| Theme.LastWriteWins | src/skim/theme.rs:90-125 | a field ends with the colour of the last pair that writes it |
| Theme.UnwrittenFieldKept | src/skim/theme.rs:105-123 | a field that no pair writes keeps its starting colour |
| Theme.UnknownKeysGiveDefault | src/skim/theme.rs:89-126 | an option whose keys are all unrecognised parses to exactly the default theme |
| Theme.ParsedEffects | src/skim/theme.rs:89-126 | every attribute of a parsed theme carries the default theme's effect: DIM normal text, a BOLD current line, and none on matched text, current matches and the query |
| Theme.EmptyTheme | src/skim/theme.rs:60-85 | the empty theme has every colour field the terminal default and every effect empty |
| Theme.DefaultTheme | src/skim/theme.rs:226-238 | the default theme has CYAN matched and current_match, YELLOW info and GREEN cursor, every other colour the terminal default, DIM normal effect, BOLD current effect and no other effect |
| Theme.ColorTheme.Normal | src/skim/theme.rs:129-135 | normal text is drawn in the `fg` colour on the `bg` colour with the normal effect |
| Theme.ColorTheme.MatchedAttr | src/skim/theme.rs:137-143 | matched text is drawn in the `matched` colour on the `matched_bg` colour with the matched effect |
| Theme.ColorTheme.CurrentAttr | src/skim/theme.rs:145-151 | the current line is drawn in the `current` colour on the `current_bg` colour with the current effect |
| Theme.ColorTheme.CurrentMatchAttr | src/skim/theme.rs:153-159 | matched text on the current line is drawn in the `current_match` colour on the `current_match_bg` colour with its effect |
| Theme.ColorTheme.Query | src/skim/theme.rs:161-167 | the query is drawn in the `query` colour on the `query_bg` colour with the query effect |
| Theme.ColorTheme.SpinnerAttr | src/skim/theme.rs:169-175 | the spinner is drawn in the `spinner` colour on the `bg` colour, always bold |
| Theme.ColorTheme.InfoAttr | src/skim/theme.rs:177-183 | the info line is drawn in the `info` colour on the `bg` colour with no effect |
| Theme.ColorTheme.PromptAttr | src/skim/theme.rs:185-191 | the prompt is drawn in the `prompt` colour on the `bg` colour with no effect |
| Theme.ColorTheme.CursorAttr | src/skim/theme.rs:193-199 | the cursor is drawn in the `cursor` colour on the `current_bg` colour with no effect |
| Theme.ColorTheme.SelectedAttr | src/skim/theme.rs:201-207 | the selection marker is drawn in the `selected` colour on the `current_bg` colour with no effect |
| Theme.ColorTheme.HeaderAttr | src/skim/theme.rs:209-215 | the header is drawn in the `header` colour on the `bg` colour with no effect |
| Theme.ColorTheme.BorderAttr | src/skim/theme.rs:217-223 | the border is drawn in the `border` colour on the `bg` colour with no effect |
| Theme.AccessorBackgrounds | src/skim/theme.rs:129-223 | spinner, info, prompt, header and border use `bg`; cursor and selected use `current_bg`; spinner is BOLD and the others carry no effect |
| Theme.DefaultThemeAttrs | src/skim/theme.rs:129-238 | each accessor's attribute on the default theme |
| Theme.FieldIndex | src/skim/theme.rs:105-122 | every colour field occurs in the field list |
| Theme.FieldsDistinct | src/skim/theme.rs:105-122 | the field list has no repeats |
| Theme.CanonicalKeyClean | src/skim/theme.rs:105-122 | no keyword contains ',' or ':' |
| Theme.FieldPairParses | src/skim/theme.rs:90-122 | a formatted `key:value` pair is well formed, selects its field and decodes to that field's colour |
| Theme.ParseFormatRoundTrip | src/skim/theme.rs:88-127 | parsing a formatted theme (with the default effects) gives the theme back |
| ItemReader.DefaultOption | src/skim/helper/item_reader.rs:38-50 | the default options: buffer 1024, line ending '\n', no ANSI colour, no field ranges, delimiter the 8-character raw pattern `[\t\n ]+` (its backslash escapes kept as text), errors not shown |
| ItemReader.StripLineEnding | src/skim/helper/item_reader.rs:148-153 | the kept line is a prefix of the chunk and at most two bytes shorter |
| ItemReader.StripUndoesTerminator | src/skim/helper/item_reader.rs:148-153 | a line followed by "\r\n", by '\0', or by '\n' when the line does not end in '\r', is stripped back to the line |
| ItemReader.UnterminatedChunkKept | src/skim/helper/item_reader.rs:148-153 | a chunk ending in neither '\n' nor '\0' is kept whole |
| ItemReader.CustomTerminatorKept | src/skim/helper/item_reader.rs:142-153 | with a line ending other than '\n' and '\0', a chunk ending in it keeps that byte in the item text |
| ItemReader.DefaultOptionStripsTerminator | src/skim/helper/item_reader.rs:148-153 | with the default line ending, a read line loses exactly its terminator |
| ItemReader.Run | src/skim/helper/item_reader.rs:138-175 | the loop reads at least once and at most once past the script, and delivers fewer lines than it makes reads |
| ItemReader.RunFromIsRun | src/skim/helper/item_reader.rs:138-175 | what the loop still does after some reads and sends is the loop run on the rest of the read script and the rest of the answers |
| ItemReader.AllAccepted | src/skim/helper/item_reader.rs:138-175 | when no send is refused, the consumer receives every line of the stream in order |
| ItemReader.FirstRefusalTruncates | src/skim/helper/item_reader.rs:165-170 | when send k is the first refused, the consumer receives exactly the first k lines of the stream |
| ItemReader.RefusalIsFinal | src/skim/helper/item_reader.rs:165-170 | once the send for a non-empty chunk is refused, nothing after that chunk is read and nothing more is delivered: the run is the run that stopped there |
| ItemReader.EndOfStreamIsFinal | src/skim/helper/item_reader.rs:143-146 | nothing after a zero-byte read is read or delivered |
| ItemReader.ReadErrorSkipped | src/skim/helper/item_reader.rs:173 | removing a read error from the script does not change the delivered lines |
| ItemReader.LineFromOwnChunk | src/skim/helper/item_reader.rs:139-163 | when every read returns a non-empty chunk, line i is the stripped chunk i and nothing else |
| ItemReader.PrintedLinesReceived | src/skim/helper/item_reader.rs:138-175 | newline-terminated lines printed by the command (none holding a '\n' or ending in '\r') reach the consumer unchanged and in order |
| ItemReader.WrappingInc | src/skim/helper/item_reader.rs:134 | `fetch_add(1)` on a `usize` stays a `usize` and is `(v + 1) mod 2^64` |
| ItemReader.WrappingDec | src/skim/helper/item_reader.rs:178 | `fetch_sub(1)` on a `usize` stays a `usize` and is `(v + 2^64 - 1) mod 2^64` |
| ItemReader.IncDecCancel | src/skim/helper/item_reader.rs:134-178 | an increment and a decrement cancel in either order, even across the wrap |
| ItemReader.LivenessCounter.FetchAdd | src/skim/helper/item_reader.rs:134 | the shared counter becomes its wrapping successor, and that value is appended to its history |
| ItemReader.LivenessCounter.FetchSub | src/skim/helper/item_reader.rs:178 | the shared counter becomes its wrapping predecessor, and that value is appended to its history |
| ItemReader.Collector.ReaderWorker | src/skim/helper/item_reader.rs:132-180 | the reader thread counts itself in (the counter goes one up), sends exactly the lines `Run` delivers, in order, makes `Run`'s number of reads, sends one interrupt and counts itself out (the counter goes back down), so the counter's history grows by exactly those two values |
| ItemReader.Collector.ReadLines | src/skim/helper/item_reader.rs:137-175 | while the reader is counted in, the loop sends exactly `Run`'s lines, in order, and makes `Run`'s number of reads |
| ItemReader.Collector.ReadOnce | src/skim/helper/item_reader.rs:139-173 | one pass of the loop body makes one read; it stops exactly on end of stream or a refused send, and otherwise sends the stripped chunk of a successful read and nothing for a read error |
| ItemReader.Collector.TeardownWorker | src/skim/helper/item_reader.rs:93-122 | the teardown thread counts itself in, takes one interrupt if one was sent, changes nothing else, and counts itself out, so the counter's history grows by exactly the value one up and the value it started from |
| Selector.DefaultSelector | src/skim/helper/selector.rs:7-12 | the default selector has `first_n` 0, and no preset and no regex that could hold or match any text |
| Selector.ShouldSelect | src/skim/helper/selector.rs:15-41 | an item is selected exactly when its index is below `first_n`, or a preset holds its text, or a regex matches its text |
| Selector.DefaultSelectsNothing | src/skim/helper/selector.rs:7-40 | the default selector selects no item |
| Selector.OnlyFirstN | src/skim/helper/selector.rs:16-40 | with no preset and no regex, exactly the first `first_n` items are selected |
| Selector.OnlyTextMatters | src/skim/helper/selector.rs:24-34 | two items with the same text at the same index get the same answer |
| Selector.MoreFirstNSelectsMore | src/skim/helper/selector.rs:16-18 | raising `first_n` never deselects an item |
| Selector.SelectorExamples | src/skim/helper/selector.rs:15-41 | first_n 2 selects indices 0 and 1 but not 2; preset {"main"} selects "main" and not "feature/x" |
| Selector.RegexExample | src/skim/helper/selector.rs:30-38 | an expression matching the "feature/" prefix selects "feature/x" and not "main" |
| Gibra.Branch.Name | src/main.rs:49-54 | a branch's name is the name of the local or remote branch it wraps |
| Gibra.Branch.Text | src/main.rs:48-64 | the picker text of a branch is its name, for both kinds of branch |
| Gibra.FilterMap | src/main.rs:94-161 | `filter_map` keeps exactly the entries mapped to a value, never more entries than it is given |
| Gibra.FilterMapSingle | src/main.rs:94-161 | one entry contributes its mapped value, or nothing when it maps to none |
| Gibra.FilterMapAppend | src/main.rs:94-161 | `filter_map` of a concatenation is the concatenation of the two results, so order and repeats are kept |
| Gibra.LocalFromEntry | src/main.rs:94-119 | a local branch is kept exactly when the iterator item, its name and its upstream lookup succeed and the upstream's name is not an error; it has a remote name exactly when the upstream's name is valid UTF-8 |
| Gibra.UpstreamMap | src/main.rs:122-131 | every key of the map is the upstream of some kept local branch, and maps to that branch's name |
| Gibra.UpstreamMapKeys | src/main.rs:122-131 | an upstream name is a key of the map exactly when some kept local branch tracks it |
| Gibra.UpstreamMapLastWins | src/main.rs:122-131 | with several locals tracking one upstream, the map holds the last one |
| Gibra.RemoteFromEntry | src/main.rs:140-160 | a remote branch is kept exactly when the iterator item and its name succeed; it knows a local branch exactly when its name is a key of the map, and then knows that key's local branch |
| Gibra.GetBranches | src/main.rs:90-173 | listing fails exactly when the local listing fails, or when the remote listing fails and not only locals are wanted |
| Gibra.CollectLocals | src/main.rs:91-120 | the local listing keeps at most one branch per item, and all of them are `Local` |
| Gibra.CollectRemotes | src/main.rs:137-161 | the remote listing keeps at most one branch per item, and all of them are `Remote` |
| Gibra.FiltersSplitBranches | src/main.rs:133-172 | the unfiltered list is the local-only list followed by the remote-only list; the local filter yields only locals and the remote filter only remotes |
| Gibra.RemoteKnowsTrackingLocal | src/main.rs:122-154 | a listed remote branch knows a local exactly when some kept local tracks it, and then knows the last such local |
| Gibra.LastTracking | src/main.rs:122-131 | when some local tracks an upstream, there is a last one that does |
| Gibra.FilterOf | src/main.rs:219-228 | both flags panic; otherwise the filter is Remote exactly for `--remote-only`, Local exactly for `--local-only`, and none when neither is given |
| Gibra.OpenRepo | src/main.rs:66-76 | the repository is available exactly when it was found and opened |
| Gibra.CurrentBranch | src/main.rs:78-88 | the current branch exists exactly when HEAD resolves to a UTF-8 shorthand, and is that name as a local branch without upstream |
| Gibra.WithoutName | src/main.rs:244 | filtering by name never adds entries |
| Gibra.WithoutNameMembers | src/main.rs:244 | exactly the listed branches with another name survive the filter |
| Gibra.WithoutNameAppend | src/main.rs:244 | the filter keeps the relative order of what survives |
| Gibra.SendBranches | src/main.rs:241-247 | the sending loop appends exactly the listed branches whose name differs from the current one, in order |
| Gibra.PickerFeed | src/main.rs:216-247 | conflicting flags fail first, then a missing repository; the feed exists exactly when flags, repository, current branch and listing all succeed; a listing failure is reported under "Failed to get branches" |
| Gibra.FeedPicker | src/main.rs:216-247 | `main`'s if-chain and sending loop produce exactly the feed the flags, repository, current branch and branch list determine, or the error it stops with |
| Gibra.CurrentBranchOnce | src/main.rs:237-247 | the current branch comes first unless only remotes are shown, and no later entry has its name |
| Gibra.EveryOtherBranchOffered | src/main.rs:241-247 | every listed branch with a name other than the current one reaches the picker |
| Gibra.CheckoutRemoteArgs | src/main.rs:186-207 | a remote branch with a local branch is `checkout <local>` (two arguments); one without is `checkout -b <remote>` (three arguments), the only case that creates a branch |
| Gibra.CheckoutArgs | src/main.rs:175-214 | a local branch gives `checkout <name>`, a remote with a local branch `checkout <local>`, a remote without one `checkout -b <remote>`; only the last creates a branch |
| Gibra.TrackedRemoteSwitchesToLocal | src/main.rs:186-195 | choosing a listed remote that a local tracks switches to the last such local instead of creating a branch |
| Gibra.AfterPicker | src/main.rs:255-271 | an abort exits with 130; a non-empty selection checks out its first branch; anything else is an error |

## Left out

- Threads, channels and atomics are not modelled as such. The reader and
  teardown threads' bodies are sequential methods. The crossbeam channels are
  the sequences of values sent on them. The busy-wait on `started` and the
  memory orderings are not modelled, and no interleaving of the two threads
  is modelled.
- Channel capacities (`CMD_CHANNEL_SIZE` 1024, `ITEM_CHANNEL_SIZE` 10240) and blocking on
  a full channel are not modelled. A send either succeeds or is refused, as
  the script of answers says.
- The command's output and its read errors are an input script, not a pipe.
  Spawning the command in `get_command_output` (`$SHELL` or `sh`, pipes) is
  not modelled.
- ItemReader.Collector.TeardownWorker: the child process's `kill`, `wait` and
  `try_wait`, and the replay of its standard error as items when `show_error`
  is set, are not modelled. These are OS process control and I/O. The
  contract covers only the interrupt it consumes and the counter.
- ItemReader.Collector.ReaderWorker: an item is recorded as the line it is
  built from. The conversion of a line into an item (lossy UTF-8 decoding and
  `DefaultSkimItem::new` with the ANSI flag, field ranges and delimiter) is
  not modelled. The field-range mini-language and the delimiter regular
  expression are kept as text only.
- ItemReader.Collector.ReadOnce: the buffer is stripped by a function that
  returns the shorter line, not by popping bytes off the buffer in place.
- ItemReader.Run, ItemReader.Collector.ReadLines and
  ItemReader.Collector.ReaderWorker: the read script is finite. A command
  whose reads keep failing forever makes the source loop spin without end
  (src/skim/helper/item_reader.rs:173), so the reader never sends its
  interrupt and never counts itself out. The model cannot express that run.
- The counter is modelled as a `usize` with explicit wrap-around. In the
  source it is shared through an `Arc`; the model shares one
  `LivenessCounter` object between collectors.
- Theme.FromOptions: a pair without ':' indexes `color[1]` out of bounds, and
  a 7-byte value whose bytes 1, 3 or 5 are not character boundaries makes
  the slicing fail. Both panic in the source, and the model requires that
  neither happens (`OptionWellFormed`). The option string is handled as UTF-8
  bytes, and its well-formedness as UTF-8 is not checked.
- The terminal library's `Color`, `Effect` and `Attr` are local datatypes.
  Rendering is not modelled. `Effect` is a set of flags, and `CYAN`,
  `YELLOW` and `GREEN` are palette entries 6, 3 and 2.
- Theme.ParseFormatRoundTrip: it is stated only for themes with the default
  effects, because no colour option can write an effect.
- Regular expressions are not modelled. A compiled expression carries its
  match test as an uninterpreted function.
- git itself is not modelled: discovery, opening, `head`, `branches`, `name`
  and `upstream` are input data. The tool does not look at the iterator's
  branch type. A local branch whose `upstream()` lookup errors is dropped
  along with any other failed lookup (src/main.rs:112). libgit2 reports a
  branch with no upstream that way.
- Command line parsing, the picker's UI (`Skim::run_with` and its options),
  the `as_any` downcast of the selected item and `process::exit` are not
  modelled. Running `git checkout` is modelled only as its argument list;
  whether the command succeeds is not.
- Gibra.FeedPicker: error contexts are recorded as strings, outermost first.
  The underlying library error values are not modelled.
