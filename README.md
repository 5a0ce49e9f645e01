# Course labs: sequential cores, modelled and proved in Dafny

This project models the sequential logic of a set of C++ course labs and proves
what that code promises:

- **Game of Life** (`lab2/life`): toroidal cell reads, the 3x3 neighbour count,
  the B3/S23 rule, the block split of one generation among workers, and the
  plain-text field reader and writer, with a write-then-read round trip.
- **Chord player** (`lab4/src`): the script parser (tempo line, note tokens found
  by a regular-expression search, `-` repeating the previous chord's note,
  `END`) and the control state of the chord sequencer (beat countdown, chord
  index, one generator per note), with the whole schedule of chords proved.
- **ChunkVector** (`lab1`): cutting a vector into fixed-size chunks.
- **Counters and flags**: the ticket office, the warehouse, the atomic maximum,
  the stop source and its tokens, and a bank character's cash. Each locked or
  atomic operation is one sequential step.
- **Descriptor ownership** (`lib/osWrappers/FileDesc.h`, `lab7/asyncFile`): the
  `-1` sentinel, moves that leave the source empty, close-at-most-once
  through any sequence of moves and destructions, and the read, write and
  open awaiters that queue one submission and translate a completion code.
- **Generator protocol** (`lab7/generator`): a coroutine body as a script of
  yielded values ending in completion or an exception, with the frame,
  iterator and generator as classes.
- **TV link** (`lab5/src`): the station's packet layout with 16-bit samples in
  network byte order, the receiver's sample decoder and type-byte routing,
  and what the receiver makes of the station's packets.

State that the source updates in place is a class with `modifies` clauses. Pure
logic is functions and lemmas. Each method is proved against a specification
function, and the lemmas beside that function state the promised properties.
Outside effects are parameters or recorded logs:
- results of close(2) and read(2), `errno`, clock timestamps and an encoded JPEG frame are parameters;
- close calls, queued submissions, sent datagrams and posted work are recorded in logs.

## Model

| member | source | states |
|---|---|---|
| GameOfLife.GetCell | lab2/life/Life.cpp:58-63 | The read wraps both coordinates with `(v + m) % m`. For coordinates inside the grid it returns exactly the row-major cell `y * width + x`, and that index is in bounds. |
| GameOfLife.Wrap | lab2/life/Life.cpp:60-61 | A coordinate of at least `-m` wraps into `[0, m)`. |
| GameOfLife.WrapNear | lab2/life/Life.cpp:60-61 | For coordinates within one lap of the grid, the wrap adds or removes at most one `m`. |
| GameOfLife.GetCellWraps | lab2/life/Life.cpp:58-63 | A read one step past any edge returns the cell at the opposite edge, on all four sides. |
| GameOfLife.Alive | lab2/life/Life.cpp:74 | 1 exactly when the wrapped cell is `'#'`, otherwise 0. |
| GameOfLife.Column | lab2/life/Life.cpp:67 | The column `pos % width` is in `[0, width)`. |
| GameOfLife.Row | lab2/life/Life.cpp:68 | The row `pos / width` is non-negative. |
| GameOfLife.NeighborCount | lab2/life/Life.cpp:65-82 | Reference definition: the live cells among the eight named neighbours. It is at most 8. |
| GameOfLife.ColumnSumFull | lab2/life/Life.cpp:72-78 | One run of the inner loop counts the three cells of its column, skipping the centre. |
| GameOfLife.BlockSumIsNeighborCount | lab2/life/Life.cpp:70-79 | The nested loops' visiting order counts the same cells as the reference neighbour count. |
| GameOfLife.GetLiveCellNextState | lab2/life/Life.cpp:84-89 | A live cell stays live iff it has 2 or 3 neighbours. Otherwise it becomes `'.'`. |
| GameOfLife.GetDeadCellNextState | lab2/life/Life.cpp:91-96 | A dead cell becomes live iff it has exactly 3 neighbours. Otherwise it stays `'.'`. |
| GameOfLife.NextCell | lab2/life/Life.cpp:43-45 | A new cell is always `'#'` or `'.'`. |
| GameOfLife.NextGeneration | lab2/life/Life.cpp:15-19 | The new grid has the old size. Each cell is the rule applied to the old grid. |
| GameOfLife.NextGenerationRule | lab2/life/Life.cpp:38-47 | B3/S23 for every cell of the grid. Each new cell is live or dead, and lives exactly by the rule for its old state and neighbour count. |
| GameOfLife.BlockBeginBound | lab2/life/Life.cpp:21-31 | The block starts are monotone and never pass the grid size. |
| GameOfLife.BlocksCover | lab2/life/Life.cpp:21-32 | Every cell lies in some block. |
| GameOfLife.BlocksOrdered | lab2/life/Life.cpp:24-31 | A block ends at or before the start of every later block. |
| GameOfLife.BlocksPartition | lab2/life/Life.cpp:21-32 | Blocks `[i*bs, (i+1)*bs)` with `bs = size / t`, the last running to `size`, cover `[0, size)`. Each cell lies in exactly one block, for any `t >= 1`. |
| GameOfLife.Life.constructor | lab2/life/Life.cpp:6-12 | Stores the field's cells, dimensions and the worker count. |
| GameOfLife.Life.GetField | lab2/life/Life.cpp:49-56 | Returns the current width, height and cells unchanged. |
| GameOfLife.Life.GetCellNeighborsNumber | lab2/life/Life.cpp:65-82 | The nested loops return the reference neighbour count, which lies in `[0, 8]`. |
| GameOfLife.Life.NextStepForBlock | lab2/life/Life.cpp:38-47 | Writes the next state of every cell in `[begin, end)` into `result`, reading only the old grid. Every other element of `result` is untouched. |
| GameOfLife.Life.NextStep | lab2/life/Life.cpp:15-36 | Filling the blocks one after another into a fresh buffer yields exactly the next generation of the old grid. The dimensions and worker count are unchanged. |
| IntText.SkipSpaces | lab2/life/StepMode.h:21 | Drops exactly the leading white space, keeping a suffix of the input. |
| IntText.DigitRun | lab2/life/StepMode.h:21 | The maximal run of leading digits. |
| IntText.ParseMagnitude | lab4/src/Parser.h:22 | A digit run's value. The rest starts at a non-digit. |
| IntText.ParseSigned | lab4/src/Parser.h:22 | An optional sign, then digits. The value must fit in a 32-bit `int`. |
| IntText.ParseLeadingInt | lab2/life/StepMode.h:21 | Extraction of an `int`. On success the value fits in 32 bits, some input was consumed, and the rest starts at a non-digit. |
| IntText.NatToString | lab2/life/StepMode.h:41 | Non-empty, all decimal digits. |
| IntText.IntToString | lab2/life/StepMode.h:41 | Non-empty, starting with a digit or `-`, never white space or `+`. |
| IntText.NatToStringValue | lab2/life/StepMode.h:41 | The digits written for `n` have the value `n`. |
| IntText.MagnitudeRoundTrip | lab2/life/StepMode.h:21 | Reading the digits of `m` gives `m` and stops right after them. |
| IntText.NegativeRoundTrip | lab2/life/StepMode.h:21 | A negative number in range reads back with its sign. |
| IntText.NonNegativeRoundTrip | lab2/life/StepMode.h:21 | A non-negative number in range reads back. |
| IntText.IntToStringRoundTrip | lab2/life/StepMode.h:21 | For every 32-bit `n`, reading what `<<` wrote gives back `n` and the text that follows. |
| StepMode.KeepCells | lab2/life/StepMode.h:25-32 | The kept characters are all `'#'` or `'.'`. There are no more of them than the input. |
| StepMode.KeepCellsAppend | lab2/life/StepMode.h:26-32 | The filter distributes over concatenation, so the input order is kept. |
| StepMode.KeepCellsOfCells | lab2/life/StepMode.h:28-31 | A text made only of cells is kept whole. |
| StepMode.KeepCellsOfOthers | lab2/life/StepMode.h:28 | A text with no cell character is dropped whole. |
| StepMode.IntProduct | lab2/life/StepMode.h:24 | `width * height` on two `int`s, wrapped to 32 bits. It equals the product whenever that fits in an `int`. |
| StepMode.ParseField | lab2/life/StepMode.h:16-35 | A failure after a readable header is the `length_error` of `reserve`. A loaded field has a non-negative 32-bit product of its dimensions and only `'#'`/`'.'` cells. |
| StepMode.ReadField | lab2/life/StepMode.h:16-35 | Reads the two dimensions and reserves `width * height`, failing as `ParseField` says. It then keeps exactly the `'#'` and `'.'` that follow, in order. |
| StepMode.ReadCells | lab2/life/StepMode.h:25-32 | The character loop appends exactly the filtered input. |
| StepMode.WriteField | lab2/life/StepMode.h:37-50 | Writes the header `"width height\n"`, then the cells in order, with a newline after cell `i` iff `(i+1) % width == 0 && i != 0`. |
| StepMode.CellsTextKeepsCells | lab2/life/StepMode.h:42-49 | The writer adds only newlines, so filtering its cell text gives the cells back. |
| StepMode.WriteThenRead | lab2/life/StepMode.h:16-50 | For every field with 32-bit dimensions and cells drawn from `'#'`/`'.'`, reading the written text gives back the same field. The exception is a negative 32-bit product of the dimensions (e.g. `-1 2`, or `46341 46341` which overflows): then `reserve` throws `length_error`. |
| StepMode.SpacedRoundTrip | lab2/life/StepMode.h:21 | The height is read back after the separating space. |
| StepMode.NewlineThenCells | lab2/life/StepMode.h:26-32 | The header's newline is dropped and the written cells come back. |
| StepMode.OneColumnLayout | lab2/life/StepMode.h:45-48 | A width-1 field gets no newline after its first cell, but does get one after the second. |
| StepMode.CellCountNotChecked | lab2/life/StepMode.h:24-34 | After a header whose 32-bit product is not negative, any number of cells is accepted, whatever `width * height` is. With a negative product `reserve` throws. |
| StepMode.ReserveRejects | lab2/life/StepMode.h:24 | The headers `-1 2` and `46341 46341` make the reader throw `length_error`, whatever cells follow. |
| StepMode.NewlineThenPlainCells | lab2/life/StepMode.h:26-32 | A newline followed by cells reads as those cells. |
| StepMode.BlankCellsDropped | lab2/life/StepMode.h:28 | A row of `'#'` and `' '` (the generator's dead cell) keeps only its `'#'`, and a row with a `' '` loses it. |
| StepMode.CountKept | lab2/life/StepMode.h:28-31 | Induction behind the previous row. |
| Chords.LetterAndSharpIdentify | lab4/src/Chord.h:5-8 | A pitch class is determined by its letter and its sharpness. |
| ChordParser.ParseBpm | lab4/src/Parser.h:15-30 | A missing line gives exactly "No BPM found". An accepted tempo is below 2^32. |
| ChordParser.BpmRoundTrip | lab4/src/Parser.h:15-30 | A tempo line holding a 32-bit number reads back as that number. A negative one wraps to `n + 2^32`. |
| ChordParser.UnsignedOf | lab4/src/Parser.h:22 | The `int` to `unsigned` conversion of a 32-bit value. |
| ChordParser.BpmWithoutDigits | lab4/src/Parser.h:24-27 | A first line without any digit is rejected with "Invalid BPM format". |
| ChordParser.MatchLength | lab4/src/Parser.h:43-44 | A match found at the start of the text is a whole token `[A-G]#?\d-?` or `-`. |
| ChordParser.Tokens | lab4/src/Parser.h:43-53 | Every token the search yields is a note token or `-`. |
| ChordParser.TokensSkipNoise | lab4/src/Parser.h:43-53 | Characters that cannot start a token are skipped silently. |
| ChordParser.GetNoteType | lab4/src/Parser.h:111-128 | Succeeds iff the name is one letter `A`-`G`, and then has that letter. It is sharp iff a `#` was given and the letter is not B or E. Otherwise the error is "Invalid note name: ...". |
| ChordParser.ParseNote | lab4/src/Parser.h:81-109 | Succeeds iff the text is a whole note token whose octave digit is not 9. The octave is then in 0..8, `dim` iff the token ends in `-`, and sharpness as above. A non-token gives "Invalid note format: ...". |
| ChordParser.ParseNoteOrDim | lab4/src/Parser.h:66-79 | A lone `-` at index `i` succeeds iff there is a previous chord with more than `i` notes. It then gives that note with `dim` set. Any other token is `ParseNote`. |
| ChordParser.ParseTokens | lab4/src/Parser.h:47-53 | A parsed line has one note per token. |
| ChordParser.ReadChords | lab4/src/Parser.h:32-63 | Consumes at least one line when there is one and never more than there are. Every returned chord is non-empty. |
| ChordParser.Parser.constructor | lab4/src/Parser.h:10-13 | Starts with all input lines and no previous chord. |
| ChordParser.Parser.GetBpm | lab4/src/Parser.h:15-30 | Consumes the first line and returns the tempo or its error. The remembered chord is unchanged. |
| ChordParser.Parser.GetChords | lab4/src/Parser.h:32-63 | The loop returns the script's chords or its first error. It consumes exactly the lines up to and including `END` or the failing line, and leaves the last non-empty chord remembered. |
| ChordParser.Parser.ReadLine | lab4/src/Parser.h:42-53 | The token loop yields the chord of the line's tokens, or the first token's error. |
| ChordParser.ErrorStops | lab4/src/Parser.h:48-53 | An error in a line's first tokens is the line's error. |
| ChordParser.ReadChordsStep | lab4/src/Parser.h:37-59 | One line read, seen from the whole script. |
| ChordParser.NoteText | lab4/src/Parser.h:84 | The text written for a note is a note token. |
| ChordParser.NoteRoundTrip | lab4/src/Parser.h:81-109 | Parsing the text of a note with octave 0..8 gives that note back. |
| ChordParser.OctaveNineRejected | lab4/src/Parser.h:95-99 | Octave 9 matches the grammar but is rejected with "Invalid octave". |
| ChordParser.TokensOfNote | lab4/src/Parser.h:43-44 | The search finds a note's text as one token. |
| ChordParser.TokensOfChordText | lab4/src/Parser.h:43-53 | The tokens of a written chord line are its notes' texts, in order. |
| ChordParser.ParseNoteTokens | lab4/src/Parser.h:47-53 | The texts of playable notes parse back to those notes. |
| ChordParser.ChordLineRoundTrip | lab4/src/Parser.h:42-53 | A chord line written from playable notes reads back as that chord, whatever came before. |
| ChordParser.Dashes | lab4/src/Parser.h:68 | `k` lone dash tokens. |
| ChordParser.DashesRepeatPrevious | lab4/src/Parser.h:66-77 | `k` dashes succeed iff the previous chord has at least `k` notes. They then give its first `k` notes, each with `dim` set. |
| ChordParser.DashWithoutPrevious | lab4/src/Parser.h:70-76 | A dash with no previous chord fails with "Invalid '-' note: no previous note to repeat". |
| ChordParser.EmptyLineSkipped | lab4/src/Parser.h:55-59 | A line without tokens adds no chord and keeps the remembered chord. |
| ChordParser.EndStopsReading | lab4/src/Parser.h:39-40 | Nothing after the `END` line is read. |
| ChordParser.ScriptLines | lab4/src/Parser.h:37 | One line per chord. |
| ChordParser.ScriptRoundTrip | lab4/src/Parser.h:32-63 | Written non-empty chords of playable notes, followed by `END`, read back as exactly those chords in order. Reading consumes the lines through `END` and remembers the last chord. |
| ChordSequencer.SamplesInBeat | lab4/src/ChordsGenerator.h:84 | `sampleRate * 60 / bpm` in 32-bit unsigned arithmetic: the quotient of the wrapped product, bounded as a quotient. |
| ChordSequencer.Decrement | lab4/src/ChordsGenerator.h:31 | `--` on an unsigned 32-bit counter: its successor modulo 2^32 is the old value. |
| ChordSequencer.Advance | lab4/src/ChordsGenerator.h:21-31 | One call keeps the chord index below the chord count, and moves it by at most one. |
| ChordSequencer.ChordGenerator.constructor | lab4/src/ChordsGenerator.h:12-19 | Starts at chord 0 with a full beat. Its generators are the first chord's notes. |
| ChordSequencer.ChordGenerator.GetNextSample | lab4/src/ChordsGenerator.h:21-39 | The new control state is `Advance` of the old one, and the sample is the old state's sample. Chords, rate and tempo are unchanged. |
| ChordSequencer.ChordGenerator.NextChord | lab4/src/ChordsGenerator.h:47-52 | Moves to the next chord with a full beat. |
| ChordSequencer.ChordGenerator.IsEnd | lab4/src/ChordsGenerator.h:42-45 | Once the beat is over, true exactly when a further call leaves the state unchanged, i.e. on the last chord. |
| ChordSequencer.ChordGenerator.InitGenerators | lab4/src/ChordsGenerator.h:54-65 | Afterwards there is exactly one generator per note of the current chord, in order. |
| ChordSequencer.NewChordGenerator | lab4/src/ChordsGenerator.h:56 | Fails with an out-of-range error iff the chord list is empty. Otherwise it gives a sequencer at chord 0 with a full beat. |
| ChordSequencer.Run | lab4/src/ChordsGenerator.h:42-45 | After any number of calls the chord index stays below the chord count. |
| ChordSequencer.Schedule | lab4/src/ChordsGenerator.h:21-52 | After `q*s + r + 1` calls the sequencer is at chord `q` with `s - 1 - r` samples of the beat left. |
| ChordSequencer.Finished | lab4/src/ChordsGenerator.h:23-28 | From `n*s` calls on, the state stays on the last chord with an empty beat. |
| ChordSequencer.SampleSchedule | lab4/src/ChordsGenerator.h:21-39 | Sample `q*s + r` is chord `q`: each chord sounds for exactly one beat, in order. |
| ChordSequencer.SilentAfterLastBeat | lab4/src/ChordsGenerator.h:23-28 | From sample `n*s` on, the output is silent. |
| ChordSequencer.ZeroBeatSkipsFirstChord | lab4/src/ChordsGenerator.h:84-85 | With zero samples per beat, the first call already plays the second chord, and the wrapped counter holds it for 2^32 - 1 samples. |
| Chunking.UniformLength | lab1/ChunkVector.h:18-26 | Chunks of one size `c` hold `count * c` elements. |
| Chunking.ChunkCount | lab1/ChunkVector.h:16-28 | With all chunks full but a last holding 1..c elements, the count is the rounded-up quotient. |
| Chunking.CountOfChunks | lab1/ChunkVector.h:16-28 | The same count, stated on the chunks themselves. |
| Chunking.ChunkVector | lab1/ChunkVector.h:6-31 | Laid end to end, the chunks give the input back. Every chunk but the last has `chunkSize` elements, and the last has 1..`chunkSize`. An empty input gives exactly one empty chunk. The count is `max(1, ceil(n / chunkSize))`. |
| Tickets.Sale | lab6/ticketOffice/TicketOffice.h:36-51 | A sale sells at most what was asked and what was left. Sold plus left equals what was there. Either all was sold or nothing is left. |
| Tickets.TicketOffice.constructor | lab6/ticketOffice/TicketOffice.h:7-15 | Opens with the given non-negative count and nothing sold. |
| Tickets.TicketOffice.SellTickets | lab6/ticketOffice/TicketOffice.h:25-52 | A request of 0 or fewer is refused with the source's message and changes nothing. Otherwise it returns `min(left, n)` and lowers the count by exactly that. The count never goes negative. |
| Tickets.TicketOffice.GetTicketsLeft | lab6/ticketOffice/TicketOffice.h:54-60 | Non-negative, and equal to the opening count less everything sold. |
| Tickets.NewTicketOffice | lab6/ticketOffice/TicketOffice.h:7-15 | Refuses exactly the negative counts, with "numTickets must be positive". An accepted count, 0 included, is what the office then holds. |
| Tickets.Sales | lab6/ticketOffice/TicketOffice.h:25-52 | A run of sales reports one amount per request. |
| Tickets.SalesConserve | lab6/ticketOffice/TicketOffice.h:43-44 | Over any run of sales, each sale gets at most what it asked for, and total sold plus tickets left equals the opening count. |
| Tickets.SalesExhaust | lab6/ticketOffice/TicketOffice.h:38-44 | When the requests add up to at least the opening count, every ticket is sold and none is left. |
| Tickets.SoldAtMostAsked | lab6/ticketOffice/TicketOffice.h:43 | While tickets remain, every request was served in full. |
| Warehouses.Add | lab3/warehouse/Warehouse.h:14-23 | Succeeds iff `stock + amount <= capacity`. The stock grows by `amount` on success and is unchanged otherwise. |
| Warehouses.Remove | lab3/warehouse/Warehouse.h:25-34 | Succeeds iff `stock >= amount`. The stock shrinks by `amount` on success and is unchanged otherwise. |
| Warehouses.AddKeepsBounds | lab3/warehouse/Warehouse.h:17 | With a positive amount, `0 <= stock <= capacity` is preserved by adding. |
| Warehouses.RemoveKeepsBounds | lab3/warehouse/Warehouse.h:28 | With a positive amount, `0 <= stock <= capacity` is preserved by removing. |
| Warehouses.NegativeAmountUnchecked | lab3/warehouse/Warehouse.h:14-34 | Amounts are not checked: a negative one is accepted and can take the stock below zero. |
| Warehouses.Warehouse.constructor | lab3/warehouse/Warehouse.h:9-12 | A new warehouse holds 0 goods. |
| Warehouses.Warehouse.AddGoods | lab3/warehouse/Warehouse.h:14-23 | The result and the new stock are `Add` of the old stock. The capacity is unchanged. |
| Warehouses.Warehouse.RemoveGoods | lab3/warehouse/Warehouse.h:25-34 | The result and the new stock are `Remove` of the old stock. The capacity is unchanged. |
| Warehouses.Warehouse.GetStock | lab3/warehouse/Warehouse.h:36-40 | Reads the stock, within bounds when the stock is, and changes nothing. |
| AtomicMaximum.Fold | lab6/atomicMax/AtomicMax.h:13-23 | After any sequence of updates the value is at least the initial value and every update, and equals one of them. |
| AtomicMaximum.FoldSwap | lab6/atomicMax/AtomicMax.h:13-23 | The order of two updates does not matter. |
| AtomicMaximum.AtomicMax.constructor | lab6/atomicMax/AtomicMax.h:8-11 | Stores the initial value. |
| AtomicMaximum.AtomicMax.Update | lab6/atomicMax/AtomicMax.h:13-23 | The new value is `max(old, v)`: never lower, and unchanged for `v <= old`. |
| AtomicMaximum.AtomicMax.GetValue | lab6/atomicMax/AtomicMax.h:25-28 | The maximum of the initial value and all updates so far. |
| StopTokens.StopFlag.constructor | lab6/stopToken/StopToken.h:45 | A new flag is clear. |
| StopTokens.StopFlag.TestAndSet | lab6/stopToken/StopToken.h:36 | Reports the old flag and leaves it set. |
| StopTokens.StopToken.constructor | lab6/stopToken/StopToken.h:18-21 | A token observes the flag it was given. |
| StopTokens.StopToken.Move | lab6/stopToken/StopToken.h:24 | A moved token observes the same flag, and the source token is left empty. |
| StopTokens.StopToken.StopRequested | lab6/stopToken/StopToken.h:12-15 | True iff the shared flag is set, so every token of one source answers alike. |
| StopTokens.StopSource.constructor | lab6/stopToken/StopToken.h:30 | A new source has its own clear flag. |
| StopTokens.StopSource.RequestStop | lab6/stopToken/StopToken.h:34-37 | True iff the flag was clear before. The flag is set afterwards and never clears. |
| StopTokens.StopSource.GetToken | lab6/stopToken/StopToken.h:39-42 | A new token observing this source's flag. |
| StopTokens.StopScenario | lab6/stopToken/StopToken.h:12-42 | Tokens from a fresh source read false. Only the first request succeeds. Afterwards every token reads true, whether taken before or after the request or moved. |
| Characters.Character.constructor | lab3/bank/CharactersBase.h:25-30 | Stores the initial cash. |
| Characters.Character.GetCash | lab3/bank/CharactersBase.h:32-36 | Returns the current cash. |
| Characters.Character.SpendCash | lab3/bank/CharactersBase.h:75-85 | Succeeds iff `cash >= amount`. Cash drops by exactly `amount` on success and is unchanged otherwise. |
| Characters.Character.AddCash | lab3/bank/CharactersBase.h:87-91 | Cash grows by exactly `amount`. |
| Characters.Character.TransferCash | lab3/bank/CharactersBase.h:38-47 | Moves `amount` iff the sender can spend it, and says whether it did. Otherwise neither balance changes. The sum of the two balances is preserved, and non-negative cash stays non-negative for a non-negative amount. |
| Characters.Character.StealCache | lab3/bank/CharactersBase.h:49-52 | Exactly a transfer from the victim to the thief. |
| Descriptors.Kernel.Close | lib/osWrappers/FileDesc.h:64 | Records one close(2) of the descriptor. |
| Descriptors.FileDesc.Empty | lib/osWrappers/FileDesc.h:12 | A default descriptor is `-1` and not open. |
| Descriptors.FileDesc.constructor | lib/osWrappers/FileDesc.h:14-19 | Wraps a descriptor that is `-1` or non-negative. |
| Descriptors.FileDesc.MoveFrom | lib/osWrappers/FileDesc.h:24-27 | Takes the source's descriptor and leaves the source at `-1`. |
| Descriptors.FileDesc.Swap | lib/osWrappers/FileDesc.h:50-53 | Exchanges the two descriptors. |
| Descriptors.FileDesc.IsOpen | lib/osWrappers/FileDesc.h:55-58 | A valid wrapper is open exactly when its descriptor is non-negative. |
| Descriptors.FileDesc.Get | lib/osWrappers/FileDesc.h:72-75 | Returns the descriptor held. It is at least `-1`, and `-1` exactly when the wrapper is not open. |
| Descriptors.FileDesc.Close | lib/osWrappers/FileDesc.h:60-70 | On a closed wrapper it does nothing. On an open one it calls close(2) exactly once. On success the descriptor becomes `-1`. On failure it reports `errno` and keeps the descriptor. |
| Descriptors.FileDesc.MoveAssign | lib/osWrappers/FileDesc.h:29-37 | The target gets the source's descriptor, and its old descriptor, if any, is closed through the source. Self-assignment changes nothing. |
| Descriptors.FileDesc.Destroy | lib/osWrappers/FileDesc.h:39-48 | Closes an open descriptor exactly once, swallowing a failure. |
| Descriptors.FileDesc.Read | lib/osWrappers/FileDesc.h:77-85 | On a closed wrapper it fails with "File is not open". A `-1` from read(2) becomes a system error. Otherwise it returns the count. |
| Descriptors.FileDesc.EnsureOpen | lib/osWrappers/FileDesc.h:88-94 | Fails with "File is not open" iff the descriptor is `-1`. |
| Descriptors.NewFileDesc | lib/osWrappers/FileDesc.h:14-19 | Refuses exactly the negatives other than `-1`, with "Invalid file descriptor". An accepted wrapper is open iff the descriptor is non-negative. |
| AsyncFiles.OperationState.constructor | lab7/asyncFile/Dispatcher.h:19-24 | No handle, result 0, not completed. |
| AsyncFiles.Dispatcher.constructor | lab7/asyncFile/Dispatcher.h:29-35 | No submissions yet. |
| AsyncFiles.Dispatcher.QueueOpen | lab7/asyncFile/Dispatcher.h:76-83 | Queues exactly one open with the given path, flags and mode. |
| AsyncFiles.Dispatcher.QueueRead | lab7/asyncFile/Dispatcher.h:85-92 | Queues exactly one read at offset 0. |
| AsyncFiles.Dispatcher.QueueWrite | lab7/asyncFile/Dispatcher.h:94-101 | Queues exactly one write at offset 0. |
| AsyncFiles.Completion | lab7/asyncFile/AsyncFile.h:59-66 | Succeeds iff the completion code is non-negative, returning it unchanged. Otherwise it gives the named failure. |
| AsyncFiles.ReadAwaiter.constructor | lab7/asyncFile/AsyncFile.h:43-49 | Holds the dispatcher, descriptor, buffer and count, with its own empty state. |
| AsyncFiles.ReadAwaiter.AwaitReady | lab7/asyncFile/AsyncFile.h:51 | Never ready. |
| AsyncFiles.ReadAwaiter.AwaitSuspend | lab7/asyncFile/AsyncFile.h:53-57 | Records the handle and queues exactly one read of the awaiter's descriptor, buffer and count. |
| AsyncFiles.ReadAwaiter.AwaitResume | lab7/asyncFile/AsyncFile.h:59-66 | A negative result fails with "Read failed". Otherwise the result is returned unchanged. |
| AsyncFiles.WriteAwaiter.constructor | lab7/asyncFile/AsyncFile.h:74-80 | Holds the dispatcher, descriptor, buffer and count, with its own empty state. |
| AsyncFiles.WriteAwaiter.AwaitReady | lab7/asyncFile/AsyncFile.h:82 | Never ready. |
| AsyncFiles.WriteAwaiter.AwaitSuspend | lab7/asyncFile/AsyncFile.h:84-88 | Records the handle and queues exactly one write of the awaiter's descriptor, buffer and count. |
| AsyncFiles.WriteAwaiter.AwaitResume | lab7/asyncFile/AsyncFile.h:90-97 | A negative result fails with "Write failed". Otherwise the result is returned unchanged. |
| AsyncFiles.AsyncFile.constructor | lab7/asyncFile/AsyncFile.h:7-10 | Owns the given descriptor. |
| AsyncFiles.AsyncFile.MoveFrom | lab7/asyncFile/AsyncFile.h:23-27 | Takes the source's descriptor and sets the source to `-1`. |
| AsyncFiles.AsyncFile.Destroy | lab7/asyncFile/AsyncFile.h:12-18 | Closes the descriptor iff it is not `-1`. |
| AsyncFiles.AsyncFile.MoveAssign | lab7/asyncFile/AsyncFile.h:29-41 | Closes the target's old descriptor if it is not `-1`, takes the source's, and sets the source to `-1`. Self-assignment changes nothing. |
| AsyncFiles.AsyncFile.ReadAsync | lab7/asyncFile/AsyncFile.h:69-72 | A read awaiter for this file's descriptor, buffer and count. |
| AsyncFiles.AsyncFile.AsyncWrite | lab7/asyncFile/AsyncFile.h:100-103 | A write awaiter for this file's descriptor, buffer and count. |
| AsyncFiles.StepKeepsInv | lab7/asyncFile/AsyncFile.h:12-41 | Every construction, move and destruction keeps ownership exclusive, and never closes a descriptor that is not open. |
| AsyncFiles.NeverClosedTwice | lab7/asyncFile/AsyncFile.h:12-41 | Starting from exclusive ownership, no sequence of constructions, moves and destructions closes a descriptor twice. |
| AsyncFiles.SharedDescriptorClosedTwice | lab7/asyncFile/AsyncFile.h:7-18 | Two files built from the same `int` break exclusivity, and destroying both closes it twice. |
| AsyncOpen.OpenFlags | lab7/asyncFile/OpenAsyncFile.h:32 | Read mode is read-only, with no create and no truncate. Write mode is write-only with create and always truncates. |
| AsyncOpen.FileMode | lab7/asyncFile/OpenAsyncFile.h:33 | Always `rw-r--r--` (0644), with no group or other write. |
| AsyncOpen.OpenAwaiter.constructor | lab7/asyncFile/OpenAsyncFile.h:4-10 | Holds the dispatcher, path, flags and mode, with its own empty state. |
| AsyncOpen.OpenAwaiter.AwaitReady | lab7/asyncFile/OpenAsyncFile.h:12 | Never ready. |
| AsyncOpen.OpenAwaiter.AwaitSuspend | lab7/asyncFile/OpenAsyncFile.h:14-18 | Records the handle and queues exactly one open with the awaiter's path, flags and mode. |
| AsyncOpen.OpenAwaiter.AwaitResume | lab7/asyncFile/OpenAsyncFile.h:20-27 | Fails with "File open failed" iff the result is negative. Otherwise it gives a new file owning exactly that descriptor. |
| AsyncOpen.AsyncOpenFile | lab7/asyncFile/OpenAsyncFile.h:30-35 | An awaiter for the path, with the mode's flags and the fixed permissions. |
| Generators.PromiseAfter | lab7/generator/Generator.h:21-26 | The body has finished exactly after its last yield's resumption plus one. |
| Generators.Get | lab7/generator/Generator.h:46-54 | A stored exception comes first, then the value. With neither there is a logic error. |
| Generators.NothingBeforeResume | lab7/generator/Generator.h:56 | A new frame has not run: it is not done and there is no value to read. |
| Generators.LatestValue | lab7/generator/Generator.h:21-26 | After the `k`-th yield, reading gives the `k`-th value. |
| Generators.ExceptionBeforeValue | lab7/generator/Generator.h:38-48 | After the body throws, reading rethrows, whatever value was yielded last. |
| Generators.Frame.constructor | lab7/generator/Generator.h:56 | A new frame is suspended at its start and has not been destroyed. |
| Generators.Frame.YieldValue | lab7/generator/Generator.h:21-26 | Replaces the stored value. Nothing else changes. |
| Generators.Frame.UnhandledException | lab7/generator/Generator.h:59-62 | Stores the exception. Nothing else changes. |
| Generators.Frame.HasException | lab7/generator/Generator.h:28-31 | With a stored exception, reading the promise rethrows it, whatever value is stored. |
| Generators.Frame.HasValue | lab7/generator/Generator.h:33-36 | Without an exception, reading the promise gives the value if there is one, and the "called without resume" logic error otherwise. |
| Generators.Frame.ThrowIfException | lab7/generator/Generator.h:38-44 | Fails with the stored exception iff there is one. |
| Generators.Frame.GetValue | lab7/generator/Generator.h:46-54 | The promise's `Get`. |
| Generators.Frame.Resume | lab7/generator/Generator.h:21-26 | Runs the body one step further and keeps the promise in line with the script. |
| Generators.Frame.Destroy | lab7/generator/Generator.h:101 | Counts one destruction. |
| Generators.Iterator.Default | lab7/generator/Generator.h:123 | A default iterator is empty. |
| Generators.Iterator.constructor | lab7/generator/Generator.h:182-186 | Points at the frame. |
| Generators.Iterator.Increment | lab7/generator/Generator.h:160-174 | Resumes the frame once. If the body finished, the iterator becomes equal to the end and the stored exception, if any, is rethrown. Otherwise it keeps the frame. |
| Generators.Iterator.Deref | lab7/generator/Generator.h:149-153 | After the `k`-th yield, dereferencing gives the `k`-th value. |
| Generators.Iterator.AtEnd | lab7/generator/Generator.h:176-179 | Equal to the end sentinel iff the handle is empty. |
| Generators.Iterator.MoveFrom | lab7/generator/Generator.h:129-132 | Takes the source's frame and empties the source. |
| Generators.Iterator.MoveAssignAsWritten | lab7/generator/Generator.h:134-145 | Destroys the frame it pointed at, then takes the source's frame and empties the source. |
| Generators.Iterator.MoveAssign | lab7/generator/Generator.h:134-145 | Corrected: takes the source's frame and empties the source, destroying nothing. |
| Generators.Generator.constructor | lab7/generator/Generator.h:74-77 | Owns the frame. |
| Generators.Generator.MoveFrom | lab7/generator/Generator.h:83-86 | Takes the source's frame and empties the source. |
| Generators.Generator.MoveAssign | lab7/generator/Generator.h:88-95 | Takes the source's frame and empties the source, without destroying its own previous frame. |
| Generators.Generator.Destroy | lab7/generator/Generator.h:97-103 | Destroys the owned frame, if any, once. |
| Generators.Generator.GetValue | lab7/generator/Generator.h:105-109 | The frame's `GetValue`. |
| Generators.Generator.Begin | lab7/generator/Generator.h:191-194 | An iterator advanced once: the body has run to its first yield or its end. |
| Generators.ForEach | lab7/generator/Generator.h:160-194 | A range-for over a fresh generator sees exactly the yielded values, in order, and then the body's exception, if it throws one. |
| Generators.ThrowingBodyScenario | lab7/generator/Generator.h:160-174 | A body that yields 1 and 2 and then throws gives 1, 2 and then that exception. |
| Generators.ReassignedIteratorAsWritten | lab7/generator/Generator.h:134-145 | With the move assignment as written, re-pointing an iterator and destroying both generators destroys the first frame twice. |
| Generators.ReassignedIterator | lab7/generator/Generator.h:134-145 | With the corrected move assignment, the same program destroys each frame exactly once. |
| Generators.DestroyHandle | lab7/generator/Generator.h:101 | Destroying a non-empty handle adds one destruction to its frame. An empty handle changes nothing. |
| Generators.FrameStepKeepsInv | lab7/generator/Generator.h:74-145 | With the corrected iterator move assignment, every step keeps three facts: generators own distinct frames, no owned frame has been destroyed, and no frame has been destroyed twice. The steps are creating a generator, `begin()`, moving an iterator or a generator, reaching the end, and destroying an iterator or a generator. |
| Generators.EachFrameDestroyedAtMostOnce | lab7/generator/Generator.h:74-145 | With the corrected iterator move assignment, no program of such steps destroys any frame twice. |
| Generators.ReassignProgramDestroys | lab7/generator/Generator.h:134-145 | The reassignment program as steps: the move as written destroys the first frame twice, and the corrected move destroys each frame once. |
| PacketTypes.LittleEndian | lab5/src/PacketType.h:7-12 | Exactly `n` bytes. |
| PacketTypes.LittleEndianRoundTrip | lab5/src/PacketType.h:7-12 | A number that fits in `n` bytes reads back from its little-endian bytes. |
| PacketTypes.HeaderBytes | lab5/src/PacketType.h:7-12 | The header is 24 bytes and starts with the type byte. |
| PacketTypes.HeaderFields | lab5/src/PacketType.h:7-12 | The timestamp and sequence number read back from bytes 8..16 and 16..20. |
| TVStations.ToUnsigned16 | lab5/src/TVStation/TVStation.h:60 | The two's-complement bit pattern of a sample as `uint16_t`. |
| TVStations.NetworkBytes | lab5/src/TVStation/TVStation.h:59-63 | Two bytes, high byte first, forming the sample's bit pattern. |
| TVStations.EncodeSamples | lab5/src/TVStation/TVStation.h:56-64 | Two bytes per sample, in order: bytes `2k` and `2k+1` are sample `k` in network order. |
| TVStations.AudioPacket | lab5/src/TVStation/TVStation.h:51-53 | The length is the header size plus twice the sample count, and the packet starts with the type. |
| TVStations.VideoPacket | lab5/src/TVStation/TVStation.h:39-42 | The header, then exactly the frame. |
| TVStations.TVStation.constructor | lab5/src/TVStation/TVStation.h:78-79 | Both sequence counters start at 0, and nothing has been sent. |
| TVStations.TVStation.HandleFrame | lab5/src/TVStation/TVStation.h:26-45 | Sends one video packet under the current video number. The video number increases by one modulo 2^32, and the audio number is untouched. |
| TVStations.TVStation.HandleAudio | lab5/src/TVStation/TVStation.h:47-67 | Sends one audio packet of type `0x01` under the current audio number. The audio number increases by one modulo 2^32, and the video number is untouched. |
| TVStations.WriteAudioPacket | lab5/src/TVStation/TVStation.h:53-64 | The in-place writes produce exactly the header followed by the encoded samples. |
| TVReceivers.FromNetwork | lab5/src/TVReceiver/TVReceiver.h:86 | The big-endian 16-bit value of two bytes read as signed. It is negative iff the high bit is set. |
| TVReceivers.DecodedSamples | lab5/src/TVReceiver/TVReceiver.h:80-81 | `floor(n / 2)` samples, ignoring an odd trailing byte. |
| TVReceivers.ParseAudioPacket | lab5/src/TVReceiver/TVReceiver.h:78-90 | Fills a new buffer of `floor(n / 2)` samples. Sample `i` is the big-endian value of bytes `2i`, `2i+1`, read as signed. |
| TVReceivers.Route | lab5/src/TVReceiver/TVReceiver.h:31-56 | As written: audio iff running, non-empty and type `0x01`; video iff running, non-empty and type `0x02`; otherwise dropped. The payload is everything after byte 0. |
| TVReceivers.RouteAfterHeader | lab5/src/TVReceiver/TVReceiver.h:31-56 | Corrected: the same decision, with the payload starting after the 24-byte header. |
| TVReceivers.TVReceiver.constructor | lab5/src/TVReceiver/TVReceiver.h:95 | Starts running with nothing posted. |
| TVReceivers.TVReceiver.StopProcessing | lab5/src/TVReceiver/TVReceiver.h:18-22 | Stops taking datagrams. Nothing posted changes. |
| TVReceivers.TVReceiver.OnReceive | lab5/src/TVReceiver/TVReceiver.h:31-56 | Posts decoded audio or a video payload exactly as `Route` decides, and nothing for a dropped datagram. |
| AudioWire.SampleRoundTrip | lab5/src/TVReceiver/TVReceiver.h:86 | Every sample survives the trip through network byte order. |
| AudioWire.SampleRegionRoundTrip | lab5/src/TVStation/TVStation.h:56-64 | Decoding the encoded sample region gives the samples back, in order. |
| AudioWire.OddByteIgnored | lab5/src/TVReceiver/TVReceiver.h:80-81 | An odd trailing byte after the samples is ignored. |
| AudioWire.WholePacketAsWritten | lab5/src/TVReceiver/TVReceiver.h:38-44 | As written, every audio packet decodes to 11 samples more than were sent, never to the samples themselves. |
| AudioWire.WholePacketRoundTrip | lab5/src/TVStation/TVStation.h:51-64 | With the header skipped, the receiver gets exactly the samples the station sent. |
| AudioWire.VideoRoundTrip | lab5/src/TVStation/TVStation.h:39-42 | With the header skipped, the receiver gets exactly the frame the station sent. |
| AudioWire.VideoPacketAsWritten | lab5/src/TVReceiver/TVReceiver.h:49-51 | As written, a video payload keeps 23 header bytes in front of the frame. |

## Left out

- Threads, locks, atomics and memory orderings. Every locked or atomic operation is one sequential step, and the Game of Life blocks are filled one after another. The thread pools, the simulation, the warehouse actors and the Gaussian blur are not part of this model.
- GameOfLife.Life.constructor: requires at least `width * height` cells, positive dimensions and at least one worker. The source checks none of these: fewer cells make its reads go out of bounds, and zero workers divide by zero.
- GameOfLife.GetCell: requires coordinates no further than one lap outside the grid. That is all the neighbour count asks for, and further out the source's `%` would give a negative index.
- StepMode.ReadField: a failed extraction of a dimension is modelled as an unreadable header. The stream's behaviour after a failure is not modelled: 0 or a clamped value in the width, an indeterminate height, no cells read. The overflow of `width * height` is modelled as 32-bit two's-complement wrap-around: that is what the hardware computes, though C++ leaves signed overflow undefined. A non-negative size too large to allocate (`bad_alloc`) is not modelled.
- StepMode.WriteField: requires a non-zero width when there are cells. The source computes `(i + 1) % width` and divides by zero for width 0. StepMode.CellsText, StepMode.FieldText and StepMode.WriteThenRead share that precondition.
- File and console I/O: file contents are strings, and opening a file cannot fail. `MeasureTime` and the command-line front-ends are not part of this model.
- IntText.ParseLeadingInt: models `>>` and `std::stoi` on ASCII decimal text only, with no locale.
- ChordParser: the input stream is given as its lines, and how `getline` splits them is not modelled. The `wave` field of a note is not modelled.
- ChordSequencer.ChordGenerator.GetNextSample: does not compute the floating-point sample. The sine generators, their amplitudes, the dim fade and `GetNoteFrequency` are abstracted to the set of notes that sound.
- ChordSequencer.ChordGenerator.constructor: requires a non-empty chord list and a non-zero tempo. The empty list's exception from `at(0)` is modelled by `NewChordGenerator`. A zero tempo divides by zero in the source.
- Warehouses.Add: does not model 32-bit overflow of `stock + amount`; amounts are unbounded integers.
- Characters.Character: `Money` comes from Bank.h, which is not part of this model, and is an unbounded integer. `CharacterWithCard`, `Log`, `Run` and `Step` are not modelled.
- AtomicMaximum.AtomicMax: the value type `T` is modelled as `int`.
- StopTokens.StopToken.StopRequested: requires a token that has not been moved from. The source would dereference an empty pointer.
- Descriptors.FileDesc.Read: models the open check and the count only, not the bytes placed in the buffer. The results of read(2) and close(2) and `errno` are parameters.
- AsyncFiles: buffers are addresses and coroutine handles are numbers. The results of close(2) in the destructor and move assignment are ignored, as in the source.
- AsyncFiles.Dispatcher: only the queue calls are modelled. The io_uring ring, the completion loop `Run`, `QueueClose`, `Stop` and `Wait` are not. Task.h, CopyFile.h and main.cpp are not part of this model.
- AsyncOpen: flag and permission values are those of Linux.
- Generators: values are generic and `operator->` is not modelled. `get_return_object`, `initial_suspend`, `final_suspend` and `return_void` are folded into the frame's constructor and `Resume`. `end()` is `Iterator.AtEnd`. The source's `assert`s on the handle become preconditions.
- Generators.Generator.MoveAssign: the previous frame is neither destroyed nor kept, so it leaks. The contract states this but no lemma counts leaked frames.
- TVStations: the camera, microphone, frame resizing and JPEG encoding, the clock and the socket are not modelled. The encoded frame and timestamp are parameters, and a sent datagram is recorded. The `sampleRate` argument of `HandleAudio` is unused in the source and omitted.
- PacketTypes.HeaderBytes: the header's padding bytes are copied from uninitialised memory in the source; they are modelled as zero.
- TVReceivers: the socket, the thread pool and the image and audio output are not modelled. Work posted to the pool is recorded in a queue per kind.

## Findings

| source | as written | input that shows it | evidently intended | confidence | as-written member | corrected member |
|---|---|---|---|---|---|---|
| lab5/src/TVReceiver/TVReceiver.h:39-40 | The receiver skips 1 byte before the payload, but the station puts the 24-byte `MediaHeader` before the samples and before the frame. | Any audio packet: one with no samples decodes as 11 samples made of header bytes. | The payload starts after `sizeof(MediaHeader)` bytes, so the samples the station sent come back. | not executed | AudioWire.WholePacketAsWritten | AudioWire.WholePacketRoundTrip |
| lab7/generator/Generator.h:138-141 | `Iterator`'s move assignment destroys the frame it pointed at, although the `Generator` owns that frame and destroys it again. | `it = g2.begin()` while `it` is inside `g1`'s unfinished body, then both generators go out of scope: the first frame is destroyed twice. | The iterator does not own the frame, so move assignment only moves the pointer. | not executed | Generators.ReassignedIteratorAsWritten | Generators.EachFrameDestroyedAtMostOnce |
