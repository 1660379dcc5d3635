# A verified model of the `sc` interpreter and its SECS stack

`sc` is a small interpreter for factory scripts with a SECS message stack under it. This project
models its hard parts in Dafny and proves that they do what they are for. `dafny verify
dfyconfig.toml` checks everything.

Code that works step by step in the source is a class or a method with loops here, and every such
method is proved equal to a function of its inputs and the old state; the theorems are lemmas about
those functions. Arithmetic and string operators, the text of floating point numbers and the way a
text is read as a number are parameters.

## Parts

**Expressions** (`Tokens`, `Program`, `Expression`, `ExpressionTree`, `ExpressionParsing`,
`ExpressionSolving`, `ExpressionMeaning`, `Evaluator`). The parser pushes tokens on a queue in
reading order and the solver takes them from the right. On the tokens of any expression tree the two
together give the value of the tree, read from the right and without precedence levels. The reading
one would expect of several signs in a row is given exactly by the trees that `Readable` describes:
in front of an operator only the innermost sign belongs to its operand, the others apply to the value
of the whole rest.

**Control flow** (`Flow`, `Structured`, `FlowScans`, `FlowTurns`, `FlowLoops`, `FlowCorrect`,
`FlowTheorem`, `FlowLimits`, `FlowErrors`, `FlowIndices`, `Interpreter`). There is no syntax tree: IF, WHILE and FOR
scan forward with counters and jump to saved indices. A script tree, with NO_ERROR and ERROR = clauses
behind its statements, has a big-step meaning, and the run of its flat tokens ends the same way with the
same variables, or goes on for ever exactly when the meaning does; `FlowLimits` says where the two part,
and `FlowErrors` what becomes of loops and branches that are never closed. The interpreter runs on the stored bytes of the
program, and its cursor and saved indices are at any time the offsets of the tokens at which the run by
tokens stands. A condition behind ELSE_IF that cannot be computed does not stop the script, its branch is
taken (source/if.c:91-103 drops the result of the recursive call); the meaning says so too.

**Message text** (`SecsItems`, `SecsTree`, `SmlEncode`, `SmlTree`, `SmlPasses`, `SmlTheorem`,
`SmlScope`, `SmlErrors`, `SmlEncoder`, `SmlPrint`, `SmlReprint`, `SmlPrinter`, `SmlVariables`,
`Numerals`, `Bytes`, `Machine`). The encoder counts the elements of a list by running ahead through its FOR loops before it encodes them.
A message text has a meaning in which every loop variable is bound in its own loop alone, and the
encoder writes the one encoding of that meaning. What `make_log` prints of a message encodes to the
same bytes, also I1 values, which it prints without their sign. The format codes are those of section 9
of SEMI E5.

**Decoding** (`SecsWalk`, `SecsCodes`, `SecsRoundTrip`, `SecsText`, `SecsDecoder`, `SecsMeaning`,
`SecsJoin`, `SecsPlain`). Each of
the two decoders walks over the bytes with counter stacks, in a loop of its own. On the encoding of
items they report the items in pre-order; the outermost counter wraps to 2^32 - 1 at the first item and
does not come back to zero. On every buffer the variables of the second are those of the first with the
values of each item joined. On a message of values both report the values: numbers in decimal with their
sign, truth values, characters, bytes in hexadecimal, under the names of their places. A walk that would read
behind the message, or has no room for a level or a line, is `Undefined` here.

**The link** (`Checksum`, `LinkProtocol`, `LinkSafety`, `LinkLiveness`, `LinkMessages`, `Blocks`,
`Transactions`). Two peers, each a state machine over bytes, with a line in each direction. With
`rbit` on exactly one side every interleaving delivers every block once and in order and comes to an
end; with it on both sides or on neither there are runs that get stuck. Where both have begun, no block
of the side that gives way arrives before the message of the other is over. Blocks are split and put
together again; the table of open transactions answers the first reply in time.

**Variables, labels, timers and the stored program** (`VariableStore`, `VariableLaws`, `Gosub`,
`GosubQueue`, `GosubLaws`, `GosubParameters`, `GosubTokens`, `Labels`, `Timers`, `Resuming`,
`ProgramText`). GOSUB and RETURN, the table of labels and what resumes a program work on the stored
bytes; every index they keep is the offset of a token. The arguments of a call go through a queue of
bytes, in which the number of bytes a token type takes, and what lies in memory behind the one byte that
holds it, are parameters.

## Where the code is not what one might expect

- source/send_secs.c:151 sets the message size to zero after line 139 has read it, so as it stands
  a message arrives if and only if it is empty (`Blocks.ZeroSizeArrives`). The split loop is modelled
  with the size it is given on entry (`Blocks.SizeDecides`).
- source/recv_secs.c:132-136 keeps no header for the first block of a message, so a repeated first
  block is taken twice; `Blocks.ReassemblesExactly` says exactly when a message comes out whole.
- source/break.c:74-85 leaves `for_nest` raised. `FlowLimits.SpoiledRuns` is a script that ends with
  other variables for it; `FlowLimits.NestBack` says exactly when the nest comes back, and
  `FlowLimits.GuardSuffices` that it does in proper scripts, where the innermost loop around a
  BREAK_LOOP is a WHILE.
- source/if.c:91-103 drops the error of a condition behind ELSE_IF: a branch is taken all the same
  (`FlowLimits.BranchTaken`), and `FlowLimits.ErrorDropped` says exactly when. The structured meaning
  has it like the code.
- The scan over an empty FOR looks for NEXT and the loop's name. It finds the NEXT of its own loop if
  and only if no FOR inside has the same name (`FlowLimits.SkipFindsNext`);
  `FlowLimits.SameNameDisagrees` is a script it spoils.
- The first variable ever put goes to the level of its program whatever its type
  (source/variables.c:103-131). `VariableLaws.GlobalKey` says exactly when a global value goes to the
  default program, `VariableLaws.GetAfterGlobal` where it is read back, and
  `VariableLaws.FirstGlobalHidden` is a first value that another program does not see.
- A write through a reference reaches entries that are DEFINEd (source/variables.c:259-281);
  `VariableLaws.DefinedChanges` says exactly when such an entry changes.
- source/secs.c:127 does not ask whether an entry is active, so a second reply to the same message may
  be answered (`Transactions.AnsweredTwice`). `Transactions.SecondReply` says exactly when it is.
- source/expression.c:480-509: several signs in front of an operand that is not the last;
  `ExpressionMeaning.PlainReadingExactly` says exactly which expressions have the plain value.
- source/gosub.c:115 and 129 queue `sizeof(type)` bytes for the type of an argument, and lines 180-181
  take one off. So arguments come back as they were queued if and only if a type takes one byte
  (`GosubQueue.BackExactly`). With types of four bytes, as the compilers of CMakeLists.txt have them, the
  text "a" is taken for one of 16777216 bytes (`GosubQueue.FourByteType`), and a call whose first
  argument has a text of 1 to 255 bytes reads behind the end of its queue (`GosubParameters.CallGoes`).
  What is said of parameters is said for types of one byte.
- The variables of labels and the other variables of the interpreter's own have the same keys, so inside
  of FOR i = 1 TO 2 a GOSUB to the name `TO.1` goes to the byte 2 of the program, which may be the middle
  of a token (`GosubTokens.JumpsIntoToken`). `GosubTokens.JumpsOnToken` says exactly when a GOSUB goes to
  a token.
- source/timers.c:228-246 gives every timer number but 0 the next timer free from 10 on
  (`Timers.OnlyZeroTaken`).
- source/secs.c:139 stops the timer number kept with the message, also on a second reply, when the number
  may have been given to another timer; `Resuming.SecondReplyStops` says exactly when it has.

- source/gosub.c:65-103 keeps the status of the last lookup: an unknown label is no error where the call
  passes an identifier that is there, and the call goes to the start of the program.
  `GosubParameters.CallErrors` says exactly when a call is an error.
- The variable that the second decoder stores for an item of numbers ends in a blank. Put into an item
  again it gives the bytes of all its numbers, and an error (`SmlVariables.JoinedRejected`).
- BREAK_LOOP and CONTINUE outside of loops skip the rest of the program (`FlowErrors.OutsideLoops`).

## Model

| member | source | states |
|---|---|---|
| ProgramText.StoredProgram.GetToken | source/program.c:492-521 | on the bytes, the token at the cursor with a `$` variable replaced, the cursor at the next token and the index to push back to; past the end the null token |
| ProgramText.StoredProgram.GetTokenNoEval | source/program.c:526-550 | the same without replacement: the cursor goes from the offset of a token to that of the next |
| ProgramText.StoredProgram.PutToken | source/program.c:554-563 | the cursor is where the last token was read |
| ProgramText.StoredProgram.SetIdx | source/program.c:580-592 | the cursor is at the token whose offset was taken earlier |
| Evaluators.Evaluator.QToken | source/expression.c:2090-2124 | a full queue ends the process and changes nothing, otherwise the token is on top |
| Evaluators.Evaluator.DqToken | source/expression.c:2128-2159 | the top of the queue and the rest, or the null token of an empty queue |
| Evaluators.Evaluator.Expr | source/expression.c:101-141 | the parser's queue, cursor and failure are those of the parsing functions |
| Evaluators.Evaluator.Term | source/expression.c:148-262 | the same for an operand with its signs and parentheses |
| Evaluators.Evaluator.Func | source/expression.c:266-337 | the same for a call and its arguments |
| Evaluators.Evaluator.SolveLoop | source/expression.c:341-596 | the solving loop on the shared queue computes the solving functions, which take as measure the length of the queue |
| Evaluators.Evaluator.SolveFunctionCall | source/expression.c:600-682 | the argument loop fills the slots from the right and calls the function |
| Evaluators.Evaluator.Expression | source/expression.c:66-97 | parse and solve together, from an empty queue |
| ExpressionParsing.ParseExprPushes | source/expression.c:101-141 | the tokens of any tree are consumed exactly and leave the tree's image on top of the queue, or the queue overflows exactly when it does not fit |
| ExpressionParsing.ParseTermPushes | source/expression.c:148-262 | the same for operands |
| ExpressionParsing.ParseArgsPushes | source/expression.c:267-337 | the same for argument lists |
| ExpressionSolving.SolvesExpr | source/expression.c:341-596 | solving a tree's image standing on any queue behaves as solving its value there |
| ExpressionSolving.SolvesLeft | source/expression.c:447-590 | an operand left of an operator: its innermost sign is its own, the others apply to the value of the rest |
| ExpressionSolving.SolvesCall | source/expression.c:600-682 | a call with its arguments is replaced by the function's result, the last argument in the first slot |
| ExpressionMeaning.EvaluatesTree | source/expression.c:66-97 | `expression()` on the tokens of any tree in front of a token that is no operator consumes them and returns the tree's value or failure; it ends the process exactly when the tree's image is longer than the queue |
| ExpressionMeaning.OverflowsAt | source/expression.c:2090-2124 | an expression ends the process if and only if it has more than 500 tokens on the queue |
| ExpressionMeaning.PlainReadingExactly | source/expression.c:480-509 | the trees whose value is the plain right-associative one under all operators are exactly those without harmful signs |
| Interpreters.Interpreter.Compute | source/expression.c:66-97 | an expression at the cursor, its text, and what a command makes of its status |
| Interpreters.Interpreter.SkipBranch | source/if.c:64-105 | the cursor is behind the token the counting scan stops at |
| Interpreters.Interpreter.CmdIf | source/if.c:37-114 | the whole state after IF, the recursion on ELSE_IF included |
| Interpreters.Interpreter.CmdElse | source/if.c:124-160 | a taken branch ends behind its END_IF; the same code stands at lines 169-210 for ELSE_IF |
| Interpreters.Interpreter.SaveLoop | source/while.c:63-69 | WHILE.n keeps the offset of the WHILE itself, and the cursor is where it was |
| Interpreters.Interpreter.CmdWhile | source/while.c:40-121 | nest, saved index and cursor after WHILE |
| Interpreters.Interpreter.CmdEndWhile | source/while.c:124-169 | back to the WHILE of the innermost level, one level lower |
| Interpreters.Interpreter.CmdFor | source/for.c:38-200 | variable, limits, saved index, nest and cursor after FOR, or the skip of an empty range |
| Interpreters.Interpreter.ForLimits | source/for.c:86-136 | the part from TO on |
| Interpreters.Interpreter.CmdNext | source/for.c:204-294 | another round from the saved index with the wrapped sum, or the end of the loop |
| Interpreters.Interpreter.CmdContinue | source/continue.c:34-97 | the cursor at the NEXT or END_WHILE of the innermost loop |
| Interpreters.Interpreter.CmdBreak | source/break.c:35-103 | the cursor behind the innermost loop, and which nest is lowered |
| Interpreters.Interpreter.CmdLet | source/let.c:69-124 | the variable named by an identifier or by the value of a `$` variable has the value computed |
| Interpreters.Interpreter.Round | source/execute.c:69-359 | one token dispatched is one turn of the machine |
| Interpreters.Interpreter.Fail | source/execute.c:369-435 | behind an error NO_ERROR is passed and the run goes on, ERROR = sends it to a label, and without either it ends with both nests reset |
| Interpreters.Interpreter.Execute | source/execute.c:69-359 | any number of rounds is that many turns |
| Interpreters.RunStored | source/program.c:492-645 | a stored program run from its first byte: after any number of rounds the cursor and the indices kept in WHILE.n and FOR.n are the offsets of the tokens at which the run by tokens stands, with the same variables, nests and end |
| FlowScans.BlockNeutral | source/if.c:64-105 | a whole block leaves every forward scan with its counters as they were |
| FlowTurns.IfPicks | source/if.c:37-114 | `cmd_if` on any IF lands in the branch its conditions pick, or behind the END_IF |
| FlowLoops.WhileTurn | source/while.c:40-121 | WHILE enters its body one level deeper or passes behind its END_WHILE at the level it had |
| FlowLoops.ForTurn | source/for.c:38-200 | FOR enters its body with its limits saved one level deeper or passes behind its own NEXT |
| FlowLoops.NextTurn | source/for.c:204-294 | NEXT on the loop's own level goes round again or leaves it one level lower |
| FlowLimits.NestBack | source/break.c:74-85 | a FOR whose body may BREAK_LOOP on its own level goes on behind its NEXT as its meaning says; its nest is back at the value on entry if and only if the rounds do not end at a BREAK_LOOP, else one higher |
| FlowLimits.GuardSuffices | source/for.c:204-294 | where no BREAK_LOOP stands on the FOR's own level the rounds never end at one, so the nest is back |
| FlowLimits.SpoiledMeans | source/break.c:48-103 | what FOR i = 1 TO 1, FOR j = 1 TO 2, BREAK_LOOP, NEXT j, NEXT i means: i stays 1 |
| FlowLimits.SpoiledRuns | source/break.c:74-85 | its run ends with i at 2 and a nest of 1 |
| FlowLimits.ErrorDropped | source/if.c:91-103 | `cmd_if` ends in an error as any failing condition should make it, if and only if no condition it comes to behind an ELSE_IF fails; else it takes a branch |
| FlowLimits.BranchTaken | source/if.c:91-103 | IF 0 with a failing ELSE_IF takes the branch of the ELSE_IF |
| FlowLimits.SkipFindsNext | source/for.c:147-188 | the skip of an empty FOR finds the name behind its own NEXT if and only if no FOR inside has its name; else it stops inside the body |
| FlowLimits.SameNameDisagrees | source/for.c:147-188 | FOR i = 2 TO 1 around FOR i = 1 TO 1 means that i is 2; its run ends the process at the outer NEXT |
| FlowCorrect.BlockLands | source/execute.c:69-359 | a block anywhere in a program ends where its meaning says, with the variables it says, both nests and all outer levels as they were |
| FlowTheorem.ScriptAgrees | source/execute.c:69-435 | for every proper script, wherever it stands in front of BREAK, AFTER, BEGIN, END, LABEL or the end of the program, statements with NO_ERROR or ERROR = behind them and values where a command should be included: each way of ending with given variables is a way of the run if and only if it is one of the meaning, finished runs are behind the token that ends them with both nests restored, an error nothing catches resets them, and the run goes on for ever if and only if the meaning does |
| FlowErrors.UnclosedIf | source/if.c:64-88 | an IF without END_IF goes into its branch, and is an error where its condition does not hold |
| FlowErrors.UnclosedWhile | source/while.c:84-110 | a WHILE without END_WHILE enters its body, and is an error where its condition does not hold |
| FlowErrors.UnclosedFor | source/for.c:151-188 | a FOR without NEXT begins to count, and is an error where its range is empty |
| FlowErrors.OutsideLoops | source/break.c:48-103 | BREAK_LOOP or CONTINUE with no loop around it leads to the end of the program |
| FlowErrors.EndWhileAlone | source/while.c:136-139 | END_WHILE with no WHILE open is passed over |
| FlowIndices.RunInside | source/while.c:63-71 | no turn of any run by tokens leaves the program, from any state with its indices in it |
| SecsItems.SizeBytesExact | source/secs_encode_sml.c:979-1024 | the length bytes denote the length, and no fewer would |
| SecsItems.ConvertNumbers | source/secs_encode_sml.c:315-345 | all numbers of a text, each in its width, up to the first that is none |
| SecsCodes.CodesStandard | headers/secs.h:33-46 | the code of every format is four times its number in section 9 of SEMI E5 |
| SecsCodes.KnownExactly | source/secs_decode_sml.c:119-184 | the decoders know exactly these codes, each as its format, and 0 as a list |
| SecsCodes.WordsStandard | source/secs_encode_sml.c:171-850 | the word of every format is read as it |
| Numerals.Utoa | source/utility.c:90-108 | the decimal digits of an unsigned number, laid down from the end of the buffer without leaving it |
| Numerals.Itoa | source/utility.c:55-86 | the same with a sign |
| Numerals.Atou | source/utility.c:243-273 | the number modulo 2^64 and the characters consumed |
| Numerals.Atoi | source/utility.c:203-240 | the number as a 32-bit integer holds it and the characters consumed |
| Numerals.UnsignedRoundTrip | source/utility.c:90-108 | what is printed is read back, for all 64-bit numbers |
| Numerals.SignedRoundTrip | source/utility.c:55-86 | what is printed is read back as the number wrapped to 32 bits |
| SmlEncoders.Encoder.ReadData | source/secs_encode_sml.c:181-193 | the data of an item up to `>`, or no end |
| SmlEncoders.Encoder.CountElements | source/secs_encode_sml.c:909-975 | the look-ahead: the count, the cursor back, and the loops it ran |
| SmlEncoders.Encoder.Encode | source/secs_encode_sml.c:132-880 | buffer, state and verdict after any number of rounds are those of the machine |
| SmlPasses.EnterSteady | source/for.c:38-200 | a loop's bounds are the same whatever a look-ahead left in the loop variables |
| SmlTheorem.ListEmits | source/secs_encode_sml.c:152-164 | a list is passed over twice and the count of the first pass is the number of items of the second |
| SmlTheorem.ForestPasses | source/secs_encode_sml.c:909-975 | emitting and counting pass over any text as its meaning says, restoring nests and outer levels |
| SmlTheorem.EncodesMeaning | source/secs_encode_sml.c:50-905 | a text whose bounds and data use no variable of a loop they are not in is encoded as the items it means: every list header holds the number of items in the list |
| SmlErrors.BadItemRejected | source/secs_encode_sml.c:165-880 | behind any text that means something, an item with a word that names no format, or with data that cannot be converted, ends the encoding with an error |
| SmlScope.PlainSteady | source/for.c:38-200 | bounds made of constants and outer variables satisfy what the theorem asks of them |
| SmlPrinters.MakeLog | source/secs_encode_sml.c:1028-1412 | the text printed for any buffer without floating point items is the spelling of the words of its items |
| SmlReprint.StoredBack | source/secs_encode_sml.c:1226-1300 | the number printed for a value is stored as the value's bytes again |
| SmlReprint.PrintThenEncode | source/secs_encode_sml.c:1028-1412 | lists, ASCII, 0/1 booleans, U1 to U8 and I1 to I8 (I8 within 32 bits): the printed text encodes to the same buffer |
| SmlVariables.VariableEncodes | source/secs_encode_sml.c:171-850 | what a decoder stores for a truth value or a number is converted to the bytes of the value again (I8 within 32 bits) |
| SmlVariables.HexRoundTrip | source/secs_encode_sml.c:268-300 | a byte in hexadecimal is read as the byte |
| SmlVariables.TruthsRead | source/secs_encode_sml.c:205-262 | T, F, 1, 0, TRUE and FALSE are read as truth values, and nothing that begins otherwise |
| SmlVariables.JoinedRejected | source/secs_encode_sml.c:315-345 | the one variable of an item of numbers is converted to the bytes of all of them, with an error for the blank at its end |
| SmlVariables.GarbageRejected | source/secs_encode_sml.c:315-345 | a text that begins with what no number begins with is no data |
| SecsDecoders.Walker.Length | source/secs_decode_sml.c:81-117 | the length of an item from its one, two or three length bytes |
| SecsDecoders.Walker.Next | source/secs_decode_sml.c:81-184 | an item read is one turn of the walk: its path, and the counters on all levels |
| SecsDecoders.CloseLists | source/secs_decode_sml.c:738-745 | the closings behind an item, innermost list first |
| SecsDecoders.ReportItem | source/secs_decode_sml.c:186-736 | log text and variables of an item, one variable a value |
| SecsPlainDecoders.JoinItem | source/secs_decode_sml_no_arrays.c:164-474 | log text and the one variable of an item |
| SecsPlainDecoders.TakeItem | source/secs_decode_sml_no_arrays.c:112-162 | level, counters and data behind a length are those of a turn of the walk |
| SecsDecoders.SecsDecode | source/secs_decode_sml.c:34-752 | return code, log and variables are those of the walk |
| SecsPlainDecoders.SecsDecodeNoArrays | source/secs_decode_sml_no_arrays.c:34-494 | the same for the second decoder, with its own loop |
| SecsRoundTrip.DecodesEncoding | source/secs_decode_sml.c:79-184 | the encoding of any items is walked to the items in pre-order, each under the path of its positions, one closing a list that is not empty, to the end of the buffer and back at level 0 |
| SecsDecoders.ReportsPreorder | source/secs_decode_sml.c:34-752 | both decoders return 0 on it and report exactly these items |
| SecsMeaning.NumberReported | source/secs_decode_sml.c:311-736 | a number of a format, stored in its bytes, is reported as its decimal, with a minus where it is negative |
| SecsMeaning.DecodersTell | source/secs_decode_sml.c:34-752 | on the encoding of any message of texts, truth values, bytes, numbers and lists both decoders return 0, and their log and variables are the values themselves under the names of their places: one variable a value, an array with its size, or one variable an item |
| SecsMeaning.DecodersStop | source/secs_decode_sml.c:119-184 | behind such a message an item of no known format ends both with 1, everything before it reported |
| SecsJoin.ItemJoined | source/secs_decode_sml_no_arrays.c:164-474 | of any item, of every format and length, the one variable of the second decoder holds the values the first has put into its variables, each written its way and with a space behind it |
| SecsJoin.OutputJoined | source/secs_decode_sml.c:186-736 | for any row of items all variables of the second decoder are the variables of the first, cut by item and joined |
| SecsPlainDecoders.DecodersAgree | source/secs_decode_sml_no_arrays.c:34-494 | on every buffer the two decoders return the same code, write the same log, and the second stores the first one's variables with the values of each item joined |
| SecsText.JoinedIsArray | source/secs_decode_sml_no_arrays.c:240-290 | for two numbers or more the one value is the array's values in order, each with a space behind it, and the array holds its size |
| SecsText.ModestRoomy | source/secs_decode_sml.c:121-138 | 75 levels of lists of 99 items under a short prefix have room in the line buffer |
| Checksums.CalcChecksum | source/secs.c:156-177 | the checksum bytes of a buffer, 32-bit wrap included |
| Checksums.CheckExact | source/secs.c:156-177 | for blocks of legal size the sum is at most 64770 and the checksum is the sum |
| Checksums.OneByteDetected | source/recv_secs.c:450-485 | a block with one byte changed never passes the comparison |
| Checksums.SameCheck | source/recv_secs.c:450-485 | two blocks of legal size pass for each other exactly when their bytes have the same sum |
| LinkSafety.StepKeepsInvariant | source/recv_secs.c:315-380 | every move of either peer keeps both sides' phases, the bytes on the lines and the blocks consistent |
| LinkLiveness.StepProgresses | source/send_secs.c:348-404 | every move lowers a measure of the work left |
| LinkLiveness.ContentionResolves | source/send_secs.c:207-275 | when both have sent ENQ only the side without `rbit` gives way, its block still the first it has to send |
| LinkLiveness.InsistingFirst | source/send_secs.c:216-256 | in every run from where both have begun, no block of the side that gives way arrives before a block that ends the message of the other has |
| LinkLiveness.RunsDeliver | source/send_secs.c:153-291 | in every run from two idle peers what has arrived is a prefix of what was to be sent, the run is bounded, and where no move is left everything has arrived |
| LinkLiveness.OneInsists | source/send_secs.c:348-404 | on lines that lose nothing and while no timer runs out, no run gets stuck before all is delivered if and only if exactly one side has `rbit` |
| LinkProtocol.WrongByteRefused | source/recv_secs.c:450-487 | a block sent with one byte changed and the checksum of the right one, and whatever comes behind it until the line is silent, is dropped; then NAK is written, and nothing is taken |
| LinkProtocol.RightBlockTaken | source/recv_secs.c:398-498 | the block without a wrong byte is taken and answered with ACK |
| LinkProtocol.RefusedAgain | source/send_secs.c:207-275 | a block that is refused stays the first to send and is sent again, ENQ and all its bytes, as long as tries are left |
| LinkProtocol.FourTries | source/send_secs.c:205-275 | every block is sent four times at most, one more than the retries of headers/secs.h:58 |
| LinkMessages.MessagesArrive | source/recv_secs.c:104-190 | two messages for each other, split, sent under contention and put together, come out whole on both sides |
| Blocks.SplitMessage | source/send_secs.c:153-291 | the blocks of a message of the size on entry |
| Blocks.SplitNumbers | source/send_secs.c:153-193 | up to 7,995,148 bytes: bodies of at most 244 bytes in order, numbers 1 to n, the end bit on the last block alone |
| Blocks.HeadRead | source/recv_secs.c:203-258 | device, stream, function, wait bit and system bytes are read back from a header |
| Blocks.Receive | source/recv_secs.c:104-190 | the message gathered from a row of blocks and how many of them it took |
| Blocks.ReassemblesExactly | source/recv_secs.c:125-177 | with every block repeated any number of times in a row, a message comes out whole if and only if its first block came once or is its only one |
| Blocks.SizeDecides | source/send_secs.c:150-193 | what arrives is the message up to the size on entry, so the message itself exactly when that is its size |
| Blocks.ZeroSizeArrives | source/send_secs.c:150-152 | with the size at zero a message arrives if and only if it is empty |
| Transactions.OpenTransactions.Increment | source/secs.c:205-224 | the next number, 1 after 0 |
| Transactions.OpenTransactions.AddEntry | source/secs.c:50-108 | expired entries are dropped, the first free slot is taken, a full table ends the process |
| Transactions.OpenTransactions.DelEntry | source/secs.c:112-152 | the program index of the first slot with the number, if it is in time, and the timer to stop |
| Transactions.FullTable | source/secs.c:61-93 | the table has no place for a message if and only if all its entries are active and in time |
| Transactions.SendEnds | source/secs.c:90-93 | in step with the ledger, a message that wants a reply ends the process if and only if 50 others wait in time |
| Transactions.EveryRunGoesOn | source/secs.c:90-93 | a run from the start goes on to its end if and only if no such message is sent while 50 others wait in time |
| Transactions.ReplyAnswered | source/secs.c:112-152 | a reply gets what the ledger of all sends says is due, and table and ledger stay in step |
| Transactions.EveryRunAnswers | source/send_secs.c:297-308 | in every run of sends and replies with fewer than 2^32 sends and time not going back, the first reply in time gets the index recorded with its number, late or unexpected ones get none, and a send ends the process exactly where 50 messages wait in time |
| Transactions.SecondReply | source/secs.c:112-152 | behind an answered reply and any further calls, a second reply to the same message is answered, with the same index, if and only if no message of these calls has taken its slot and its deadline has not passed |
| Transactions.EverySecondReply | source/secs.c:112-152 | the same in every run from the start |
| Transactions.AnsweredTwice | source/secs.c:127-140 | one message, and both replies to it answered |
| VariableStore.Variables.Find | source/variables.c:701-732 | bisection by hash and name finds a name if and only if it is stored, hash collisions included |
| VariableStore.Variables.Insert | source/variables.c:305-350 | the array stays strictly sorted and holds the map with the new entry |
| VariableStore.Variables.VariablePut | source/variables.c:70-381 | the store is the map after the put, or unchanged where the put is refused |
| VariableStore.Variables.VariableGet | source/variables.c:385-510 | the value through label, program and default program, and through one reference |
| VariableLaws.PutOutcome | source/variables.c:233-360 | a put is refused if and only if its entry is defined, ends the process if and only if it is a label, follows nothing if and only if it is a reference to nothing, and is stored everywhere else; one that binds a reference always |
| VariableLaws.PutTwice | source/variables.c:288-303 | a second put in the same scope replaces the value of the first |
| VariableLaws.PutChangesOne | source/variables.c:233-360 | a put that is accepted changes the one entry it resolves to and keeps its type |
| VariableLaws.GetAfterPut | source/variables.c:403-500 | what is put to an entry that accepts it is stored and read back in the same scope |
| VariableLaws.SharedInProgram | source/variables.c:133-231 | a variable that no label has for itself is read in all labels of the program |
| VariableLaws.LocalToLabel | source/variables.c:133-231 | what is put for a label alone changes nothing in the other labels |
| VariableLaws.GlobalKey | source/variables.c:99-131 | a global put goes to the default program if and only if something is stored already or the default program runs |
| VariableLaws.GetAfterGlobal | source/variables.c:450-472 | a global value is read back exactly where no label and no program of the reader hides its name, and the first value of all only in the program that put it |
| VariableLaws.FirstGlobalHidden | source/variables.c:103-131 | a first global value of one program is not there for another |
| VariableLaws.DefinedChanges | source/variables.c:259-286 | a put changes a defined entry exactly when it goes there through a reference or binds one under its name |
| VariableLaws.DefinedStays | source/variables.c:283-286 | without references no sequence of puts changes a defined entry |
| VariableLaws.ReferenceParameter | source/variables.c:259-281 | a name bound to an entry reads that entry and writes that entry alone |
| VariableLaws.SeenByCaller | source/variables.c:476-500 | the caller's name then has the value the callee assigned |
| Gosubs.Subroutines.QueueArguments | source/gosub.c:85-137 | the bytes of the queue, the number of arguments in it and the index behind the line; a type goes in with all its bytes |
| Gosubs.Subroutines.BindParameters | source/gosub.c:155-211 | the store with the parameters bound to what comes off the queue, a type of one byte and a length of four in front of each text; the errors of too few or too many; no more where an argument runs over the end of the queue |
| Gosubs.Subroutines.CmdGosub | source/gosub.c:40-229 | store, nest and cursor after a call |
| Gosubs.Subroutines.CmdReturn | source/gosub.c:234-279 | nest and cursor after RETURN |
| GosubQueue.BackExactly | source/gosub.c:115-187 | all arguments come off the queue as they were put on it if and only if a type takes one byte, whatever lies in memory behind it |
| GosubQueue.FourByteType | source/gosub.c:129-186 | with a type of four bytes the text "a" does not come off |
| GosubParameters.QueuesLine | source/gosub.c:85-137 | the queue of a line has as many arguments as the line, and with types of one byte it holds, in order, the entry every identifier resolves to and the text of every other argument |
| GosubParameters.BindsInOrder | source/gosub.c:155-211 | with types of one byte parameters of different names get the arguments of the queue in order and nothing else changes |
| GosubParameters.CallBinds | source/gosub.c:40-229 | a call of a label with as many parameters, with types of one byte or without arguments, goes and is no error, binds every parameter to its argument and changes nothing else of the user's |
| GosubParameters.CallGoes | source/gosub.c:115-187 | of types of one byte and of four, a call whose first argument has a text of 1 to 255 bytes goes if and only if they take one; else it reads behind its queue |
| GosubParameters.PassedByReference | source/gosub.c:85-211 | `cmd_gosub`, with types of one byte, on a line that passes an identifier: in the callee, reads of the parameter give the entry the identifier resolved to in the caller, assignments change exactly that entry, and the call itself has left it alone unless it is another parameter's |
| GosubParameters.SeenBehindCall | source/variables.c:476-500 | the caller's identifier then has the value assigned to the parameter, where no parameter hides it |
| GosubParameters.CallErrors | source/gosub.c:63-217 | a call is no error if and only if its identifiers are all there, it passes as many arguments as the label has parameters, and its label is known or an identifier is passed |
| GosubLaws.ReturnPops | source/gosub.c:234-279 | RETURN goes behind the line of the open call last made |
| GosubLaws.RunsLastInFirstOut | source/gosub.c:139-150 | along any run of calls, returns and other puts in one program, returns are last in first out and `nest` is the number of open calls |
| GosubTokens.RunsOnTokens | source/gosub.c:144-150 | along any such run whose calls land on tokens, the cursor and every index kept in RETURN.n are offsets of tokens |
| GosubTokens.JumpsOnToken | source/gosub.c:63-74 | a GOSUB goes to a token if and only if its name stands for nothing, for a label, or for a variable whose text reads as the offset of a token or as a number beyond the program |
| GosubTokens.JumpsIntoToken | source/gosub.c:63-74 | a stored program in which GOSUB TO.1 goes into the name TO.1 and stays inside of it |
| GosubTokens.MakeLabelVariables | source/program.c:221-313 | the store with a variable for every label and every BEGIN, errors included |
| GosubTokens.LabelsMade | source/program.c:278-305 | every label variable holds the offset of a token |
| Resuming.OpenTransaction | source/send_secs.c:297-308 | the timer and the transaction of a message get the index of the cursor |
| Resuming.NothingKept | source/secs.c:50-60 | the empty tables hold the index of the first token |
| Resuming.AnswersOnTokens | source/secs.c:112-152 | in every run whose messages are sent from tokens every reply answered leads to a token |
| Resuming.ResumeByReply | source/resume.c:77-93 | a reply in time stops the timer of its transaction, and the program goes on behind the token at the index kept, which is the offset of a token |
| Resuming.ResumeByTimer | source/resume.c:77-93 | where a timer is over the program goes on behind the token at its index, which is the offset of a token |
| Resuming.SecondReplyStops | source/secs.c:137-140 | a second reply stops a timer started between the two if and only if all timers from 10 up to that of its message run |
| Labels.LabelTable.BuildTable | source/label.c:51-144 | the intervals of the program by the offsets of their ends, or an error where a name is missing |
| Labels.LabelTable.LabelGet | source/label.c:249-284 | the name of an interval the index lies in, if and only if there is one |
| Labels.BuildOrdered | source/label.c:51-144 | the intervals stand one behind the other |
| Labels.LabelGetIsPlain | source/label.c:249-315 | at the offset of every token that is no end of an interval the answer is the last LABEL or AFTER before it with no END in between |
| Timers.Clock.Start | source/timers.c:206-264 | the timer asked for or the first one free has deadline and index, no other changes; or the process ends |
| Timers.OnlyZeroTaken | source/timers.c:228-246 | of the numbers 0 to 9 only 0 gets its own timer, the others get what no number gets |
| Timers.Clock.Stop | source/timers.c:342-354 | the timer is no longer active, and no other changes |
| Timers.Clock.Handle | source/timers.c:401-468 | the timer most over due is retired, of several the highest, and no other changes |
| Timers.Clock.NextAlarm | source/timers.c:358-397 | 0 exactly when no timer is active, else the smaller of 300 and the time to the nearest deadline, and 1 where that has come |
| Timers.NearestIs | source/timers.c:369-397 | that time is no more than 300 and no more than the time to any deadline, and is one of them |
| Timers.NoTimerLeft | source/timers.c:228-246 | a start without a number takes the first free timer from 10 to 49, and ends the process if and only if all of them run |
| Timers.NoneToRetire | source/timers.c:401-440 | no timer is retired if and only if all that run have their deadline still to come |
| Timers.RetiredInOrder | source/timers.c:401-468 | whatever the times of the calls, timers are retired in the order of their deadlines, each once |
| Timers.AllRetired | source/timers.c:401-468 | as many calls as timers are due retire all of them |
| ProgramText.DecodeToken | source/program.c:601-645 | the token at an offset and the bytes it takes |
| ProgramText.StoredSizes | source/program.c:817-1074 | strings are stored with four bytes for their length, numbers, names, constants, variables and line numbers with a null behind them, all other tokens as their type alone |
| ProgramText.ProgramBuffer.Save | source/program.c:817-1074 | a token written is behind all others and no offset moves |
| ProgramText.ReadsToken | source/program.c:601-645 | reading at the offset of a token gives the token and leads to the offset of the next |
| ProgramText.RoundTrip | source/program.c:817-1074 | decoding from the first byte gives exactly the tokens written |

## Left out

- Sockets, ports, `select`, signals and the jumps out of timers: foreign calls; a line is a queue of bytes and time is a parameter.
- Timers of the link, its retries after a timer, and line faults: the link theorems are about lines that lose nothing; the branches for NAK and retries are in the machine, and unreachable then.
- Logging, debug, trace, commands, preprocessor, include files and the reading of text into tokens: scripts start as token sequences and printed messages as words.
- The bodies of built-in functions and operators, `sscanf` and `printf` of floating point: parameters.
- ERROR clauses with labels, the default error label, SYSTEM and the other built-in functions that push no value: `execute` ends with `ErrorClause` where such a clause follows an error.
- Whole scripts in which BREAK_LOOP leaves a FOR: they are not proper, and what one such FOR does is `FlowLimits.NestBack`; RETURN from inside a loop; a change of program between GOSUB and RETURN.
- The message head `SxFy`, device and W in `secs_encode`.
- Message texts whose bounds or data read the variable of a loop they are not in: the look-ahead changes what they see.
- Floating point and BINARY items in the round trip of printed messages, and characters of an ASCII item that a quoted script string cannot hold.
- Interpreters.Interpreter.Round: PRINT, GOSUB, SEND, OPEN and the other commands outside control flow count as errors here, since their bodies are foreign calls or modelled apart.
- Interpreters.Interpreter.Fail: the labels of ERROR clauses and the default error label are not followed.
- Interpreters.Interpreter.Execute: the same commands and clauses are missing from its runs.
- SmlPrinters.MakeLog: the text is left open once a floating point item has come, because `printf` is not modelled.
- LinkLiveness.OneInsists: what the timer T2 and the retries do with a run that is stuck is left open.
- FlowIndices.RunInside: its indices count tokens; that they are offsets on the bytes is `Interpreters.RunStored`.
- Numerals.Itoa: the most negative 64-bit number is not covered, because its negation overflows in C.
- SecsText.ModestRoomy: names longer than their column, whose log lines are not terminated, are outside the walk.
- `variable_delete`, the temporary variables, references to references, and parameters bound sometimes by value and sometimes by reference.
- GosubTokens.RunsOnTokens: a run is followed up to a call that does not land on a token, as `JumpsOnToken` says.
- GosubLaws.RunsLastInFirstOut: calls whose queue gives a reference to an entry that is one itself, or to none of the user's, are not followed.
- GosubParameters.CallGoes: with types of four bytes, a first argument whose length is a multiple of 256, as the empty text: what comes off then depends on what lies in memory behind the type.
- What `cmd_gosub` does behind the end of its queue: undefined in C; the call is `Lost` here.
- Interpreters.Interpreter.CmdFor: behind a STEP expression that fails STEP.n is the empty text; the source leaves in it what its buffer held, which a NO_ERROR behind it could bring to bear.
- Interpreters.Interpreter.ForLimits: the same.
- `$` variables in the arguments of GOSUB: the tokens of a call are taken with their values in place.
- What the program does when a timer or a reply resumes it.
- HSMS.
