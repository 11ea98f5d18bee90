# nand2tetris assembler, VM translator and Jack front end, in Dafny

A Dafny model of the core of a Node.js solution to the nand2tetris course:

- the Hack assembler (`projects/6/Assembler.js`): instruction fields,
  the symbol table with its RAM allocator, numeric addresses, and the
  first pass that binds labels;
- the VM translator (`projects/7/VMTranslator.js`): the command
  classifier, the push/pop/arithmetic/branch templates and the comparison
  label counter;
- the two generations of the Jack tokenizer (`projects/10` and
  `projects/11`) and the token tables of `Util.js`;
- the Jack symbol table (`SymbolTable.js`) and the declaration half of the
  compilation engine (`CompilationEngine.js`).

The source's behaviour is kept, quirks included: the upper-case kind test
of the symbol table, a `startSubroutine` that throws instead of clearing,
a parameter loop entered on `(`, `not` missing from `commandtype`, temp
addressed from 13, and integer tokens that run on through white space.

Files and modules:

| file | module | what it holds |
|---|---|---|
| `js.dfy` | `Js` | the JavaScript behaviour the programs rely on: `undefined`/`null`, ECMAScript white space, `trim`, `split`, `join`, `String(n)`, `Number(s) == 0` |
| `assembler.dfy` | `Assembler` | the field tables, `decimal_to_binary`, `Number()` rounding to a double, `p_address_instruction`, `p_computation_instruction`, `parse_line` and `pass1`; the module-level state is the class `Assembler` |
| `vm_translator.dfy` | `Vm` | `commandtype`, `branch`, `pop`, `push`, `compute`, `parse` and the loop of `main`; `LABEL_ID` is a field of the class `Translator` |
| `vm_properties.dfy` | `VmProperties` | properties of the emitted text: which lines translate, template shapes, stack-pointer moves, distinct comparison labels |
| `hack.dfy` | `Hack` | a small Hack machine (from *The Elements of Computing Systems*, chapter 4) for the instruction forms the translator emits |
| `vm_meaning.dfy` | `VmMeaning` | what each template does to the Hack machine's memory when it runs |
| `jack_util.dfy` | `JackUtil` | `VALID_OPERATORS`, `VALID_SYMBOLS`, `VALID_KEYWORDS`, `VALID_TOKENS` |
| `compiler_tokenizer.dfy` | `CompilerTokenizer` | the project-11 tokenizer: `trim`, `advance`, `getLookAhead`, the getters |
| `analyzer_tokenizer.dfy` | `AnalyzerTokenizer` | the project-10 tokenizer: one item per `advance`, `getXmlSymbol`, the getters |
| `symbol_table.dfy` | `Symbols` | the two dictionaries, `define` and the queries |
| `compilation_engine.dfy` | `Engine` | `compileClass`, `compileClassVarDec`, `compileSubroutine`, `compileParameterList`, `compileSubroutineBody`, `compileVarDec` |

Each imperative part of the source is a class whose methods update its
fields. Each method is proved against a function that states what it
computes. The lemmas beside those functions state what the source
promises.

## Model

| member | source | states |
|---|---|---|
| `Js.TrimStart` | projects/6/Assembler.js:205 | the first half of `trim`: the result is a suffix of the input, everything dropped is white space, and the result does not start with white space |
| `Js.TrimEnd` | projects/7/VMTranslator.js:267 | the second half of `trim`: the result is a prefix, everything dropped is white space, and the result does not end with white space |
| `Js.RemoveWhiteSpace` | projects/6/Assembler.js:146 | `replace(/\s/g, "")` leaves no white space and changes nothing in a line that has none |
| `Js.SplitPiecesHaveNoSeparators` | projects/6/Assembler.js:152 | no piece of `split(/[=;]/)` or `split(" ")` holds a separator |
| `Js.JoinSplit` | projects/7/VMTranslator.js:80-82 | joining the pieces of a split with its separator gives the text back |
| `Js.SplitJoin` | projects/7/VMTranslator.js:267 | splitting a join of separator-free pieces gives the pieces back |
| `Js.SplitPiece` | projects/6/Assembler.js:152 | a separator-free prefix is the first piece of a split, and the rest is split after the separator |
| `Js.NatToString` | projects/7/VMTranslator.js:247 | `${n}` for a non-negative n is a digit string without leading zeros |
| `Js.NatToStringRoundTrip` | projects/7/VMTranslator.js:247 | reading a printed label number back gives the number |
| `Js.NatToStringInjective` | projects/7/VMTranslator.js:253 | different numbers print differently |
| `Js.DigitsZeroTest` | projects/7/VMTranslator.js:147 | for a decimal numeral, `index != 0` is false exactly when its value is 0 |
| `Js.RadixZeroIsZero` | projects/7/VMTranslator.js:199 | `0x0`, `0b00`, `0O0` and the like are zero for `Number()` |
| `Js.SignedRadixIsNotZero` | projects/7/VMTranslator.js:199 | a signed radix literal such as `-0x0` is not a number, so it is not zero |
| `Js.ZeroWithExponent` | projects/7/VMTranslator.js:147 | zeros with an exponent, such as `0e5`, are zero |
| `Js.DecimalZeroOfParts` | projects/7/VMTranslator.js:147 | a decimal literal whose mantissa is zero is zero, whatever its exponent |
| `Assembler.JumpBitsMeaning` | projects/6/Assembler.js:46-55 | `JumpBits` (`get_jump_bits`) gives three bits: the first jumps on a negative result, the second on zero, the third on a positive one, exactly as the mnemonic's condition; any other field, a missing one included, never jumps |
| `Assembler.DestBitsMeaning` | projects/6/Assembler.js:57-66 | `DestBits` (`get_destination_bits`) ignores order: one to three distinct letters of A, D, M give the bits (A in it, D in it, M in it); anything else gives 000 |
| `Assembler.CompBitsOnlyForms` | projects/6/Assembler.js:68-97 | only the listed forms, both operand orders of the sums and logic forms included, have a computation code; every other form is undefined |
| `Assembler.CompFormsHaveCodes` | projects/6/Assembler.js:68-96 | every listed form has a code |
| `Assembler.CompBitsCode` | projects/6/Assembler.js:68-96 | each `CompBits` (`get_computation_bits`) code is seven bits, and its leading a-bit is 1 exactly when the form mentions M |
| `Assembler.SumsCommute` | projects/6/Assembler.js:88-92 | both operand orders of each sum get the same code |
| `Assembler.LogicCommutes` | projects/6/Assembler.js:93-96 | both operand orders of each `&` and `\|` get the same code |
| `Assembler.Bits` | projects/6/Assembler.js:107-116 | the encoding is exactly w characters, each 0 or 1 |
| `Assembler.PadSliceNumeral` | projects/6/Assembler.js:107-116 | `padStart(15, 0).slice(-15)` of the loop's numeral is the low 15 bits of n |
| `Assembler.BitsValue` | projects/6/Assembler.js:107-116 | the 15 bits read back as n mod 2^15 |
| `Assembler.ZeroBits` | projects/6/Assembler.js:107-116 | 0 encodes as fifteen zeros |
| `Assembler.DecimalToBinary` | projects/6/Assembler.js:107-116 | the loop over `binary` and `n` returns the 15 low bits of n |
| `Assembler.SmallNumbersExact` | projects/6/Assembler.js:135 | `Number()` of a numeral below 2^53 is its exact value |
| `Assembler.RoundingError` | projects/6/Assembler.js:135 | above 2^53, `Number()` gives a multiple of 2^e, where e counts the bits past the 53rd, within half of 2^e of the value: a nearest double |
| `Assembler.BeyondTwoTo53` | projects/6/Assembler.js:135 | `@9007199254740993` (2^53 + 1) rounds to 2^53, whose low 15 bits are zero |
| `Assembler.AddressNumeral` | projects/6/Assembler.js:134-135 | a numeric `@n` gives `0` and the 15 low bits of the double nearest n, which are those of n itself below 2^53; the table and the free address do not change |
| `Assembler.AddressAllocates` | projects/6/Assembler.js:137-142 | an unknown symbol is bound to `free_ram_location`, which then increments, and the word encodes that address; once the free address is past MAX_RAM (24576) the call throws RAM_RANGE and nothing changes |
| `Assembler.AddressRepeat` | projects/6/Assembler.js:137-142 | looking a symbol up again gives the same word and allocates nothing |
| `Assembler.PredefinedNeverAllocate` | projects/6/Assembler.js:14-40 | a predefined symbol gives its fixed address and changes nothing |
| `Assembler.PredefinedNotNumber` | projects/6/Assembler.js:14-38 | no predefined name is a numeral |
| `Assembler.AddressKeepsPredefined` | projects/6/Assembler.js:137-142 | lookups never rebind a predefined symbol |
| `Assembler.CanonicalFull` | projects/6/Assembler.js:145-152 | a line with both `=` and `;` is split as it is |
| `Assembler.CanonicalJump` | projects/6/Assembler.js:148 | `comp;jump` becomes `=comp;jump` |
| `Assembler.CanonicalAssign` | projects/6/Assembler.js:150 | `dest=comp` becomes `dest=comp;` |
| `Assembler.PlainPieces` | projects/6/Assembler.js:152 | `dest=comp;jump` splits into its three fields |
| `Assembler.FullComputation` | projects/6/Assembler.js:145-160 | `ComputationInstruction` (`p_computation_instruction`) encodes `dest=comp;jump` as `111`, then the computation, destination and jump bits |
| `Assembler.JumpCanonical` | projects/6/Assembler.js:148 | `comp;jump` is read as `dest=comp;jump` with an empty destination |
| `Assembler.AssignCanonical` | projects/6/Assembler.js:150 | `dest=comp` is read as `dest=comp;jump` with an empty jump |
| `Assembler.JumpComputation` | projects/6/Assembler.js:145-160 | `comp;jump` has destination bits 000 |
| `Assembler.AssignComputation` | projects/6/Assembler.js:145-160 | `dest=comp` has jump bits 000 |
| `Assembler.BareComputation` | projects/6/Assembler.js:145-160 | a line with neither `=` nor `;` is read as a destination with no computation, so its word holds the text `undefined` |
| `Assembler.EmptyFields` | projects/6/Assembler.js:46-66 | an empty destination or jump field gives 000 |
| `Assembler.InstructionForms` | projects/6/Assembler.js:170-174 | `InstructionType` (`instruction_type`) classifies `@x` as an address and `(x)` as a label for any one-line name `x`; a bare `@` or an empty `()` is classified as a computation |
| `Assembler.ParseLineState` | projects/6/Assembler.js:170-189 | `LineResult` (`parse_line`) gives null exactly for blank, `//` and label lines, with `InstructionType` (`instruction_type`) deciding what a label line is; only an address line changes the state, and only through its lookup |
| `Assembler.Pass1LineCounts` | projects/6/Assembler.js:204-216 | `Pass1Line`, one pass of `pass1`'s loop: blank and comment lines change nothing; any other line throws ROM_RANGE exactly when the count would pass MAX_ROM (32767); a new label is bound to the count and not counted; every other line, a repeated label included, counts once |
| `Assembler.Pass1LabelAddresses` | projects/6/Assembler.js:201-218 | with new, distinct labels and room in ROM, `pass1` binds each label to the number of instructions before it, ends with the instruction count, keeps earlier bindings and allocates nothing |
| `Assembler.Assembler.constructor` | projects/6/Assembler.js:40-44 | the table starts as the predefined symbols, the count at 0, the free address at 16 |
| `Assembler.Assembler.AddressInstruction` | projects/6/Assembler.js:134-143 | the word and the new table and free address are those of `Address`, whose meaning AddressNumeral, AddressAllocates and AddressRepeat state |
| `Assembler.Assembler.ParseLine` | projects/6/Assembler.js:176-189 | the result and new state are those of `LineResult` (see ParseLineState) |
| `Assembler.Assembler.Pass1Step` | projects/6/Assembler.js:204-216 | one pass of the loop changes the state as `Pass1Line` (see Pass1LineCounts) |
| `Assembler.Assembler.Pass1` | projects/6/Assembler.js:201-218 | the loop over the lines stops at the first error and leaves the state of `Pass1Lines` (see Pass1LabelAddresses) |
| `VmProperties.WordsOfJoin` | projects/7/VMTranslator.js:267 | a line written as words separated by single spaces falls apart into exactly those words |
| `VmProperties.WordsOfTriple` | projects/7/VMTranslator.js:267 | `command segment index` gives its three words |
| `VmProperties.ArithmeticWords` | projects/7/VMTranslator.js:67-76 | `CommandType` (`commandtype`) is arithmetic exactly for add, sub, neg, and, or, gt, lt, eq; `not` is not among them |
| `VmProperties.UntranslatedCommand` | projects/7/VMTranslator.js:41-78 | `not`, `function`, `call` and `return` get no type that `parse` translates |
| `VmProperties.ParseNullIff` | projects/7/VMTranslator.js:266-287 | `ParseResult` (`parse`) gives null exactly when the first word's type has no case, and the counter then stays |
| `VmProperties.UntranslatedWords` | projects/7/VMTranslator.js:266-287 | `not`, `function`, `call` and `return` lines give null and leave the counter |
| `VmProperties.EmitSplit` | projects/7/VMTranslator.js:80-82 | the text a template is joined to splits back at the newlines into its lines |
| `VmProperties.PushConstantText` | projects/7/VMTranslator.js:155-156 | `push constant i` is exactly `@i, D=A, @SP, A=M, M=D, @SP, M=M+1` |
| `VmProperties.PopConstantUndefined` | projects/7/VMTranslator.js:95-151 | `pop constant i` gives undefined, so nothing is written |
| `VmProperties.PushDefinedIff` | projects/7/VMTranslator.js:153-208 | `PushLines` (`push`) has a template exactly for the eight segments, and never gives null |
| `VmProperties.PopDefinedIff` | projects/7/VMTranslator.js:95-151 | `PopLines` (`pop`) has a template exactly for those segments other than constant |
| `VmProperties.PushBaseShape` | projects/7/VMTranslator.js:157-172 | local/argument/this/that push ends with its only increment of SP and never decrements |
| `VmProperties.PushConstantShape` | projects/7/VMTranslator.js:155-156 | the constant push ends with its only increment of SP |
| `VmProperties.PushTempShape` | projects/7/VMTranslator.js:173-186 | the temp push ends with its only increment of SP |
| `VmProperties.PushStaticShape` | projects/7/VMTranslator.js:187-196 | the static push ends with its only increment of SP |
| `VmProperties.PushPointerShape` | projects/7/VMTranslator.js:197-206 | the pointer push ends with its only increment of SP |
| `VmProperties.PushEndsWithIncrement` | projects/7/VMTranslator.js:153-208 | every push template ends with `@SP, M=M+1`, its only move of SP |
| `VmProperties.PopBaseShape` | projects/7/VMTranslator.js:97-115 | local/argument/this/that pop holds exactly one `@SP, M=M-1` and no increment |
| `VmProperties.PopTempLines` | projects/7/VMTranslator.js:116-131 | the temp pop template, line by line, from base 13 |
| `VmProperties.PopTempShape` | projects/7/VMTranslator.js:116-131 | the temp pop decrements SP exactly once |
| `VmProperties.PopStaticShape` | projects/7/VMTranslator.js:132-140 | the static pop decrements SP exactly once |
| `VmProperties.PopPointerShape` | projects/7/VMTranslator.js:141-149 | the pointer pop decrements SP exactly once |
| `VmProperties.PopDecrementsOnce` | projects/7/VMTranslator.js:95-151 | every pop template holds exactly one `@SP, M=M-1` and never increments |
| `VmProperties.PointerIndexChoosesCell` | projects/7/VMTranslator.js:197-206 | a numeral index addresses `@3` exactly when its value is 0, and a radix zero such as `0x0` does too |
| `VmProperties.ParseCounter` | projects/7/VMTranslator.js:235-238 | `parse` raises `LABEL_ID` by one for a comparison and leaves it otherwise |
| `VmProperties.ComparisonCommand` | projects/7/VMTranslator.js:73-76 | eq, gt and lt are arithmetic commands |
| `VmProperties.ComparisonCompute` | projects/7/VMTranslator.js:235-261 | `compute` bumps the counter for a comparison and numbers its template with the new value |
| `VmProperties.ComparisonTakesNextLabel` | projects/7/VMTranslator.js:235-261 | a comparison line takes the next number and gives the comparison template with it |
| `VmProperties.ParseAllCounter` | projects/7/VMTranslator.js:301-304 | over a run of lines the counter rises by the number of comparisons |
| `VmProperties.ParseAllAt` | projects/7/VMTranslator.js:301-304 | line i is translated with the counter raised by the comparisons before it |
| `VmProperties.ComparisonsGrow` | projects/7/VMTranslator.js:238 | a comparison makes every later line see a larger count |
| `VmProperties.IntToStringInjective` | projects/7/VMTranslator.js:247-253 | different counter values print differently, negative ones included |
| `VmProperties.LabelsDiffer` | projects/7/VMTranslator.js:247-260 | different numbers give different `jump_true_` and `continue_` labels |
| `VmProperties.ComparisonOutputAt` | projects/7/VMTranslator.js:235-261 | a comparison at line i is written with the number of comparisons up to and including it, counted from the start value |
| `VmProperties.ComparisonLabelsDistinct` | projects/7/VMTranslator.js:235-261 | two comparisons in one file get increasing numbers and hence different labels |
| `Vm.Words` | projects/7/VMTranslator.js:267 | `trim().split(" ")` always has a first word (see WordsOfJoin for what the words are) |
| `Vm.ParseAll` | projects/7/VMTranslator.js:301-304 | one translation per line (see ParseAllAt and ParseAllCounter) |
| `Vm.TranslateAt` | projects/7/VMTranslator.js:301-304 | the output from line i on is that line's share followed by the rest, started from the counter it leaves |
| `Vm.Translator.constructor` | projects/7/VMTranslator.js:35 | the counter starts at -1 and the static prefix is the file name |
| `Vm.Translator.Compute` | projects/7/VMTranslator.js:210-264 | the counter rises for a comparison before it is used, and the result is that template joined (see ComparisonCompute) |
| `Vm.Translator.Parse` | projects/7/VMTranslator.js:266-287 | the result and the counter are those of `ParseResult` (see ParseNullIff, ParseCounter) |
| `Vm.Translator.TranslateLine` | projects/7/VMTranslator.js:301-303 | a non-empty translation is written after a `// <line>` comment line; null, undefined or empty text writes nothing |
| `Vm.Translator.Translate` | projects/7/VMTranslator.js:301-304 | the loop writes the lines' shares in order (see TranslateAt) |
| `VmMeaning.PushConstantMeaning` | projects/7/VMTranslator.js:155-156 | run on the Hack machine, `push constant i` puts i on top of the stack and raises SP |
| `VmMeaning.PushSegmentMeaning` | projects/7/VMTranslator.js:157-172 | `push local/argument/this/that i` puts the i-th cell from the segment's base on the stack |
| `VmMeaning.PushTempMeaning` | projects/7/VMTranslator.js:173-186 | `push temp i` puts cell 13 + i on the stack |
| `VmMeaning.PushStaticMeaning` | projects/7/VMTranslator.js:187-196 | `push static i` puts the variable `<file>.i` on the stack |
| `VmMeaning.PushPointerMeaning` | projects/7/VMTranslator.js:197-206 | `push pointer i` puts THAT (cell 4) on the stack when i is loosely non-zero, else THIS (cell 3) |
| `VmMeaning.PopSegmentMeaning` | projects/7/VMTranslator.js:97-115 | `pop local/argument/this/that i` stores the target address in `addr`, lowers SP and writes the old top there |
| `VmMeaning.PopTempMeaning` | projects/7/VMTranslator.js:116-131 | `pop temp i` does the same into cell 13 + i |
| `VmMeaning.PopStaticMeaning` | projects/7/VMTranslator.js:132-140 | `pop static i` lowers SP and writes the old top to `<file>.i` |
| `VmMeaning.PopPointerMeaning` | projects/7/VMTranslator.js:141-149 | `pop pointer i` lowers SP and writes the old top to THAT or THIS |
| `VmMeaning.BinaryMeaning` | projects/7/VMTranslator.js:213-224 | `ComputeLines` (`compute`) for add/sub/and/or lowers SP once and overwrites the word below the old top with the 16-bit result |
| `VmMeaning.UnaryMeaning` | projects/7/VMTranslator.js:225-234 | neg/not replace the top word and leave SP where it was |
| `VmMeaning.CondMeaning` | projects/7/VMTranslator.js:24-28 | JEQ, JGT and JLT test the 16-bit difference as eq, gt and lt decide |
| `VmMeaning.ComparisonMeaning` | projects/7/VMTranslator.js:235-261 | eq/gt/lt lower SP and leave -1 below the old top when the comparison holds and 0 otherwise, running to the end of the template |
| `VmMeaning.ComparesWithoutOverflow` | projects/7/VMTranslator.js:235-261 | without overflow of the difference, eq, gt and lt are the signed comparisons of the two words |
| `Hack.EmptyNamesUndecoded` | projects/6/Assembler.js:170-174 | as in the assembler's patterns, a bare `@` and an empty `()` are neither an address nor a label |
| `VmMeaning.LabelMeaning` | projects/7/VMTranslator.js:86-87 | `BranchLines` (`branch`) gives only `(name)` for `label` with a non-empty name, which does nothing when run |
| `VmMeaning.IfGotoMeaning` | projects/7/VMTranslator.js:88-89 | `BranchLines` for `if-goto` to a non-empty name lowers SP and jumps to the label when the old top is non-zero, else falls through |
| `VmMeaning.GotoMeaning` | projects/7/VMTranslator.js:90-91 | `BranchLines` for `goto` to a non-empty name jumps to the label and leaves memory as it was |
| `JackUtil.SymbolCharactersMatch` | projects/11/JackCompiler/Util.js:3-23 | a one-character string is in VALID_SYMBOLS exactly when its character is a symbol character |
| `JackUtil.OperatorsAreSymbols` | projects/11/JackCompiler/Util.js:1-23 | every operator is a symbol; `~` is a symbol and no operator |
| `JackUtil.SymbolsAreDistinctCharacters` | projects/11/JackCompiler/Util.js:3-23 | 19 distinct one-character symbols |
| `JackUtil.KeywordsAreDistinct` | projects/11/JackCompiler/Util.js:25-47 | 21 distinct keywords |
| `JackUtil.KeywordsAreLowerCaseWords` | projects/11/JackCompiler/Util.js:25-47 | every keyword is a word of lower-case letters, so it is an identifier-character run and no symbol |
| `JackUtil.TokenNamesAreDistinct` | projects/11/JackCompiler/Util.js:49-55 | the five token-type names are distinct |
| `CompilerTokenizer.SkipWhiteSpace` | projects/11/JackCompiler/Tokenizer.js:143 | the white-space loop stops within the text on a non-white-space character |
| `CompilerTokenizer.SkipWhiteSpaceMeaning` | projects/11/JackCompiler/Tokenizer.js:143 | it passes over white space only |
| `CompilerTokenizer.LineCommentEnd` | projects/11/JackCompiler/Tokenizer.js:145-148 | a line comment ends on its newline, unconsumed, or at the end of the text |
| `CompilerTokenizer.LineCommentEndMeaning` | projects/11/JackCompiler/Tokenizer.js:147-148 | no newline is passed over |
| `CompilerTokenizer.BlockCommentEnd` | projects/11/JackCompiler/Tokenizer.js:149-157 | the block-comment loop stays within the text |
| `CompilerTokenizer.BlockCommentEndMeaning` | projects/11/JackCompiler/Tokenizer.js:149-157 | a block comment ends just past its first closing pair; an unclosed one stops on the last character of the text |
| `CompilerTokenizer.TrimFrom` | projects/11/JackCompiler/Tokenizer.js:141-162 | `trim` ends, never moves fp back, stays within the text, and stops at the first character that is neither white space nor a comment start |
| `CompilerTokenizer.RunEnd` | projects/11/JackCompiler/Tokenizer.js:174-193 | the number and word loops stop within the text on a character outside their class |
| `CompilerTokenizer.RunEndMeaning` | projects/11/JackCompiler/Tokenizer.js:174-193 | they pass over characters of their class only |
| `CompilerTokenizer.NextQuote` | projects/11/JackCompiler/Tokenizer.js:182-185 | the string loop stops on a quote or at the end of the text |
| `CompilerTokenizer.NextQuoteMeaning` | projects/11/JackCompiler/Tokenizer.js:182-185 | it passes over no quote |
| `CompilerTokenizer.ReadSymbolMeaning` | projects/11/JackCompiler/Tokenizer.js:168-172 | a symbol character gives a one-character `symbol` token and moves fp by one |
| `CompilerTokenizer.ReadIntegerMeaning` | projects/11/JackCompiler/Tokenizer.js:173-179 | an integer token is the maximal run of `isNumber` characters |
| `CompilerTokenizer.ReadStringMeaning` | projects/11/JackCompiler/Tokenizer.js:180-188 | a string token is the text between the quotes, and fp ends past the closing one |
| `CompilerTokenizer.ReadWordMeaning` | projects/11/JackCompiler/Tokenizer.js:189-201 | a word is the maximal identifier-character run, a keyword exactly when VALID_KEYWORDS lists it |
| `CompilerTokenizer.ReadNothingMeaning` | projects/11/JackCompiler/Tokenizer.js:164-202 | a character of no class, or the end of the text, leaves the empty token and fp where trim left it |
| `CompilerTokenizer.IntegerRunAbsorbsWhiteSpace` | projects/11/JackCompiler/Tokenizer.js:46-48 | `12 ;` reads as the integer token `12 ` |
| `CompilerTokenizer.LowerCaseWordReads` | projects/11/JackCompiler/Tokenizer.js:189-201 | a lower-case word reads whole, as a keyword when listed and as an identifier otherwise |
| `CompilerTokenizer.KeywordsReadAsKeywords` | projects/11/JackCompiler/Tokenizer.js:195-197 | every keyword reads as a keyword token |
| `CompilerTokenizer.Tokenizer.constructor` | projects/11/JackCompiler/Tokenizer.js:15-20 | the text is read, fp is 0 and `current` is the empty token |
| `CompilerTokenizer.Tokenizer.HasMoreTokens` | projects/11/JackCompiler/Tokenizer.js:88-90 | true while fp is inside the text; fp only moves as TrimFrom and ReadToken say (see Advance) |
| `CompilerTokenizer.Tokenizer.TokenType` | projects/11/JackCompiler/Tokenizer.js:96-98 | the type of the token last read, as ReadSymbolMeaning … ReadWordMeaning fix it |
| `CompilerTokenizer.Tokenizer.Typed` | projects/11/JackCompiler/Tokenizer.js:100-124 | each typed getter gives the token's text when the type is its own, else null (the text and type are those of the Read*Meaning lemmas) |
| `CompilerTokenizer.Tokenizer.Trim` | projects/11/JackCompiler/Tokenizer.js:141-162 | the loops move fp to TrimFrom |
| `CompilerTokenizer.Tokenizer.SkipWhiteSpaceLoop` | projects/11/JackCompiler/Tokenizer.js:143 | the loop moves fp to SkipWhiteSpace |
| `CompilerTokenizer.Tokenizer.LineCommentLoop` | projects/11/JackCompiler/Tokenizer.js:147-148 | the loop moves fp to LineCommentEnd |
| `CompilerTokenizer.Tokenizer.BlockCommentLoop` | projects/11/JackCompiler/Tokenizer.js:151-157 | the loop moves fp to BlockCommentEnd |
| `CompilerTokenizer.Tokenizer.Advance` | projects/11/JackCompiler/Tokenizer.js:164-203 | trim, reset `current`, then read one token: the new token and fp are `Scan` of the old fp |
| `CompilerTokenizer.Tokenizer.ReadInteger` | projects/11/JackCompiler/Tokenizer.js:173-179 | the loop reads the integer token ReadIntegerMeaning describes |
| `CompilerTokenizer.Tokenizer.ReadString` | projects/11/JackCompiler/Tokenizer.js:180-188 | the loop reads the string token ReadStringMeaning describes |
| `CompilerTokenizer.Tokenizer.ReadWord` | projects/11/JackCompiler/Tokenizer.js:189-201 | the loop reads the word token ReadWordMeaning describes |
| `CompilerTokenizer.Tokenizer.GetLookAhead` | projects/11/JackCompiler/Tokenizer.js:126-139 | returns the token the next `advance` would read, keeps it as `lookaheadtoken`, and puts fp and `current` back |
| `AnalyzerTokenizer.ListsMatchCompiler` | projects/10/JackAnalyzer/Tokenizer.js:25-69 | `allowed_symbols` and `allowed_keywords` are the compiler's VALID_SYMBOLS and VALID_KEYWORDS |
| `AnalyzerTokenizer.XmlSymbol` | projects/10/JackAnalyzer/Tokenizer.js:131-144 | every character but the four reserved ones is kept, and no escape holds `<`, `>` or `"` |
| `AnalyzerTokenizer.XmlSymbolRoundTrip` | projects/10/JackAnalyzer/Tokenizer.js:131-144 | an XML reader gets every character back, and only `<`, `>`, `&`, `"` change |
| `AnalyzerTokenizer.CloseIndex` | projects/10/JackAnalyzer/Tokenizer.js:198-200 | the block-comment loop stops on a closing pair, or at the end of the text |
| `AnalyzerTokenizer.CloseIndexMeaning` | projects/10/JackAnalyzer/Tokenizer.js:198-200 | it passes over no closing pair |
| `AnalyzerTokenizer.StepWhiteSpace` | projects/10/JackAnalyzer/Tokenizer.js:189-190 | a white-space character moves fp by one and keeps `current` |
| `AnalyzerTokenizer.StepLineComment` | projects/10/JackAnalyzer/Tokenizer.js:191-195 | `//` skips to the next newline without consuming it and keeps `current` |
| `AnalyzerTokenizer.StepBlockComment` | projects/10/JackAnalyzer/Tokenizer.js:196-201 | `/*` skips past the first closing pair after it and keeps `current` |
| `AnalyzerTokenizer.StepShortTokens` | projects/10/JackAnalyzer/Tokenizer.js:205-241 | a symbol gives a one-character SYMBOL token and any unrecognised character a token object with empty text and type; both move fp by one |
| `AnalyzerTokenizer.StepInteger` | projects/10/JackAnalyzer/Tokenizer.js:210-216 | an integer token is the maximal `isNumber` run, white space included |
| `AnalyzerTokenizer.StepString` | projects/10/JackAnalyzer/Tokenizer.js:217-225 | a string token is the text between the quotes, and fp ends past the closing one |
| `AnalyzerTokenizer.StepWord` | projects/10/JackAnalyzer/Tokenizer.js:226-238 | a word is the maximal identifier-character run, KEYWORD exactly when `allowed_keywords` lists it |
| `AnalyzerTokenizer.TypeOfCurrent` | projects/10/JackAnalyzer/Tokenizer.js:154-156 | `tokenType()` is undefined while `current` is still the empty string, and the token's type after |
| `AnalyzerTokenizer.GettersNeverYieldText` | projects/10/JackAnalyzer/Tokenizer.js:158-186 | the getters compare with a property the keyword array lacks, so they never give text: undefined before the first token, null from then on |
| `AnalyzerTokenizer.Tokenizer.constructor` | projects/10/JackAnalyzer/Tokenizer.js:71-91 | the text is read; fp keeps its initial 0 and `current` its initial empty string |
| `AnalyzerTokenizer.Tokenizer.HasMoreTokens` | projects/10/JackAnalyzer/Tokenizer.js:146-148 | true while fp is inside the text; fp only moves as the Step lemmas say |
| `AnalyzerTokenizer.Tokenizer.Advance` | projects/10/JackAnalyzer/Tokenizer.js:188-243 | one call handles one white-space character, one comment or one item: the new `current` and fp are `Step` of the old ones |
| `AnalyzerTokenizer.Tokenizer.LineCommentLoop` | projects/10/JackAnalyzer/Tokenizer.js:193-195 | the loop moves fp to the next newline |
| `AnalyzerTokenizer.Tokenizer.BlockCommentLoop` | projects/10/JackAnalyzer/Tokenizer.js:198-200 | the loop moves fp to the first closing pair |
| `AnalyzerTokenizer.Tokenizer.ReadNext` | projects/10/JackAnalyzer/Tokenizer.js:203-241 | the token branch resets `current` and reads one item |
| `AnalyzerTokenizer.Tokenizer.ReadInteger` | projects/10/JackAnalyzer/Tokenizer.js:211-214 | the loop reads the integer token StepInteger describes |
| `AnalyzerTokenizer.Tokenizer.ReadString` | projects/10/JackAnalyzer/Tokenizer.js:217-225 | the loop reads the string token StepString describes |
| `AnalyzerTokenizer.Tokenizer.ReadWord` | projects/10/JackAnalyzer/Tokenizer.js:226-238 | the loop reads the word token StepWord describes |
| `Symbols.GetTableByKind` | projects/11/JackCompiler/SymbolTable.js:11-15 | exactly STATIC and FIELD select the class table (see EngineKindsUseSubroutineTable for what that means for the engine's kinds) |
| `Symbols.KeysOfKind` | projects/11/JackCompiler/SymbolTable.js:17-20 | the names whose entry has the kind, the set `getIndex` and `varCount` count |
| `Symbols.AfterDefine` | projects/11/JackCompiler/SymbolTable.js:22-29 | `define` binds the name in its kind's table to (type, kind, index counted before the write); the other table and other names stay |
| `Symbols.FindIdentifier` | projects/11/JackCompiler/SymbolTable.js:31-39 | the subroutine entry shadows the class entry; null when neither table has the name (see FindAfterDefine) |
| `Symbols.KindOf` | projects/11/JackCompiler/SymbolTable.js:44-46 | the found entry's kind, undefined when there is none (see FindAfterDefine) |
| `Symbols.TypeOf` | projects/11/JackCompiler/SymbolTable.js:48-50 | the found entry's type, undefined when there is none (see FindAfterDefine) |
| `Symbols.IndexOf` | projects/11/JackCompiler/SymbolTable.js:52-54 | the found entry's index, undefined when there is none (see FindAfterDefine) |
| `Symbols.DefineFreshCounts` | projects/11/JackCompiler/SymbolTable.js:17-28 | defining a new name raises its kind's count by one |
| `Symbols.RedefineKeepsCount` | projects/11/JackCompiler/SymbolTable.js:24-28 | redefining a name of the same kind leaves the count |
| `Symbols.RedefinitionRepeatsIndex` | projects/11/JackCompiler/SymbolTable.js:24-28 | after locals `a`, `a`, `b` both `a` and `b` have index 1: the old entry was counted, so indices skip and repeat |
| `Symbols.DefineAllIndices` | projects/11/JackCompiler/SymbolTable.js:17-29 | distinct new names of one kind get the indices count, count + 1, …, and the count grows by their number |
| `Symbols.DefineAllKeys` | projects/11/JackCompiler/SymbolTable.js:22-29 | a run of definitions adds exactly the declared names to its kind's table |
| `Symbols.DefineAllKeeps` | projects/11/JackCompiler/SymbolTable.js:22-29 | entries of other names are kept |
| `Symbols.DefineAllStaysInTable` | projects/11/JackCompiler/SymbolTable.js:11-29 | definitions of a kind write only the table chosen for it |
| `Symbols.EngineKindsUseSubroutineTable` | projects/11/JackCompiler/SymbolTable.js:11-15 | the engine's lower-case `static`, `field`, `argument`, `local` all go to the subroutine table |
| `Symbols.FindAfterDefine` | projects/11/JackCompiler/SymbolTable.js:22-39 | after `define` the lookup finds the new entry, unless a class-kind name is shadowed by a subroutine entry |
| `Symbols.SymbolTable.constructor` | projects/11/JackCompiler/SymbolTable.js:2-5 | both dictionaries start empty |
| `Symbols.SymbolTable.StartSubroutine` | projects/11/JackCompiler/SymbolTable.js:7-9 | it throws a ReferenceError and clears nothing |
| `Symbols.SymbolTable.Define` | projects/11/JackCompiler/SymbolTable.js:22-29 | the new tables are `AfterDefine` of the old |
| `Engine.NameListEnd` | projects/11/JackCompiler/CompilationEngine.js:69-74 | the `while (current != ";")` loop stops on the `;` |
| `Engine.NameListLength` | projects/11/JackCompiler/CompilationEngine.js:69-74 | it stops two tokens per name after its start |
| `Engine.NameListNames` | projects/11/JackCompiler/CompilationEngine.js:69-74 | its i-th name is the token after the i-th separator |
| `Engine.DeclarationEnd` | projects/11/JackCompiler/CompilationEngine.js:55-77 | a declaration leaves the cursor just past its `;` |
| `Engine.DeclarationDecls` | projects/11/JackCompiler/CompilationEngine.js:55-65 | its first name is the third token, typed by the second |
| `Engine.DeclareRun` | projects/11/JackCompiler/CompilationEngine.js:46-47 | a run of declarations stops on the first token outside the prefix list |
| `Engine.LocalCountAfterRun` | projects/11/JackCompiler/CompilationEngine.js:127-131 | after the `var` declarations, `varCount("local")` is the count before plus one per new, distinct name |
| `Engine.DeclareRunLeavesClassTable` | projects/11/JackCompiler/CompilationEngine.js:46-47 | class variable declarations never reach the class table |
| `Engine.PointFields` | projects/11/JackCompiler/CompilationEngine.js:36-53 | `field int x, y; static int n;` gives x, y as fields 0, 1 and n as static 0, all in the subroutine table |
| `Engine.ParameterListEnd` | projects/11/JackCompiler/CompilationEngine.js:109-121 | the parameter loop stops on a `)` |
| `Engine.ParameterListLength` | projects/11/JackCompiler/CompilationEngine.js:109-121 | it stops three tokens per parameter after its start |
| `Engine.ParameterListPairs` | projects/11/JackCompiler/CompilationEngine.js:109-121 | the i-th parameter is the (type, name) pair after the i-th separator |
| `Engine.EmptyParameterListDefinesOnce` | projects/11/JackCompiler/CompilationEngine.js:106-122 | entered on `(`, an empty list still runs the loop once, defining the token after `)` with type `)` |
| `Engine.MethodThisIsArgumentZero` | projects/11/JackCompiler/CompilationEngine.js:94-99 | in a method `this` is argument 0 of the class's type and the i-th parameter argument i + 1 |
| `Engine.CompilationEngine.constructor` | projects/11/JackCompiler/CompilationEngine.js:6-11 | the class name starts empty and no token has been read |
| `Engine.CompilationEngine.CurrentToken` | projects/11/JackCompiler/CompilationEngine.js:17-19 | the text of the token at the cursor |
| `Engine.CompilationEngine.AdvanceToken` | projects/11/JackCompiler/CompilationEngine.js:13-15 | the cursor moves by one token |
| `Engine.CompilationEngine.CompileClass` | projects/11/JackCompiler/CompilationEngine.js:36-53 | takes the class name, declares every leading `static`/`field`, then throws at the first subroutine or steps over the closing bracket |
| `Engine.CompilationEngine.CompileClassVarDec` | projects/11/JackCompiler/CompilationEngine.js:55-77 | defines every name of the declaration in order, with its kind and type, and leaves the cursor after `;` |
| `Engine.CompilationEngine.DefineNameList` | projects/11/JackCompiler/CompilationEngine.js:69-74 | the loop defines each name after a separator and stops on the `;` |
| `Engine.CompilationEngine.CompileSubroutine` | projects/11/JackCompiler/CompilationEngine.js:79-92 | reads kind, return type and name, then `startSubroutine` throws |
| `Engine.CompilationEngine.CompileSubroutineSignature` | projects/11/JackCompiler/CompilationEngine.js:94-103 | the part of `compileSubroutine` after `startSubroutine`, which the source never reaches: `this` for a method, the parameters, then the body, whose header call throws |
| `Engine.CompilationEngine.DefineReceiver` | projects/11/JackCompiler/CompilationEngine.js:94-95 | only a method defines `this` as an argument of the class's type |
| `Engine.CompilationEngine.CompileParameterList` | projects/11/JackCompiler/CompilationEngine.js:106-122 | defines every (type, name) pair as an argument and stops on the `)` |
| `Engine.CompilationEngine.CompileSubroutineBody` | projects/11/JackCompiler/CompilationEngine.js:124-131 | declares all leading `var`s, then the header call throws a TypeError (see LocalCountAfterRun for the count it would pass) |
| `Engine.CompilationEngine.CompileVarDec` | projects/11/JackCompiler/CompilationEngine.js:139-157 | defines every name of the declaration as a local of its type and leaves the cursor after `;` |

## Left out

- File and console I/O are not modelled: reading the input files, the output files, `pass2`'s writing loop, `main`, `writeToXml`, `tokenize`'s XML output, `debug`/`debug_log` and the console messages. The lines of a file are a sequence of strings, and the VM file's name is a parameter.
- Strings are sequences of Unicode scalar values. JavaScript indexes strings by UTF-16 code units, so `fp`, `input.length` and `input[fp]` differ from the model on text outside the Basic Multilingual Plane, and lone surrogates cannot be written at all.
- `Assembler.Address`: requires AddressHalts. A numeral that `Number()` reads as Infinity (one of 309 or more digits, rounding past the largest double) makes `decimal_to_binary` loop forever, because Infinity halved stays positive. The same requirement is on `Assembler.LineResult`, `Assembler.Assembler.AddressInstruction` and `Assembler.Assembler.ParseLine`.
- `Assembler.RoundToDouble` rounds the exact value of a numeral to nearest, ties to even. ECMA-262 lets an implementation round away digits after the 20th significant one first; that variation is not modelled.
- `CompilerTokenizer.Tokenizer.Advance`: requires CanAdvance. A string left open at the end of the text makes the loop at projects/11/JackCompiler/Tokenizer.js:182-185 run forever, because `undefined` is never a quote. `CompilerTokenizer.Tokenizer.GetLookAhead` has the same requirement.
- `AnalyzerTokenizer.Tokenizer.Advance`: requires CanStep. A `//` comment without a following newline, an unclosed `/*` comment or an unclosed string never ends in projects/10/JackAnalyzer/Tokenizer.js:193-200 and 219-222, because none of those loops checks for the end of the text.
- `Engine.CompilationEngine.CompileClassVarDec`, `Engine.CompilationEngine.CompileVarDec` and `Engine.CompilationEngine.DefineNameList`: require NameListEnds/DeclarationEnds. The loops at CompilationEngine.js:69 and 149 run forever unless a `;` arrives at the right stride, since past the end the current token stays empty.
- `Engine.CompilationEngine.CompileParameterList` and `Engine.CompilationEngine.CompileSubroutineSignature`: require ParameterListEnds, for the same reason about the `)` of the loop at CompilationEngine.js:109.
- `Engine.CompilationEngine.CompileClass` and `Engine.CompilationEngine.CompileSubroutineBody`: require DeclarationsEnd, so that every declaration of the run at CompilationEngine.js:46 and 127 ends.
- The engine is not wired to the tokenizer or to a real `SymbolTable`. `SymbolTable.js` exports nothing, so `new SymbolTable()` at CompilationEngine.js:3 and 10 throws a TypeError in the constructor. The model therefore runs the engine on the sequence of token texts the tokenizer would yield, with a `SymbolTable` passed in. The engine only ever reads `current.token`.
- `getSubroutineName` does not exist, so the header call at CompilationEngine.js:130 throws before `varCount("local")` is read. `Engine.LocalCountAfterRun` states the count it would pass.
- `startSubroutine` throws, so nothing after CompilationEngine.js:92 runs. `Engine.CompilationEngine.CompileSubroutineSignature` models lines 94-103 as they would run if it returned.
- The statement and expression half of the engine (CompilationEngine.js:159 onward), `VMWriter.js`, the project-10 `CompilationEngine.js` and the two directory drivers are not modelled. They are unfinished and produce no code.
- `function`, `call`, `return` and `writeInit` are not modelled, because `parse` never produces them.
- `Symbols.AfterDefine` and `Symbols.FindIdentifier` treat every name alike. The source's tables are plain objects, so `define("__proto__", …)` replaces the prototype instead of adding a counted key. A Jack name `hasOwnProperty` shadows the method, and every later `findIdentifier` on that table throws a TypeError.
- `VmMeaning.PopSegmentMeaning` and `VmMeaning.PopTempMeaning`: require that `addr`, SP and the old top are different cells. The lemmas do not describe pops that overwrite their own bookkeeping.
- `VmMeaning.PushConstantMeaning` and the other push, pop and arithmetic meaning lemmas: require that the stack cells they touch are not cell 0, which holds SP. A stack that has run into SP is not described.
- `VmMeaning.ComparisonMeaning`: the snippet runs on its own from address 0, so `jump_true_n` is at 15 and `continue_n` at 20. The meaning is stated for that placement only.
- `VmMeaning.ComparesWithoutOverflow`: eq, gt and lt test the sign of the 16-bit difference, as the template does. The lemma relates this to the signed comparison only when the difference does not overflow.
- The push and pop meaning lemmas for constant, segment and temp indices require a decimal numeral index. Another index text is assembled as a symbol, and the lemmas say nothing about it.
- The Hack machine of `hack.dfy` decodes only the instruction forms the translator emits; any other line does nothing there.
- `VmMeaning.GotoMeaning`, `VmMeaning.IfGotoMeaning` and `VmMeaning.LabelMeaning`: require a non-empty label name. A doubled space after `goto`, `if-goto` or `label` gives an empty name, so the translator emits a bare `@` or an empty `()`. Neither the assembler's patterns nor the Hack language accept these as an address or a label; `Hack.EmptyNamesUndecoded` and `Assembler.InstructionForms` state this.
- `VmProperties.WordsOfJoin`: requires non-empty words without white space. `split(" ")` on doubled spaces yields empty words, which the lemma does not cover.
