# A verified model of ipeterov/json's `parser.py`

`parser.py` is a single-pass, recursive-descent JSON reader. One
`JSONParser` object holds an iterator over the text. `value_handler` looks at
the first significant symbol and hands over to a handler for literals,
strings, numbers, arrays or objects. Arrays and objects are small state
machines over the expected-symbol strings `VALUE`, `COMMA_OR_ARRAY_END`, …
`parse` reads one value and then allows nothing but whitespace.

The model has two layers.

* **Reference functions** (module `Grammar`) say what each handler computes.
  Each one is a pure function of the whole text and a cursor position. It
  returns a `Scan`: the outcome, plus the position the cursor is left at.
  The outcome is a value or a `Fault`:
  * `Exhausted` is the `StopIteration` raised when the text runs out.
  * `Unexpected(c)` is `UnexpectedSymbol(c)`.
  * `NotANumber(t)` is the `ValueError` raised by `int()` or `float()`.

  `Decode` is `parse`. It maps the faults onto the errors `parse` lets
  escape: `InvalidJSON`, `UnexpectedSymbol(c)` (a subclass of `InvalidJSON`)
  and a plain `ValueError`.
* **The parser itself** (module `Parser`) is the class `JsonParser`. It
  holds the text in the field `input` and a cursor in the field `pos`, so the
  iterator is `input[pos..]`. There is one method per handler, with the
  source's own loops. Each method is proved to leave the cursor and return
  the result that its reference function describes. `push_back` moves the
  cursor back by one.

The other modules:

* `Symbols` holds the symbol classes, the eight expected-symbol strings and
  the array and object transition tables.
* `JsonValues` holds the values. A Python dict is an association list, and
  `Assign` is `d[key] = value`.
* `GrammarFacts` states each reference function without its recursion: where
  a scan stops, which symbol a fault names, and when `parse` succeeds.
* `Rendering` has a writer for values and proves the round trip in both
  directions. Every value `parse` returns is `WellFormed` (no negative
  number, no quote inside a string or key, no repeated key). `parse` reads
  back the writer's text of every `WellFormed` value, with any whitespace
  around it. So whatever `parse` returns, it also returns from the writer's
  text of that value.
* `TestCases` works the inputs of the repository's test suite through the
  model.
* `TestTexts` holds the longer test texts, each with its characters listed
  one by one.

The model follows `parser.py` as written. Some of the repository's tests
expect more than the code does. test.py:18 expects `"-42"` to be read as -42,
and tests/test.py:18-27 expect negative numbers and exponents. `parser.py`
implements neither:

* `-` is not in `VALUE`.
* `number_handler` takes only digits and `.`.

The model therefore rejects those inputs, as the code does. Escape sequences
are not implemented either. To `string_handler` a backslash is an ordinary
symbol, and the string ends at the first `"`. So `"a\nb"` is read as the four
symbols `a`, `\`, `n`, `b`, and `"a\"b"` is the string `a\` followed by the
unexpected symbol `b`.

## Model

| member | source | states |
|---|---|---|
| Symbols.IsWhitespace | parser.py:66 | A definition: the six symbols of `string.whitespace`, namely space, `\t`, `\n`, `\r`, `\x0b` and `\x0c`. |
| Symbols.Spelling | parser.py:16-23 | A definition: the strings of the eight expected-symbol constants, letter for letter. `AllowsIsMembership` ties them to `Allows`. |
| Symbols.Allows | parser.py:69 | A definition: the test `symbol in expected_symbols`. `AllowsIsMembership` states it is membership in the constant's string. |
| Symbols.AllowsIsMembership | parser.py:16-23 | A symbol is allowed by an expected-symbol set exactly when it occurs in that constant's string (`VALUE` is `{["tfn` and the ten digits, without `-`). |
| Symbols.ArrayTable | parser.py:113-119 | In the array machine, `]` is allowed in every state except right after a `,`. `,` is allowed only after an element. `:` is never allowed. |
| Symbols.ArrayExpects | parser.py:113-119 | A definition: the expected-symbol string of each array state, the keys of `next_expecting`. `ArrayTable` states what each allows. |
| Symbols.ArrayNext | parser.py:113-117 | A definition: `array_handler`'s `next_expecting` table. `ArrayTable` states what each state allows. |
| Symbols.ObjectExpects | parser.py:134-142 | A definition: the expected-symbol string of each object state, the keys of `next_expecting`. `ObjectTable` states what each allows. |
| Symbols.ObjectNext | parser.py:134-140 | A definition: `object_handler`'s `next_expecting` table. `ObjectTable` states what each state allows. |
| Symbols.ObjectTable | parser.py:134-142 | In the object machine, `}` is allowed only at the start and after a member's value. `:` is allowed only after a key. `,` is allowed only after a value. Where a key may come, the only symbols allowed are `"` and `}`. |
| JsonValues.Assign | parser.py:154 | A definition: `obj[current_key] = value` on an association list. `AssignKeys`, `AssignAppends`, `AssignUnique` and `AssignLookup` state what it does. |
| JsonValues.AssignKeys | parser.py:154 | A dict store keeps the key order: an existing key stays where it is, and a new key goes last. |
| JsonValues.AssignAppends | parser.py:154 | Storing under a key not yet present appends the pair. |
| JsonValues.AssignUnique | parser.py:154 | A dict store keeps the keys unique. |
| JsonValues.AssignMembers | parser.py:154 | A store brings in no member but the one stored: every member after it was there before, or is the new key and value. |
| JsonValues.AssignLookup | parser.py:154 | After a store, the key reads back the value stored last, and every other key reads back what it held before. |
| Grammar.IsInvalidJSON | parser.py:5-13 | A definition: `isinstance(e, InvalidJSON)`, true of `InvalidJSON` and its subclass `UnexpectedSymbol`. `TestCases.InvalidJSONCases` uses it. |
| Grammar.SkipWs | parser.py:64-72 | The cursor never moves back. An accepted symbol is the last symbol consumed. |
| Grammar.LiteralAt | parser.py:83-89 | A literal that is read consumes exactly the rest of its spelling. |
| Grammar.LiteralRest | parser.py:75-81 | A definition: the first half of the `literals` entry, the rest of the spelling. `GrammarFacts.LiteralAtSucceeds` states that exactly this must follow. |
| Grammar.LiteralValue | parser.py:75-81 | A definition: the second half of the `literals` entry, the value returned. `GrammarFacts.LiteralAtSucceeds` and `Rendering.LiteralRoundTrip` pin it down. |
| Grammar.StringAt | parser.py:91-97 | The cursor stays within the text. `GrammarFacts.StringAtSpec` states the rest. |
| Grammar.NumberOf | parser.py:106-109 | A definition: the `int()`/`float()` conversion of a run. `GrammarFacts.NumberOfSpec` states which runs convert and to what. |
| Grammar.DecimalValue | parser.py:109 | A definition: `int(digits)` on a run of ASCII digits, the decimal reading. `GrammarFacts.NumberOfSpec` uses it, and `Rendering.DecimalRoundTrip` states that it inverts the decimal spelling. |
| Grammar.NumberAt | parser.py:99-105 | A number that starts with a digit or `.` consumes at least that symbol. |
| Grammar.ValueAt | parser.py:47-59 | The cursor never moves back, and a value that is read consumes at least one symbol. This is the measure that makes value, array and object handling terminate. |
| Grammar.ArrayFrom | parser.py:119-130 | The same for `array_handler`'s loop. |
| Grammar.ObjectFrom | parser.py:142-156 | The same for `object_handler`'s loop. |
| Grammar.ArrayElementStep | parser.py:126-130 | Proof step (one unfolding of the handler): One turn of the array loop that reads an element: it reads a value from the symbol given back, then either appends the value and expects `,` or `]`, or passes the value's fault on. |
| Grammar.ObjectValueStep | parser.py:152-156 | Proof step (one unfolding of the handler): One turn of the object loop that reads a value: it reads a value from the symbol given back, then either stores it under the current key and expects `,` or `}`, or passes the value's fault on. |
| Grammar.Decode | parser.py:30-45 | A definition: `parse` as `Finish` applied to `value_handler`'s result from the start. `GrammarFacts.DecodeSpec` and `Rendering.RoundTrip` state what it returns. |
| Grammar.Finish | parser.py:33-45 | A definition: what `parse` does with `value_handler`'s result. `GrammarFacts.FinishSpec` states it without the match. |
| GrammarFacts.WhitespaceEndSpec | parser.py:65-67 | The whitespace run ends at `j` if and only if everything before `j` is whitespace and `s[j]` is not (or the text ends). |
| GrammarFacts.NumberEndSpec | parser.py:101-105 | The run of digits and `.` ends at `j` if and only if everything before `j` is a digit or `.` and `s[j]` is neither (or the text ends). |
| GrammarFacts.QuoteIndexSpec | parser.py:93-96 | The scan stops at `j` if and only if there is no `"` before `j` and `s[j]` is `"` (or the text ends). |
| GrammarFacts.SkipWsSpec | parser.py:64-72 | `skip_whitespace` runs out if and only if only whitespace is left. Otherwise it consumes exactly the leading whitespace and one more symbol. It returns that symbol if it is expected, and raises `UnexpectedSymbol` for it if not. |
| GrammarFacts.SkipWsAtSymbol | parser.py:64-72 | Proof step (one unfolding of the handler): On a symbol that is not whitespace, `skip_whitespace` consumes just that symbol and accepts or rejects it. |
| GrammarFacts.SkipWsAfterWhitespace | parser.py:65-67 | Whitespace in front of the next symbol makes no difference to `skip_whitespace`. |
| GrammarFacts.ValueAtAfterWhitespace | parser.py:48 | Whitespace in front of a value makes no difference to `value_handler`. |
| GrammarFacts.ArrayAfterWhitespace | parser.py:121 | Whitespace between the tokens of an array makes no difference. |
| GrammarFacts.ObjectAfterWhitespace | parser.py:145 | Whitespace between the tokens of an object makes no difference. |
| GrammarFacts.LiteralAtSucceeds | parser.py:83-89 | `literal_handler` succeeds if and only if the text goes on with the rest of the literal's spelling. It then returns the literal's value and stops right after the spelling. |
| GrammarFacts.LiteralAtExhausted | parser.py:83 | `literal_handler` runs out if and only if the text ends inside the literal, with every symbol up to the end matching. |
| GrammarFacts.LiteralAtMismatch | parser.py:84-85 | Any other failure comes at the first symbol that differs from the spelling, names that symbol, and consumes it. |
| GrammarFacts.StringAtSpec | parser.py:91-97 | `string_handler` runs out if and only if no `"` follows. Otherwise it returns exactly the symbols before the first `"`, which contain no quote, and consumes that quote. |
| GrammarFacts.StringAtQuote | parser.py:93-95 | Proof step (one unfolding of the handler): A `"` at `j` with no quote before it ends the string there. |
| GrammarFacts.NumberAtSpec | parser.py:99-105 | `number_handler` consumes the longest run of digits and `.`. The end of the text ends the number normally, and the symbol after the run is left unread. The run is then converted. |
| GrammarFacts.DotsSpec | parser.py:107 | The dot count is the multiplicity of `.`, and it is zero if and only if `"." in digits` is false. |
| GrammarFacts.NumberOfSpec | parser.py:106-109 | The conversion succeeds if and only if the run is non-empty with no `.` (an `int`, whose value is the decimal reading of the run) or has exactly one `.` and a digit (a `float`, kept as its text). Every other run is a `ValueError` naming the run. |
| GrammarFacts.FinishSpec | parser.py:33-45 | Given what `value_handler` returned, `parse` returns the value if and only if the handler succeeded and only whitespace follows. `InvalidJSON` without a symbol comes exactly from running out inside the value, so the final `raise InvalidJSON()` is never reached. `ValueError` comes exactly from a number. A symbol other than whitespace after the value is `UnexpectedSymbol` for the first such symbol. |
| GrammarFacts.DecodeSpec | parser.py:30-45 | The same five facts for `parse` on a whole text. |
| GrammarFacts.DecodeBlank | parser.py:33-36 | Empty or all-whitespace text is `InvalidJSON`. |
| GrammarFacts.DecodeNotAValue | parser.py:48 | Text whose first significant symbol cannot start a value is rejected with `UnexpectedSymbol` for that symbol. |
| GrammarFacts.ObjectKeysUnique | parser.py:132-156 | An object that `object_handler` returns never holds the same key twice. |
| GrammarFacts.ValueAtLiteral | parser.py:58-59 | Proof step (one unfolding of the handler): `t`, `f` or `n` hands over to `literal_handler` with the rest of `true`, `false` or `null`. |
| GrammarFacts.ValueAtNumber | parser.py:55-57 | Proof step (one unfolding of the handler): A digit is given back, and `number_handler` reads from it. |
| GrammarFacts.ValueAtString | parser.py:53-54 | Proof step (one unfolding of the handler): `"` hands over to `string_handler`. |
| GrammarFacts.ValueAtArray | parser.py:51-52 | Proof step (one unfolding of the handler): `[` hands over to `array_handler`. |
| GrammarFacts.ValueAtObject | parser.py:49-50 | Proof step (one unfolding of the handler): `{` hands over to `object_handler`. |
| GrammarFacts.ValueRejects | parser.py:48 | Proof step (one unfolding of the handler): A symbol that cannot start a value raises `UnexpectedSymbol` for itself. |
| GrammarFacts.ArrayEnds | parser.py:123-124 | Proof step (one unfolding of the handler): `]` returns the elements read so far, in every state but the one after `,`. |
| GrammarFacts.ArrayComma | parser.py:126-130 | Proof step (one unfolding of the handler): `,` after an element is consumed, and the next state expects a value. |
| GrammarFacts.ArrayElement | parser.py:126-128 | Proof step (one unfolding of the handler): A value in a state that expects one is appended, and the next state expects `,` or `]`. |
| GrammarFacts.ArrayRejects | parser.py:121 | Proof step (one unfolding of the handler): A symbol the array state does not expect raises `UnexpectedSymbol` for itself. |
| GrammarFacts.ArrayRunsOut | parser.py:121 | Proof step (one unfolding of the handler): An array still open at the end of the text runs out. |
| GrammarFacts.ObjectEnds | parser.py:147-148 | Proof step (one unfolding of the handler): `}` returns the members stored so far, where the object may end. |
| GrammarFacts.ObjectKey | parser.py:150-151 | Proof step (one unfolding of the handler): `"` where a key may come reads the key with `string_handler` and then expects `:`. |
| GrammarFacts.ObjectColon | parser.py:135-136 | Proof step (one unfolding of the handler): `:` after a key is consumed, and the next state expects a value. |
| GrammarFacts.ObjectMemberValue | parser.py:152-154 | Proof step (one unfolding of the handler): A value after `:` is stored under the current key, and the next state expects `,` or `}`. |
| GrammarFacts.ObjectComma | parser.py:137-138 | Proof step (one unfolding of the handler): `,` after a value is consumed, and the next state expects a key. |
| GrammarFacts.ObjectRejects | parser.py:145 | Proof step (one unfolding of the handler): A symbol the object state does not expect raises `UnexpectedSymbol` for itself. |
| GrammarFacts.ObjectRunsOut | parser.py:145 | Proof step (one unfolding of the handler): An object still open at the end of the text runs out. |
| Parser.JsonParser.constructor | parser.py:27-28 | A new parser has nothing to read (Python's `None` iterator is modelled as an empty stream; see "## Left out"). |
| Parser.JsonParser.Next | parser.py:101 | `next(iterator, None)`: at the end it gives nothing and leaves the stream as it was. Otherwise it gives the first symbol, and the stream becomes the rest. |
| Parser.JsonParser.PushBack | parser.py:61-62 | After `push_back(c)` the stream is `c` followed by exactly the stream that was there before. |
| Parser.JsonParser.SkipWhitespace | parser.py:64-72 | The loop returns and leaves the cursor exactly as `SkipWs` describes. |
| Parser.JsonParser.LiteralHandler | parser.py:74-89 | The loop over `remaining` returns and leaves the cursor exactly as `LiteralAt` describes. |
| Parser.JsonParser.StringHandler | parser.py:91-97 | The loop that collects `letters` returns and leaves the cursor exactly as `StringAt` describes. |
| Parser.JsonParser.NumberHandler | parser.py:99-109 | The loop that collects `digits`, with its push-back of the delimiter, returns and leaves the cursor exactly as `NumberAt` describes. |
| Parser.JsonParser.ValueHandler | parser.py:47-59 | The dispatch returns and leaves the cursor exactly as `ValueAt` describes. |
| Parser.JsonParser.ArrayHandler | parser.py:111-130 | The loop over `expecting` and `array` returns and leaves the cursor exactly as `ArrayFrom` describes from `VALUE_OR_ARRAY_AND` and no elements. |
| Parser.JsonParser.ObjectHandler | parser.py:132-156 | The loop over `expecting`, `current_key` and `obj` returns and leaves the cursor exactly as `ObjectFrom` describes from `KEY_OR_OBJECT_END` and no members. |
| Parser.JsonParser.Parse | parser.py:30-45 | `parse(text)` returns exactly `Decode(text)`. On success the whole text has been read. |
| Rendering.DecimalRoundTrip | parser.py:109 | `int()` of the decimal spelling of `n` is `n`. |
| Rendering.RenderStart | parser.py:16 | The text of every `WellFormed` value (every value the parser can produce, by `DecodeWellFormed`) starts with a symbol in `VALUE`. |
| Rendering.LiteralRoundTrip | parser.py:74-89 | `value_handler` reads `null`, `true` and `false` back as their values and stops right after them. |
| Rendering.NumberText | parser.py:106-109 | The text of a non-negative int or a float is all digits and `.`, and the conversion gives back the number. |
| Rendering.NumberRun | parser.py:99-109 | A run of digits and `.` followed by a delimiter is read whole and converted. |
| Rendering.NumberRoundTrip | parser.py:55-57 | `value_handler` reads a number's text back as that number when a delimiter follows. |
| Rendering.StringRoundTrip | parser.py:91-97 | `value_handler` reads a quoted string without quotes inside back as that string. |
| Rendering.ValueRoundTrip | parser.py:47-59 | `value_handler` reads the text of every `WellFormed` value back as that value, ending right after the text, when a delimiter follows. |
| Rendering.ValueBeforeDelimiter | parser.py:126-128 | The same inside an array or object, where `,`, `]` or `}` follows. |
| Rendering.ArrayRoundTrip | parser.py:111-130 | `array_handler` reads an array's text back as that array, in element order, nested arrays included. |
| Rendering.ItemStep | parser.py:126-130 | Reading one element of an array's text appends exactly that element. |
| Rendering.ItemsRoundTrip | parser.py:120-130 | The rest of an array's text, after its first elements, completes the array. |
| Rendering.ObjectRoundTrip | parser.py:132-156 | `object_handler` reads an object's text back as that object, when the object has no repeated keys. |
| Rendering.MemberStep | parser.py:145-156 | Reading one `"key":value` member of an object's text stores exactly that member. |
| Rendering.MembersRoundTrip | parser.py:145-156 | The rest of an object's text, after its first members, completes the object. |
| Rendering.NewKeyAppends | parser.py:154 | When the keys are unique, each store appends the next member. |
| Rendering.RoundTrip | parser.py:30-45 | `parse` returns every `WellFormed` value from its text, with any whitespace before and after it. |
| Rendering.NumberWellFormed | parser.py:99-109 | `number_handler`, started on a digit, returns a non-negative int or a float text with one `.` that starts with a digit. |
| Rendering.ValueWellFormed | parser.py:47-59 | Every value `value_handler` returns is `WellFormed`. |
| Rendering.ArrayWellFormed | parser.py:111-130 | `array_handler`'s loop returns a `WellFormed` array when the elements so far are. |
| Rendering.AssignWellFormed | parser.py:154 | Storing a `WellFormed` value under a key without quotes keeps the members `WellFormed`, with their keys unique. |
| Rendering.ObjectWellFormed | parser.py:132-156 | `object_handler`'s loop returns a `WellFormed` object: unique keys read by `string_handler` (so without quotes), each with a `WellFormed` value. |
| Rendering.DecodeWellFormed | parser.py:30-45 | Every value `parse` returns is `WellFormed`, so `RoundTrip` covers every value the parser can produce. |
| Rendering.ParsedRendersBack | parser.py:30-45 | The converse of the round trip: whatever `parse` returns from some text, it returns again from the writer's text of that value. |
| TestCases.Eight | test.py:17 | `"8"` is 8. |
| TestCases.NegativeNumber | parser.py:16 | `-` is not in `VALUE`, so `"-42"` raises `UnexpectedSymbol('-')` (test.py:18 expects -42). |
| TestCases.HexNumber | test.py:19 | `"0x42"` reads 0, then raises `UnexpectedSymbol('x')`, an `InvalidJSON`. |
| TestCases.Quoted | parser.py:53-54 | `parse` reads any text without a quote, put between two quotes, as exactly that text. |
| TestCases.Strings | test.py:29-31 | `'"qwerty"'` is the string qwerty, `'""'` is the empty string, and comment-like text inside a string is kept as it is. |
| TestCases.EmptyText | test.py:32 | `""` is `InvalidJSON`. |
| TestCases.SpacedList | test.py:42 | `'["qwerty", "asd", 0]'`, with a space after each `,`, is `["qwerty", "asd", 0]`. |
| TestCases.MixedList | test.py:43-46 | `'["foo", 1, true, false, null, {"bar": 0}]'`, spaced out, is the array of those six values. |
| TestCases.DeepArray | test.py:47 | `"[[[[]]]]"` is four nested arrays. |
| TestCases.NestedArrays | test.py:48 | `"[[],[[]]]"` is `[[], [[]]]`. |
| TestCases.LoneBracket | test.py:49 | `"]"` raises `UnexpectedSymbol(']')`. |
| TestCases.ExtraBracket | test.py:50 | `"[[]]]"` raises `UnexpectedSymbol(']')` after the value. |
| TestCases.LeadingComma | test.py:51 | `"[,1]"` raises `UnexpectedSymbol(',')`. |
| TestCases.ColonInArray | test.py:52 | `'[" ": 1]'` raises `UnexpectedSymbol(':')`. |
| TestCases.UnclosedArray | test.py:53 | `"[1,\n1\n,1"` runs out and is `InvalidJSON`. |
| TestCases.ListMember | test.py:63-66 | `'{"qwerty": "asd", "foo": ["bar1", "bar2"]}'`, spaced out, is that object, with its members in order. |
| TestCases.ObjectMember | test.py:67-70 | `'{"qwerty": "asd", "foo": {"bar": "baz"}}'`, spaced out, is that object, with the inner object under `"foo"`. |
| TestCases.EmptyKey | test.py:71 | `'{"":0}'` is `{"": 0}`. |
| TestCases.RepeatedKey | test.py:72 | `'{"a":"b","a":"b"}'` is `{"a": "b"}`, one member. |
| TestCases.NumericKey | test.py:73 | `"{1:1}"` raises `UnexpectedSymbol('1')`. |
| TestCases.MissingKey | test.py:74 | `'{:"b"}'` raises `UnexpectedSymbol(':')`. |
| TestCases.BareKey | test.py:75-76 | `"{key: 'value'}"` raises `UnexpectedSymbol('k')`. |
| TestCases.DoubleColon | test.py:77 | `'{"x"::"b"}'` raises `UnexpectedSymbol(':')`. |
| TestCases.TrailingComma | test.py:78 | `'{"id":0,}'` raises `UnexpectedSymbol('}')`. |
| TestCases.RepeatedCommas | test.py:79 | `'{"id":0,,,,,}'` raises `UnexpectedSymbol(',')` at the second comma. |
| TestCases.MissingValue | test.py:80 | `'{"":'` runs out and is `InvalidJSON`. |
| TestCases.ExtraBrace | test.py:81 | `"{}}"` raises `UnexpectedSymbol('}')` after the value. |
| TestCases.TrailingComment | test.py:82 | `'{"a":"b"}/**/'` raises `UnexpectedSymbol('/')` after the value. |
| TestCases.CommentBeforeValue | test.py:83 | `'{"a":/*comment*/"b"}'` raises `UnexpectedSymbol('/')`. |
| TestCases.Literals | test.py:93-100 | `"null"`, `"true"` and `"false"` are None, True and False. |
| TestCases.BrokenLiterals | test.py:94-101 | `"n"`, `"t"` and `"fa"` run out (`InvalidJSON`). `"none"` raises `UnexpectedSymbol('o')`. |
| TestCases.CapitalLiterals | test.py:96-102 | `"Null"`, `"True"` and `"False"` raise `UnexpectedSymbol` for their capital letter. |
| TestCases.InvalidJSONCases | test.py:6-9 | Every input that test.py:19-103 expects to raise `InvalidJSON` makes `parse` raise an error that `pytest.raises(InvalidJSON)` accepts: `InvalidJSON` or `UnexpectedSymbol`, never a plain `ValueError`. |
| TestCases.NotALiteral | test.py:103 | `"something"` raises `UnexpectedSymbol('s')`. |

## Left out

- `float(digits)` is IEEE-754 conversion. A number with a `.` is kept as its text (`Float(text)`). The model states exactly which runs `float()` accepts: one `.` and at least one digit.
- Python's iterator plumbing (`__iter__`, `itertools.chain`, `StopIteration` as control flow) is replaced by the index `pos` into `input` and the explicit fault `Exhausted`. Each `push_back` wraps the iterator in one more `itertools.chain`, and every later read passes through all of them. In CPython the time therefore grows quadratically with the number of push-backs, and a long enough input can exhaust the C stack. The model's index cursor has neither cost.
- Parser.JsonParser.PushBack: requires that the symbol given back is the one just read. `push_back` itself accepts any symbol, but every call site (parser.py:56, 103, 127, 153) gives back the symbol it has just read, and only that lets the stream stay a suffix of the text.
- The module-level singleton `parser = JSONParser()` (parser.py:159) is not modelled. `Parse` resets the cursor on every call.
- The message text of `UnexpectedSymbol` (parser.py:12) is not modelled. Only the symbol is kept.
- `parse` drops the cursor after a fault and returns only the error. The model still states where each fault leaves it: `GrammarFacts.SkipWsSpec`, `StringAtSpec`, `LiteralAtMismatch`, `ValueRejects`, `ArrayRejects`, `ObjectRejects`, `ArrayRunsOut` and `ObjectRunsOut` give that position, which is where the Python iterator stands after the failed `next()`.
- Parser.JsonParser.constructor: `__init__` sets `self.iterator = None`, so a handler called before `parse` raises `TypeError` in Python; the model starts with an empty `input`, so the same call returns `Exhausted`. `Parse` always resets the stream first, so no call through `parse` sees the difference.
- Both test harnesses are pytest plumbing and are not modelled. `TestCases` states their inputs instead.
- Test expectations that parser.py does not meet are stated as what the code does, or left out. test.py:18 expects -42 (see `TestCases.NegativeNumber`). tests/test.py:3 imports a `json` that parser.py does not define. The negative and exponent cases of tests/test.py:18-27 rely on features the code lacks. tests/test.py is not part of this model.
- Rendering.RoundTrip: `Render` writes no whitespace between the tokens of an array or object, so the round trip covers whitespace only before and after the whole value. Whitespace between tokens is stated by `ArrayAfterWhitespace` and `ObjectAfterWhitespace`, and the spaced inputs of test.py:42-46 and test.py:63-70 are worked through in `TestCases.SpacedList`, `TestCases.MixedList`, `TestCases.ListMember` and `TestCases.ObjectMember`.
- Rendering.RoundTrip: the model assumes unbounded recursion. `value_handler` and the array and object handlers call one another once per level of nesting, so CPython raises `RecursionError` for nesting a few hundred levels deep (`"[" * 600 + "]" * 600` under the default limit of 1000 frames). `Decode`, `ValueAt` and the handler methods return the nested value instead.
- GrammarFacts.NumberOfSpec: the model assumes no limit on the digits of an `int`. CPython 3.11 and later (and the security releases 3.8.14, 3.9.14 and 3.10.7) raise `ValueError` from `int()` for a run of more than 4300 digits by default, where the model returns the number.
- A Python `str` can hold a lone surrogate, such as `"\ud800"`, but a Dafny `char` cannot. Texts holding one are outside the model.
- Escape sequences, negative numbers, exponents and leading-zero rejection are not modelled, because parser.py does not implement them.
