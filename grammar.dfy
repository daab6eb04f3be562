/**
 * Reference definitions of what each handler of the parser computes, as
 * pure functions of the whole input and the cursor position. Each one
 * returns the outcome together with the position the cursor is left at.
 */
module Grammar {

  import opened Outcomes
  import opened Symbols
  import opened JsonValues

  /** Why a handler gave up: the Python exceptions that travel up to `parse`. */
  datatype Fault =
    | Exhausted                 // StopIteration: the input ran out
    | Unexpected(symbol: char)  // UnexpectedSymbol(symbol)
    | NotANumber(text: string)  // ValueError from int() or float()

  /** An outcome and the cursor position after it. */
  datatype Scan<+T> = Scan(outcome: Result<T, Fault>, pos: nat)

  /** The errors `parse` raises. */
  datatype ParseError =
    | InvalidJSON
    | UnexpectedSymbol(symbol: char)
    | ValueError(text: string)

  /** `isinstance(e, InvalidJSON)`: UnexpectedSymbol is a subclass of InvalidJSON. */
  predicate IsInvalidJSON(e: ParseError)
  {
    e.InvalidJSON? || e.UnexpectedSymbol?
  }

  /** The end of the run of whitespace that starts at `i`. */
  function WhitespaceEnd(s: string, i: nat): (j: nat)
    requires i <= |s|
    ensures i <= j <= |s|
    decreases |s| - i
  {
    if i < |s| && IsWhitespace(s[i]) then WhitespaceEnd(s, i + 1) else i
  }

  /** The end of the run of digits and '.' that starts at `i`. */
  function NumberEnd(s: string, i: nat): (j: nat)
    requires i <= |s|
    ensures i <= j <= |s|
    ensures forall k :: i <= k < j ==> IsNumberSymbol(s[k])
    decreases |s| - i
  {
    if i < |s| && IsNumberSymbol(s[i]) then NumberEnd(s, i + 1) else i
  }

  /** The index of the first '"' at or after `i`, or `|s|` when there is none. */
  function QuoteIndex(s: string, i: nat): (j: nat)
    requires i <= |s|
    ensures i <= j <= |s|
    decreases |s| - i
  {
    if i < |s| && s[i] != '"' then QuoteIndex(s, i + 1) else i
  }

  /**
   * skip_whitespace: drop whitespace, then take one symbol and accept it
   * only when `expected` allows it.
   */
  function SkipWs(s: string, i: nat, expected: SymbolSet): (r: Scan<char>)
    requires i <= |s|
    ensures i <= r.pos <= |s|
    ensures r.outcome.Ok? ==> i < r.pos && s[r.pos - 1] == r.outcome.value
  {
    var k := WhitespaceEnd(s, i);
    if k == |s| then Scan(Err(Exhausted), k)
    else if Allows(expected, s[k]) then Scan(Ok(s[k]), k + 1)
    else Scan(Err(Unexpected(s[k])), k + 1)
  }

  /** The first letters of the three literals. */
  predicate IsLiteralStart(c: char)
  {
    c == 't' || c == 'f' || c == 'n'
  }

  /** The rest of a literal after its first letter. */
  function LiteralRest(first: char): string
    requires IsLiteralStart(first)
  {
    if first == 't' then "rue" else if first == 'f' then "alse" else "ull"
  }

  /** The value a literal stands for. */
  function LiteralValue(first: char): Json
    requires IsLiteralStart(first)
  {
    if first == 't' then Bool(true) else if first == 'f' then Bool(false) else Null
  }

  /** literal_handler's loop: match `remaining` symbol by symbol. */
  function LiteralAt(s: string, i: nat, remaining: string, value: Json): (r: Scan<Json>)
    requires i <= |s|
    ensures i <= r.pos <= |s|
    ensures r.outcome.Ok? ==> r.pos == i + |remaining|
    decreases |remaining|
  {
    if remaining == [] then Scan(Ok(value), i)
    else if i == |s| then Scan(Err(Exhausted), i)
    else if s[i] != remaining[0] then Scan(Err(Unexpected(s[i])), i + 1)
    else LiteralAt(s, i + 1, remaining[1..], value)
  }

  /** string_handler: everything up to the next '"', which is consumed. */
  function StringAt(s: string, i: nat): (r: Scan<string>)
    requires i <= |s|
    ensures i <= r.pos <= |s|
  {
    var j := QuoteIndex(s, i);
    if j == |s| then Scan(Err(Exhausted), j) else Scan(Ok(s[i..j]), j + 1)
  }

  /** The value of one decimal digit. */
  function DigitValue(c: char): (d: nat)
    requires IsDigit(c)
    ensures d < 10
  {
    (c as int - '0' as int) as nat
  }

  /** Python's `int(text)` on a string of ASCII digits. */
  function DecimalValue(text: string): nat
    requires forall k :: 0 <= k < |text| ==> IsDigit(text[k])
  {
    if text == [] then 0
    else 10 * DecimalValue(text[..|text| - 1]) + DigitValue(text[|text| - 1])
  }

  /** How many '.' symbols `text` holds. */
  function Dots(text: string): (n: nat)
    ensures n <= |text|
  {
    if text == [] then 0 else (if text[0] == '.' then 1 else 0) + Dots(text[1..])
  }

  /** A run of digits and '.' without a '.' is all digits. */
  lemma {:induction false} DigitsWithoutDots(text: string)
    requires forall k :: 0 <= k < |text| ==> IsNumberSymbol(text[k])
    requires Dots(text) == 0
    ensures forall k :: 0 <= k < |text| ==> IsDigit(text[k])
  {
    if text != [] {
      DigitsWithoutDots(text[1..]);
      assert forall k :: 1 <= k < |text| ==> text[k] == text[1..][k - 1];
    }
  }

  /**
   * The classification at the end of number_handler: `float(text)` when the
   * text has a '.', `int(text)` otherwise, each raising ValueError on text
   * it cannot read (float() wants exactly one '.' and a digit, int() wants
   * at least one digit).
   */
  function NumberOf(text: string): Result<Json, Fault>
    requires forall k :: 0 <= k < |text| ==> IsNumberSymbol(text[k])
  {
    if Dots(text) != 0 then
      if Dots(text) == 1 && |text| >= 2 then Ok(Float(text)) else Err(NotANumber(text))
    else if text == [] then Err(NotANumber(text))
    else
      DigitsWithoutDots(text);
      Ok(Int(DecimalValue(text)))
  }

  /** number_handler: the longest run of digits and '.', the symbol after it left unread. */
  function NumberAt(s: string, i: nat): (r: Scan<Json>)
    requires i <= |s|
    ensures i <= r.pos <= |s|
    ensures i < |s| && IsNumberSymbol(s[i]) ==> i < r.pos
  {
    var j := NumberEnd(s, i);
    Scan(NumberOf(s[i..j]), j)
  }

  /** value_handler: dispatch on the first significant symbol. */
  function ValueAt(s: string, i: nat): (r: Scan<Json>)
    requires i <= |s|
    ensures i <= r.pos <= |s|
    ensures r.outcome.Ok? ==> i < r.pos
    decreases |s| - i, 0
  {
    var first := SkipWs(s, i, Value);
    match first.outcome
    case Err(f) => Scan(Err(f), first.pos)
    case Ok(c) =>
      var j := first.pos;
      if c == '{' then ObjectFrom(s, j, KeyOrEnd, [], [])
      else if c == '[' then ArrayFrom(s, j, ElementOrEnd, [])
      else if c == '"' then
        var str := StringAt(s, j);
        match str.outcome
        case Err(f) => Scan(Err(f), str.pos)
        case Ok(t) => Scan(Ok(Str(t)), str.pos)
      else if IsDigit(c) then NumberAt(s, j - 1)
      else LiteralAt(s, j, LiteralRest(c), LiteralValue(c))
  }

  /** array_handler's loop, in `state`, with the elements read so far in `acc`. */
  function ArrayFrom(s: string, i: nat, state: ArrayState, acc: seq<Json>): (r: Scan<Json>)
    requires i <= |s|
    ensures i <= r.pos <= |s|
    ensures r.outcome.Ok? ==> i < r.pos
    decreases |s| - i, 1
  {
    var sym := SkipWs(s, i, ArrayExpects(state));
    match sym.outcome
    case Err(f) => Scan(Err(f), sym.pos)
    case Ok(c) =>
      var j := sym.pos;
      if c == ']' then Scan(Ok(Arr(acc)), j)
      else if state == ElementOrEnd || state == Element then
        var item := ValueAt(s, j - 1);
        match item.outcome
        case Err(f) => Scan(Err(f), item.pos)
        case Ok(v) => ArrayFrom(s, item.pos, ArrayNext(state), acc + [v])
      else ArrayFrom(s, j, ArrayNext(state), acc)
  }

  /** object_handler's loop, in `state`, with the current key and the members stored so far. */
  function ObjectFrom(s: string, i: nat, state: ObjectState, key: string, acc: seq<(string, Json)>): (r: Scan<Json>)
    requires i <= |s|
    ensures i <= r.pos <= |s|
    ensures r.outcome.Ok? ==> i < r.pos
    decreases |s| - i, 1
  {
    var sym := SkipWs(s, i, ObjectExpects(state));
    match sym.outcome
    case Err(f) => Scan(Err(f), sym.pos)
    case Ok(c) =>
      var j := sym.pos;
      if c == '}' then Scan(Ok(Obj(acc)), j)
      else if state == NextKey || state == KeyOrEnd then
        var name := StringAt(s, j);
        match name.outcome
        case Err(f) => Scan(Err(f), name.pos)
        case Ok(k) => ObjectFrom(s, name.pos, ObjectNext(state), k, acc)
      else if state == MemberValue then
        var item := ValueAt(s, j - 1);
        match item.outcome
        case Err(f) => Scan(Err(f), item.pos)
        case Ok(v) => ObjectFrom(s, item.pos, ObjectNext(state), key, Assign(acc, key, v))
      else ObjectFrom(s, j, ObjectNext(state), key, acc)
  }

  /** parse: one value, then nothing but whitespace. */
  function Decode(text: string): Result<Json, ParseError>
  {
    Finish(text, ValueAt(text, 0))
  }

  /**
   * The two `try` blocks of parse, given what value_handler returned: a
   * StopIteration while reading the value is InvalidJSON; after it,
   * StopIteration from the trailing skip_whitespace is success.
   */
  function Finish(text: string, value: Scan<Json>): Result<Json, ParseError>
    requires value.pos <= |text|
  {
    match value.outcome
    case Err(Exhausted) => Err(InvalidJSON)
    case Err(Unexpected(c)) => Err(UnexpectedSymbol(c))
    case Err(NotANumber(t)) => Err(ValueError(t))
    case Ok(v) =>
      var trailing := SkipWs(text, value.pos, NoSymbol);
      match trailing.outcome
      case Err(Exhausted) => Ok(v)
      case Err(Unexpected(c)) => Err(UnexpectedSymbol(c))
      case Err(NotANumber(t)) => Err(ValueError(t))
      case Ok(_) => Err(InvalidJSON)
  }

  /** One turn of array_handler's loop that reads an element. */
  lemma ArrayElementStep(s: string, i: nat, state: ArrayState, acc: seq<Json>)
    requires i <= |s| && (state == ElementOrEnd || state == Element)
    requires SkipWs(s, i, ArrayExpects(state)).outcome.Ok?
    requires SkipWs(s, i, ArrayExpects(state)).outcome.value != ']'
    ensures var item := ValueAt(s, SkipWs(s, i, ArrayExpects(state)).pos - 1);
      ArrayFrom(s, i, state, acc) ==
        if item.outcome.Ok? then ArrayFrom(s, item.pos, ArrayNext(state), acc + [item.outcome.value])
        else Scan(Err(item.outcome.error), item.pos)
  {
  }

  /** One turn of object_handler's loop that reads a member's value. */
  lemma ObjectValueStep(s: string, i: nat, key: string, acc: seq<(string, Json)>)
    requires i <= |s|
    requires SkipWs(s, i, ObjectExpects(MemberValue)).outcome.Ok?
    requires SkipWs(s, i, ObjectExpects(MemberValue)).outcome.value != '}'
    ensures var item := ValueAt(s, SkipWs(s, i, ObjectExpects(MemberValue)).pos - 1);
      ObjectFrom(s, i, MemberValue, key, acc) ==
        if item.outcome.Ok? then ObjectFrom(s, item.pos, ObjectCommaOrEnd, key, Assign(acc, key, item.outcome.value))
        else Scan(Err(item.outcome.error), item.pos)
  {
  }
}
