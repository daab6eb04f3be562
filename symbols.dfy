/**
 * The symbol classes of the parser and the two expectation state machines
 * that drive the array and object assemblers.
 */
module Symbols {

  /** Python's `string.whitespace`: space, tab, line feed, carriage return, vertical tab, form feed. */
  predicate IsWhitespace(c: char)
  {
    c == ' ' || c == '\t' || c == '\n' || c == '\r' || c == '\U{000B}' || c == '\U{000C}'
  }

  /** Python's `string.digits`. */
  predicate IsDigit(c: char)
  {
    '0' <= c <= '9'
  }

  /** The symbols a number literal is made of: `string.digits + "."`. */
  predicate IsNumberSymbol(c: char)
  {
    IsDigit(c) || c == '.'
  }

  /** The symbols that may start a value. */
  predicate IsValueStart(c: char)
  {
    c == '{' || c == '[' || c == '"' || c == 't' || c == 'f' || c == 'n' || IsDigit(c)
  }

  /** The expected-symbol strings, by name; `NoSymbol` is the empty list the driver passes. */
  datatype SymbolSet =
    | Value             // VALUE: '{', '[', '"', 't', 'f', 'n' and the digits; no '-'
    | ValueOrArrayEnd   // VALUE_OR_ARRAY_AND: VALUE and ']'
    | Key               // KEY: '"'
    | KeyOrObjectEnd    // KEY_OR_OBJECT_END: '"' and '}'
    | Comma             // COMMA: ','
    | CommaOrArrayEnd   // COMMA_OR_ARRAY_END: ',' and ']'
    | CommaOrObjectEnd  // COMMA_OR_OBJECT_END: ',' and '}'
    | Colon             // COLON: ':'
    | NoSymbol          // []

  /** The text of each expected-symbol string. */
  function Spelling(e: SymbolSet): string
  {
    match e
    case Value => "{[\"tfn0123456789"
    case ValueOrArrayEnd => "{[\"tfn0123456789]"
    case Key => "\""
    case KeyOrObjectEnd => "\"}"
    case Comma => ","
    case CommaOrArrayEnd => ",]"
    case CommaOrObjectEnd => ",}"
    case Colon => ":"
    case NoSymbol => ""
  }

  /** `symbol in expected_symbols`. */
  predicate Allows(e: SymbolSet, c: char)
  {
    match e
    case Value => IsValueStart(c)
    case ValueOrArrayEnd => IsValueStart(c) || c == ']'
    case Key => c == '"'
    case KeyOrObjectEnd => c == '"' || c == '}'
    case Comma => c == ','
    case CommaOrArrayEnd => c == ',' || c == ']'
    case CommaOrObjectEnd => c == ',' || c == '}'
    case Colon => c == ':'
    case NoSymbol => false
  }

  /** `Allows` is membership in the spelled-out string. */
  lemma AllowsIsMembership(e: SymbolSet, c: char)
    ensures Allows(e, c) <==> c in Spelling(e)
  {
    var digits := "0123456789";
    assert IsDigit(c) <==> c in digits by {
      if IsDigit(c) {
        assert c == digits[c as int - '0' as int];
      }
    }
    assert Spelling(Value) == "{[\"tfn" + digits;
    assert Spelling(ValueOrArrayEnd) == Spelling(Value) + "]";
  }

  /** What the array assembler expects next. */
  datatype ArrayState =
    | ElementOrEnd     // just after '['
    | ArrayCommaOrEnd  // just after an element
    | Element          // just after ','

  /** The symbols allowed in each array state. */
  function ArrayExpects(state: ArrayState): SymbolSet
  {
    match state
    case ElementOrEnd => ValueOrArrayEnd
    case ArrayCommaOrEnd => CommaOrArrayEnd
    case Element => Value
  }

  /** The array transition table: the state after an accepted symbol other than ']'. */
  function ArrayNext(state: ArrayState): ArrayState
  {
    match state
    case ElementOrEnd => ArrayCommaOrEnd
    case ArrayCommaOrEnd => Element
    case Element => ArrayCommaOrEnd
  }

  /** What the object assembler expects next. */
  datatype ObjectState =
    | KeyOrEnd          // just after '{'
    | AfterKey          // just after a key: a ':' must follow
    | MemberValue       // just after ':'
    | ObjectCommaOrEnd  // just after a member's value
    | NextKey           // just after ','

  /** The symbols allowed in each object state. */
  function ObjectExpects(state: ObjectState): SymbolSet
  {
    match state
    case KeyOrEnd => KeyOrObjectEnd
    case AfterKey => Colon
    case MemberValue => Value
    case ObjectCommaOrEnd => CommaOrObjectEnd
    case NextKey => Key
  }

  /** The object transition table: the state after an accepted symbol other than '}'. */
  function ObjectNext(state: ObjectState): ObjectState
  {
    match state
    case KeyOrEnd => AfterKey
    case AfterKey => MemberValue
    case MemberValue => ObjectCommaOrEnd
    case ObjectCommaOrEnd => NextKey
    case NextKey => AfterKey
  }

  /**
   * The array table closes only where a ']' may stand: never right after a
   * ',' (no trailing comma); ',' only after an element; ':' never.
   */
  lemma ArrayTable(state: ArrayState)
    ensures Allows(ArrayExpects(state), ']') == (state != Element)
    ensures Allows(ArrayExpects(state), ',') == (state == ArrayCommaOrEnd)
    ensures !Allows(ArrayExpects(state), ':')
  {
  }

  /**
   * The object table closes only where a '}' may stand: never right after
   * a ',' and never between a key and its value; a key must be a quoted string.
   */
  lemma ObjectTable(state: ObjectState)
    ensures Allows(ObjectExpects(state), '}') == (state == KeyOrEnd || state == ObjectCommaOrEnd)
    ensures Allows(ObjectExpects(state), ':') == (state == AfterKey)
    ensures Allows(ObjectExpects(state), ',') == (state == ObjectCommaOrEnd)
    ensures state == KeyOrEnd || state == NextKey ==> forall c :: Allows(ObjectExpects(state), c) ==> c == '"' || c == '}'
  {
  }
}
