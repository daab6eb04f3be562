/**
 * The parser itself: one object holding the text being read and a cursor
 * into it, and one method per handler. Every method is proved to compute
 * exactly what the matching reference function in Grammar describes.
 */
module Parser {

  import opened Outcomes
  import opened Symbols
  import opened JsonValues
  import opened Grammar

  class JsonParser {
    /** The text of the current parse. */
    var input: string
    /** The symbol stream is `input[pos..]`. */
    var pos: nat

    ghost predicate Valid()
      reads this
    {
      pos <= |input|
    }

    /** What the symbol stream still holds. */
    ghost function Remaining(): string
      reads this
      requires Valid()
    {
      input[pos..]
    }

    /** A parser that has not read anything yet: its stream is empty. */
    constructor ()
      ensures Valid() && input == [] && pos == 0
    {
      input, pos := [], 0;
    }

    /** `next(self.iterator, None)`: take the next symbol, or nothing at the end. */
    method Next() returns (r: Option<char>)
      requires Valid()
      modifies this`pos
      ensures Valid()
      ensures old(Remaining()) == [] ==> r == None && pos == old(pos)
      ensures old(Remaining()) != [] ==> r == Some(old(Remaining())[0]) && Remaining() == old(Remaining())[1..]
    {
      if pos == |input| {
        r := None;
      } else {
        r := Some(input[pos]);
        pos := pos + 1;
      }
    }

    /** push_back: give back the symbol just read; the next read yields it again. */
    method PushBack(symbol: char)
      requires Valid() && 0 < pos && input[pos - 1] == symbol
      modifies this`pos
      ensures Valid() && pos == old(pos) - 1
      ensures Remaining() == [symbol] + old(Remaining())
    {
      pos := pos - 1;
    }

    /** skip_whitespace: drop whitespace and accept the next symbol only if it is expected. */
    method SkipWhitespace(expected: SymbolSet) returns (r: Result<char, Fault>)
      requires Valid()
      modifies this`pos
      ensures Valid() && Scan(r, pos) == SkipWs(input, old(pos), expected)
    {
      while true
        invariant Valid() && old(pos) <= pos
        invariant SkipWs(input, pos, expected) == SkipWs(input, old(pos), expected)
        decreases |input| - pos
      {
        var symbol := Next();
        if symbol.None? {
          return Err(Exhausted);
        }
        if IsWhitespace(symbol.value) {
          continue;
        }
        if Allows(expected, symbol.value) {
          return Ok(symbol.value);
        }
        return Err(Unexpected(symbol.value));
      }
    }

    /** literal_handler: the rest of `true`, `false` or `null` after its first letter. */
    method LiteralHandler(first: char) returns (r: Result<Json, Fault>)
      requires Valid() && IsLiteralStart(first)
      modifies this`pos
      ensures Valid() && Scan(r, pos) == LiteralAt(input, old(pos), LiteralRest(first), LiteralValue(first))
    {
      var remaining, value := LiteralRest(first), LiteralValue(first);
      while remaining != []
        invariant Valid() && old(pos) <= pos
        invariant LiteralAt(input, pos, remaining, value) == LiteralAt(input, old(pos), LiteralRest(first), value)
        decreases |remaining|
      {
        var symbol := Next();
        if symbol.None? {
          return Err(Exhausted);
        }
        if symbol.value != remaining[0] {
          return Err(Unexpected(symbol.value));
        }
        remaining := remaining[1..];
      }
      return Ok(value);
    }

    /** string_handler: the symbols up to the next '"', which is consumed. */
    method StringHandler() returns (r: Result<string, Fault>)
      requires Valid()
      modifies this`pos
      ensures Valid() && Scan(r, pos) == StringAt(input, old(pos))
    {
      var letters := [];
      while true
        invariant Valid() && old(pos) <= pos
        invariant QuoteIndex(input, pos) == QuoteIndex(input, old(pos))
        invariant letters == input[old(pos)..pos]
        decreases |input| - pos
      {
        var symbol := Next();
        if symbol.None? {
          return Err(Exhausted);
        }
        if symbol.value == '"' {
          break;
        }
        letters := letters + [symbol.value];
      }
      return Ok(letters);
    }

    /** number_handler: the longest run of digits and '.', read as int or float. */
    method NumberHandler() returns (r: Result<Json, Fault>)
      requires Valid()
      modifies this`pos
      ensures Valid() && Scan(r, pos) == NumberAt(input, old(pos))
    {
      var digits := [];
      while true
        invariant Valid() && old(pos) <= pos
        invariant NumberEnd(input, pos) == NumberEnd(input, old(pos))
        invariant digits == input[old(pos)..pos]
        decreases |input| - pos
      {
        var symbol := Next();
        if symbol.None? {
          break;
        }
        if !IsNumberSymbol(symbol.value) {
          PushBack(symbol.value);
          break;
        }
        digits := digits + [symbol.value];
      }
      assert pos == NumberEnd(input, old(pos));
      r := NumberOf(digits);
    }

    /** value_handler: route on the first significant symbol. */
    method ValueHandler() returns (r: Result<Json, Fault>)
      requires Valid()
      modifies this`pos
      ensures Valid() && Scan(r, pos) == ValueAt(input, old(pos))
      decreases |input| - pos, 0
    {
      var symbol := SkipWhitespace(Value);
      if symbol.Err? {
        return Err(symbol.error);
      }
      var c := symbol.value;
      if c == '{' {
        r := ObjectHandler();
        return;
      }
      if c == '[' {
        r := ArrayHandler();
        return;
      }
      if c == '"' {
        var text := StringHandler();
        if text.Err? {
          return Err(text.error);
        }
        return Ok(Str(text.value));
      }
      if IsDigit(c) {
        PushBack(c);
        r := NumberHandler();
        return;
      }
      // every symbol that `Value` allows is covered, so this is the last case
      r := LiteralHandler(c);
    }

    /** array_handler: elements separated by ',' up to the closing ']'. */
    method ArrayHandler() returns (r: Result<Json, Fault>)
      requires Valid()
      modifies this`pos
      ensures Valid() && Scan(r, pos) == ArrayFrom(input, old(pos), ElementOrEnd, [])
      decreases |input| - pos, 1
    {
      hide ValueAt, ObjectFrom;
      var elements := [];
      var expecting := ElementOrEnd;
      while true
        invariant Valid() && old(pos) <= pos
        invariant ArrayFrom(input, pos, expecting, elements) == ArrayFrom(input, old(pos), ElementOrEnd, [])
        decreases |input| - pos
      {
        ghost var before := pos;
        var symbol := SkipWhitespace(ArrayExpects(expecting));
        if symbol.Err? {
          return Err(symbol.error);
        }
        if symbol.value == ']' {
          return Ok(Arr(elements));
        }
        if expecting == ElementOrEnd || expecting == Element {
          ArrayElementStep(input, before, expecting, elements);
          PushBack(symbol.value);
          var item := ValueHandler();
          if item.Err? {
            return Err(item.error);
          }
          assert ArrayFrom(input, before, expecting, elements) == ArrayFrom(input, pos, ArrayNext(expecting), elements + [item.value]);
          elements := elements + [item.value];
        } else {
          assert ArrayFrom(input, before, expecting, elements) == ArrayFrom(input, pos, ArrayNext(expecting), elements);
        }
        expecting := ArrayNext(expecting);
      }
    }

    /** object_handler: "key": value members separated by ',' up to the closing '}'. */
    method ObjectHandler() returns (r: Result<Json, Fault>)
      requires Valid()
      modifies this`pos
      ensures Valid() && Scan(r, pos) == ObjectFrom(input, old(pos), KeyOrEnd, [], [])
      decreases |input| - pos, 1
    {
      hide ValueAt, ArrayFrom;
      var obj := [];
      var expecting := KeyOrEnd;
      // Python starts with None; the key is always read before it is used
      var currentKey := [];
      while true
        invariant Valid() && old(pos) <= pos
        invariant ObjectFrom(input, pos, expecting, currentKey, obj) == ObjectFrom(input, old(pos), KeyOrEnd, [], [])
        decreases |input| - pos
      {
        ghost var before := pos;
        var symbol := SkipWhitespace(ObjectExpects(expecting));
        if symbol.Err? {
          return Err(symbol.error);
        }
        if symbol.value == '}' {
          return Ok(Obj(obj));
        }
        if expecting == NextKey || expecting == KeyOrEnd {
          var key := StringHandler();
          if key.Err? {
            return Err(key.error);
          }
          assert ObjectFrom(input, before, expecting, currentKey, obj) == ObjectFrom(input, pos, ObjectNext(expecting), key.value, obj);
          currentKey := key.value;
        } else if expecting == MemberValue {
          ObjectValueStep(input, before, currentKey, obj);
          PushBack(symbol.value);
          var item := ValueHandler();
          if item.Err? {
            return Err(item.error);
          }
          assert ObjectFrom(input, before, expecting, currentKey, obj)
              == ObjectFrom(input, pos, ObjectNext(expecting), currentKey, Assign(obj, currentKey, item.value));
          obj := Assign(obj, currentKey, item.value);
        } else {
          assert ObjectFrom(input, before, expecting, currentKey, obj) == ObjectFrom(input, pos, ObjectNext(expecting), currentKey, obj);
        }
        expecting := ObjectNext(expecting);
      }
    }

    /** parse: read one value from `text`, then allow nothing but whitespace. */
    method Parse(text: string) returns (r: Result<Json, ParseError>)
      modifies this
      ensures Valid() && input == text
      ensures r == Decode(text)
      ensures r.Ok? ==> pos == |input|
    {
      input, pos := text, 0;
      var value := ValueHandler();
      if value.Err? {
        match value.error
        case Exhausted => return Err(InvalidJSON);
        case Unexpected(c) => return Err(UnexpectedSymbol(c));
        case NotANumber(t) => return Err(ValueError(t));
      }
      var trailing := SkipWhitespace(NoSymbol);
      if trailing.Err? {
        match trailing.error
        case Exhausted => return Ok(value.value);
        case Unexpected(c) => return Err(UnexpectedSymbol(c));
        case NotANumber(t) => return Err(ValueError(t));
      }
      return Err(InvalidJSON);
    }
  }
}
