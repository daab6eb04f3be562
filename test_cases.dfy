/**
 * Inputs from the repository's test suite, and what parser.py as written
 * does with them: the rejections, the acceptances that are instances of the
 * round-trip theorem, and the spaced-out arrays and objects, which are
 * worked through token by token.
 */
module TestCases {

  import opened Outcomes
  import opened Symbols
  import opened JsonValues
  import opened Grammar
  import opened GrammarFacts
  import opened Rendering
  import opened TestTexts

  /** A one-digit number followed by a symbol that cannot continue it. */
  lemma SingleDigit(s: string, i: nat)
    requires i < |s| && IsDigit(s[i]) && (i + 1 == |s| || !IsNumberSymbol(s[i + 1]))
    ensures ValueAt(s, i) == Scan(Ok(Int(DigitValue(s[i]))), i + 1)
  {
    ValueAtNumber(s, i);
    NumberEndSpec(s, i, i + 1);
    assert s[i..i + 1] == [s[i]];
    assert DecimalValue([s[i]]) == DigitValue(s[i]) by {
      assert [s[i]][..0] == [];
    }
  }

  /** "-42": '-' cannot start a value, so it is raised as an unexpected symbol. */
  lemma NegativeNumber()
    ensures Decode("-42") == Err(UnexpectedSymbol('-'))
  {
    DecodeNotAValue("-42");
  }

  /** "Null", "True" and "False" are rejected at their first, upper-case letter. */
  lemma CapitalLiterals()
    ensures Decode("Null") == Err(UnexpectedSymbol('N'))
    ensures Decode("True") == Err(UnexpectedSymbol('T'))
    ensures Decode("False") == Err(UnexpectedSymbol('F'))
  {
    DecodeNotAValue("Null");
    DecodeNotAValue("True");
    DecodeNotAValue("False");
  }

  /** "" is InvalidJSON. */
  lemma EmptyText()
    ensures Decode("") == Err(InvalidJSON)
  {
    DecodeBlank("");
  }

  /** "0x42": the number 0 is read, and 'x' fails the trailing check. */
  lemma HexNumber()
    ensures Decode("0x42") == Err(UnexpectedSymbol('x'))
  {
  }

  /** A literal cut short is InvalidJSON; a misspelt one names the first wrong letter. */
  lemma BrokenLiterals()
    ensures Decode("n") == Err(InvalidJSON) && Decode("t") == Err(InvalidJSON) && Decode("fa") == Err(InvalidJSON)
    ensures Decode("none") == Err(UnexpectedSymbol('o'))
  {
  }

  /** A comma straight after '[' is rejected. */
  lemma LeadingComma()
    ensures Decode("[,1]") == Err(UnexpectedSymbol(','))
  {
    hide ValueAt, ArrayFrom, ObjectFrom;
    var s := "[,1]";
    ValueAtArray(s, 0);
    ArrayRejects(s, 1, ElementOrEnd, []);
  }

  /** A second closing brace after an object is rejected. */
  lemma ExtraBrace()
    ensures Decode("{}}") == Err(UnexpectedSymbol('}'))
  {
  }

  /** A key that is not a string is rejected. */
  lemma NumericKey()
    ensures Decode("{1:1}") == Err(UnexpectedSymbol('1'))
  {
    hide ValueAt, ArrayFrom, ObjectFrom;
    var s := "{1:1}";
    ValueAtObject(s, 0);
    ObjectRejects(s, 1, KeyOrEnd, [], []);
  }

  /** An object cut short after ':' is InvalidJSON. */
  lemma MissingValue()
    ensures Decode("{\"\":") == Err(InvalidJSON)
  {
    hide ValueAt, ArrayFrom, ObjectFrom;
    var s := "{\"\":";
    ValueAtObject(s, 0);
    StringAtQuote(s, 2, 2);
    ObjectKey(s, 1, KeyOrEnd, [], [], "", 3);
    ObjectColon(s, 3, "", []);
    ObjectRunsOut(s, 4, MemberValue, "", []);
  }

  /** "8" is read as 8. */
  lemma Eight()
    ensures Decode("8") == Ok(Int(8))
  {
    hide Decode, Finish, ValueAt, ArrayFrom, ObjectFrom;
    RoundTrip(Int(8), "", "");
    assert "" + Render(Int(8)) + "" == "8";
  }

  /** Text in quotes with no quote inside is read as that text. */
  lemma Quoted(t: string)
    requires '"' !in t
    ensures Decode("\"" + t + "\"") == Ok(Str(t))
  {
    hide Decode, Finish, ValueAt, ArrayFrom, ObjectFrom;
    assert NoQuote(t);
    RoundTrip(Str(t), "", "");
    assert "" + Render(Str(t)) + "" == "\"" + t + "\"";
  }

  /** Quoted text is read as the string between the quotes, comment-like text included. */
  lemma Strings()
    ensures Decode("\"qwerty\"") == Ok(Str("qwerty"))
    ensures Decode("\"\"") == Ok(Str(""))
    ensures Decode("\"a/*b*/c/*d//e\"") == Ok(Str("a/*b*/c/*d//e"))
  {
    hide Decode, Finish, ValueAt, ArrayFrom, ObjectFrom;
    Quoted("qwerty");
    assert "\"" + "qwerty" + "\"" == "\"qwerty\"";
    Quoted("");
    assert "\"" + "" + "\"" == "\"\"";
    Quoted("a/*b*/c/*d//e");
    assert "\"" + "a/*b*/c/*d//e" + "\"" == "\"a/*b*/c/*d//e\"";
  }

  /** "null", "true" and "false" are read as the three literals. */
  lemma Literals()
    ensures Decode("null") == Ok(Null)
    ensures Decode("true") == Ok(Bool(true))
    ensures Decode("false") == Ok(Bool(false))
  {
    hide Decode, Finish, ValueAt, ArrayFrom, ObjectFrom;
    RoundTrip(Null, "", "");
    assert "" + Render(Null) + "" == "null";
    RoundTrip(Bool(true), "", "");
    assert "" + Render(Bool(true)) + "" == "true";
    RoundTrip(Bool(false), "", "");
    assert "" + Render(Bool(false)) + "" == "false";
  }

  /** "[[[[]]]]" is read as four nested arrays. */
  lemma DeepArray()
    ensures Decode("[[[[]]]]") == Ok(Arr([Arr([Arr([Arr([])])])]))
  {
    hide Decode, Finish, ValueAt, ArrayFrom, ObjectFrom;
    var deep := Arr([Arr([Arr([Arr([])])])]);
    assert WellFormed(deep);
    RoundTrip(deep, "", "");
    assert "" + Render(deep) + "" == "[[[[]]]]";
  }

  /** "[[],[[]]]" is read as nested arrays. */
  lemma NestedArrays()
    ensures Decode("[[],[[]]]") == Ok(Arr([Arr([]), Arr([Arr([])])]))
  {
    hide Decode, Finish, ValueAt, ArrayFrom, ObjectFrom;
    var nested := Arr([Arr([]), Arr([Arr([])])]);
    assert WellFormed(nested);
    RoundTrip(nested, "", "");
    assert "" + Render(nested) + "" == "[[],[[]]]";
  }

  /** "{\"\":0}" is read as an object with the empty key. */
  lemma EmptyKey()
    ensures Decode("{\"\":0}") == Ok(Obj([("", Int(0))]))
  {
    hide Decode, Finish, ValueAt, ArrayFrom, ObjectFrom;
    var single := Obj([("", Int(0))]);
    assert WellFormed(single);
    RoundTrip(single, "", "");
    assert "" + Render(single) + "" == "{\"\":0}";
  }

  /** A lone ']' cannot start a value. */
  lemma LoneBracket()
    ensures Decode("]") == Err(UnexpectedSymbol(']'))
  {
    DecodeNotAValue("]");
  }

  /** A second ']' after a complete array fails the trailing check. */
  lemma ExtraBracket()
    ensures Decode("[[]]]") == Err(UnexpectedSymbol(']'))
  {
    hide ValueAt, ArrayFrom, ObjectFrom;
    var s := "[[]]]";
    var none: seq<Json> := [];
    ValueAtArray(s, 0);
    ValueAtArray(s, 1);
    ArrayEnds(s, 2, ElementOrEnd, none);
    ArrayElement(s, 1, ElementOrEnd, none, Arr(none), 3);
    assert none + [Arr(none)] == [Arr([])];
    ArrayEnds(s, 3, ArrayCommaOrEnd, [Arr([])]);
    SkipWsAtSymbol(s, 4, NoSymbol);
  }

  /** A ':' inside an array is rejected. */
  lemma ColonInArray()
    ensures Decode("[\" \": 1]") == Err(UnexpectedSymbol(':'))
  {
    hide ValueAt, ArrayFrom, ObjectFrom;
    var s := "[\" \": 1]";
    ValueAtArray(s, 0);
    StringAtQuote(s, 2, 3);
    assert s[2..3] == " ";
    ValueAtString(s, 1);
    var none: seq<Json> := [];
    ArrayElement(s, 1, ElementOrEnd, none, Str(" "), 4);
    assert none + [Str(" ")] == [Str(" ")];
    ArrayRejects(s, 4, ArrayCommaOrEnd, [Str(" ")]);
  }

  /** An array without its ']' runs out of input. */
  lemma UnclosedArray()
    ensures Decode("[1,\n1\n,1") == Err(InvalidJSON)
  {
    hide ValueAt, ArrayFrom, ObjectFrom;
    var s := "[1,\n1\n,1";
    ValueAtArray(s, 0);
    SingleDigit(s, 1);
    var none: seq<Json> := [];
    ArrayElement(s, 1, ElementOrEnd, none, Int(1), 2);
    assert none + [Int(1)] == [Int(1)];
    ArrayComma(s, 2, [Int(1)]);
    ArrayAfterWhitespace(s, 3, 4, Element, [Int(1)]);
    SingleDigit(s, 4);
    ArrayElement(s, 4, Element, [Int(1)], Int(1), 5);
    assert [Int(1)] + [Int(1)] == [Int(1), Int(1)];
    ArrayAfterWhitespace(s, 5, 6, ArrayCommaOrEnd, [Int(1), Int(1)]);
    ArrayComma(s, 6, [Int(1), Int(1)]);
    SingleDigit(s, 7);
    ArrayElement(s, 7, Element, [Int(1), Int(1)], Int(1), 8);
    assert [Int(1), Int(1)] + [Int(1)] == [Int(1), Int(1), Int(1)];
    ArrayRunsOut(s, 8, ArrayCommaOrEnd, [Int(1), Int(1), Int(1)]);
  }

  /** An object without a key before ':' is rejected. */
  lemma MissingKey()
    ensures Decode("{:\"b\"}") == Err(UnexpectedSymbol(':'))
  {
    hide ValueAt, ArrayFrom, ObjectFrom;
    var s := "{:\"b\"}";
    ValueAtObject(s, 0);
    ObjectRejects(s, 1, KeyOrEnd, [], []);
  }

  /** An unquoted key is rejected. */
  lemma BareKey()
    ensures Decode("{key: 'value'}") == Err(UnexpectedSymbol('k'))
  {
    hide ValueAt, ArrayFrom, ObjectFrom;
    var s := "{key: 'value'}";
    ValueAtObject(s, 0);
    ObjectRejects(s, 1, KeyOrEnd, [], []);
  }

  /** A doubled ':' is rejected. */
  lemma DoubleColon()
    ensures Decode("{\"x\"::\"b\"}") == Err(UnexpectedSymbol(':'))
  {
    hide ValueAt, ArrayFrom, ObjectFrom;
    var s := "{\"x\"::\"b\"}";
    ValueAtObject(s, 0);
    StringAtQuote(s, 2, 3);
    assert s[2..3] == "x";
    ObjectKey(s, 1, KeyOrEnd, [], [], "x", 4);
    ObjectColon(s, 4, "x", []);
    ObjectRejects(s, 5, MemberValue, "x", []);
  }

  /** A ',' before '}' is rejected. */
  lemma TrailingComma()
    ensures Decode("{\"id\":0,}") == Err(UnexpectedSymbol('}'))
  {
    hide ValueAt, ArrayFrom, ObjectFrom;
    var s := "{\"id\":0,}";
    ValueAtObject(s, 0);
    StringAtQuote(s, 2, 4);
    assert s[2..4] == "id";
    ObjectKey(s, 1, KeyOrEnd, [], [], "id", 5);
    ObjectColon(s, 5, "id", []);
    SingleDigit(s, 6);
    ObjectMemberValue(s, 6, "id", [], Int(0), 7);
    ObjectComma(s, 7, "id", [("id", Int(0))]);
    ObjectRejects(s, 8, NextKey, "id", [("id", Int(0))]);
  }

  /** Repeated commas are rejected at the second one. */
  lemma RepeatedCommas()
    ensures Decode("{\"id\":0,,,,,}") == Err(UnexpectedSymbol(','))
  {
    hide ValueAt, ArrayFrom, ObjectFrom;
    var s := "{\"id\":0,,,,,}";
    ValueAtObject(s, 0);
    StringAtQuote(s, 2, 4);
    assert s[2..4] == "id";
    ObjectKey(s, 1, KeyOrEnd, [], [], "id", 5);
    ObjectColon(s, 5, "id", []);
    SingleDigit(s, 6);
    ObjectMemberValue(s, 6, "id", [], Int(0), 7);
    ObjectComma(s, 7, "id", [("id", Int(0))]);
    ObjectRejects(s, 8, NextKey, "id", [("id", Int(0))]);
  }

  /** A comment after the value fails the trailing check. */
  lemma TrailingComment()
    ensures Decode("{\"a\":\"b\"}/**/") == Err(UnexpectedSymbol('/'))
  {
    hide ValueAt, ArrayFrom, ObjectFrom;
    var s := "{\"a\":\"b\"}/**/";
    ValueAtObject(s, 0);
    StringAtQuote(s, 2, 3);
    assert s[2..3] == "a";
    ObjectKey(s, 1, KeyOrEnd, [], [], "a", 4);
    ObjectColon(s, 4, "a", []);
    StringAtQuote(s, 6, 7);
    assert s[6..7] == "b";
    ValueAtString(s, 5);
    ObjectMemberValue(s, 5, "a", [], Str("b"), 8);
    ObjectEnds(s, 8, ObjectCommaOrEnd, "a", [("a", Str("b"))]);
    SkipWsAtSymbol(s, 9, NoSymbol);
  }

  /** A comment in front of a value is rejected. */
  lemma CommentBeforeValue()
    ensures Decode("{\"a\":/*comment*/\"b\"}") == Err(UnexpectedSymbol('/'))
  {
    hide ValueAt, ArrayFrom, ObjectFrom;
    var s := "{\"a\":/*comment*/\"b\"}";
    ValueAtObject(s, 0);
    StringAtQuote(s, 2, 3);
    assert s[2..3] == "a";
    ObjectKey(s, 1, KeyOrEnd, [], [], "a", 4);
    ObjectColon(s, 4, "a", []);
    ObjectRejects(s, 5, MemberValue, "a", []);
  }

  /** object_handler reads `"name": value` where a key may come, and stores the value under the name. */
  lemma Member(s: string, i: nat, state: ObjectState, key: string, acc: seq<(string, Json)>, name: string, value: Json, end: nat)
    requires state == KeyOrEnd || state == NextKey
    requires i + |name| + 3 < |s| && s[i] == '"' && s[i + |name| + 1] == '"' && s[i + |name| + 2] == ':'
    requires s[i + 1..i + |name| + 1] == name && '"' !in name
    requires IsValueStart(s[i + |name| + 3]) && ValueAt(s, i + |name| + 3) == Scan(Ok(value), end)
    ensures ObjectFrom(s, i, state, key, acc) == ObjectFrom(s, end, ObjectCommaOrEnd, name, Assign(acc, name, value))
  {
    hide ValueAt, ArrayFrom, ObjectFrom;
    var j := i + |name| + 1;
    assert forall k :: i + 1 <= k < j ==> s[k] == name[k - i - 1];
    StringAtQuote(s, i + 1, j);
    ObjectKey(s, i, state, key, acc, name, j + 1);
    ObjectColon(s, j + 1, name, acc);
    ObjectMemberValue(s, j + 2, name, acc, value, end);
  }

  /** The text of the repeated-key case. */
  const repeated := "{\"a\":\"b\",\"a\":\"b\"}"

  /** The first `"a":"b"` of the repeated-key case stores "b" under "a". */
  lemma RepeatedKeyFirst()
    ensures ObjectFrom(repeated, 1, KeyOrEnd, [], []) == ObjectFrom(repeated, 8, ObjectCommaOrEnd, "a", [("a", Str("b"))])
  {
    hide ValueAt, ArrayFrom, ObjectFrom;
    var s := repeated;
    var none: seq<(string, Json)> := [];
    StringAtQuote(s, 6, 7);
    assert s[6..7] == "b";
    ValueAtString(s, 5);
    assert s[2..3] == "a";
    Member(s, 1, KeyOrEnd, [], none, "a", Str("b"), 8);
  }

  /** The second `"a":"b"` of the repeated-key case overwrites the first, and '}' ends the object. */
  lemma RepeatedKeySecond()
    ensures ObjectFrom(repeated, 8, ObjectCommaOrEnd, "a", [("a", Str("b"))]) == Scan(Ok(Obj([("a", Str("b"))])), 17)
  {
    hide ValueAt, ArrayFrom, ObjectFrom;
    var s := repeated;
    var once := [("a", Str("b"))];
    ObjectComma(s, 8, "a", once);
    StringAtQuote(s, 14, 15);
    assert s[14..15] == "b";
    ValueAtString(s, 13);
    assert s[10..11] == "a";
    Member(s, 9, NextKey, "a", once, "a", Str("b"), 16);
    assert Assign(once, "a", Str("b")) == once;
    ObjectEnds(s, 16, ObjectCommaOrEnd, "a", once);
  }

  /** A repeated key leaves one member, holding the value stored last. */
  lemma RepeatedKey()
    ensures Decode("{\"a\":\"b\",\"a\":\"b\"}") == Ok(Obj([("a", Str("b"))]))
  {
    hide ValueAt, ArrayFrom, ObjectFrom;
    ValueAtObject(repeated, 0);
    RepeatedKeyFirst();
    RepeatedKeySecond();
  }

  /** A word that is no literal is rejected at its first letter: 's' cannot start a value. */
  lemma NotALiteral()
    ensures Decode("something") == Err(UnexpectedSymbol('s'))
  {
    DecodeNotAValue("something");
  }

  /** A quoted string from the quote at `i` to the next quote at `j`. */
  lemma StringValue(s: string, i: nat, j: nat)
    requires i < j < |s| && s[i] == '"' && s[j] == '"' && forall k :: i < k < j ==> s[k] != '"'
    ensures ValueAt(s, i) == Scan(Ok(Str(s[i + 1..j])), j + 1)
  {
    hide ValueAt, ArrayFrom, ObjectFrom;
    StringAtQuote(s, i + 1, j);
    ValueAtString(s, i);
  }

  /** A literal spelt out in full from `i`. */
  lemma LiteralValueAt(s: string, i: nat)
    requires i < |s| && IsLiteralStart(s[i])
    requires i + 1 + |LiteralRest(s[i])| <= |s| && s[i + 1..i + 1 + |LiteralRest(s[i])|] == LiteralRest(s[i])
    ensures ValueAt(s, i) == Scan(Ok(LiteralValue(s[i])), i + 1 + |LiteralRest(s[i])|)
  {
    hide ValueAt, ArrayFrom, ObjectFrom;
    ValueAtLiteral(s, i);
    LiteralAtSucceeds(s, i + 1, LiteralRest(s[i]), LiteralValue(s[i]));
  }

  /** Whitespace from `i` to `j`, then an element where one may come. */
  lemma SpacedElement(s: string, i: nat, j: nat, state: ArrayState, acc: seq<Json>, value: Json, end: nat)
    requires i <= j < |s| && AllWhitespace(s, i, j) && IsValueStart(s[j]) && (state == ElementOrEnd || state == Element)
    requires ValueAt(s, j) == Scan(Ok(value), end)
    ensures ArrayFrom(s, i, state, acc) == ArrayFrom(s, end, ArrayCommaOrEnd, acc + [value])
  {
    hide ValueAt, ArrayFrom, ObjectFrom;
    ArrayAfterWhitespace(s, i, j, state, acc);
    ArrayElement(s, j, state, acc, value, end);
  }

  /**
   * Whitespace from `i`, a key quoted from `q` to `r`, ':' right after it,
   * whitespace, and the value at `v`: the value is stored under the key.
   */
  lemma SpacedMember(s: string, i: nat, state: ObjectState, key: string, acc: seq<(string, Json)>,
                     q: nat, r: nat, v: nat, value: Json, end: nat)
    requires state == KeyOrEnd || state == NextKey
    requires i <= q < r && r + 1 < v < |s| && AllWhitespace(s, i, q) && AllWhitespace(s, r + 2, v)
    requires s[q] == '"' && s[r] == '"' && (forall k :: q < k < r ==> s[k] != '"') && s[r + 1] == ':'
    requires IsValueStart(s[v]) && ValueAt(s, v) == Scan(Ok(value), end)
    ensures ObjectFrom(s, i, state, key, acc) == ObjectFrom(s, end, ObjectCommaOrEnd, s[q + 1..r], Assign(acc, s[q + 1..r], value))
  {
    hide ValueAt, ArrayFrom, ObjectFrom;
    var name := s[q + 1..r];
    ObjectAfterWhitespace(s, i, q, state, key, acc);
    StringAtQuote(s, q + 1, r);
    ObjectKey(s, q, state, key, acc, name, r + 1);
    ObjectColon(s, r + 1, name, acc);
    ObjectAfterWhitespace(s, r + 2, v, MemberValue, name, acc);
    ObjectMemberValue(s, v, name, acc, value, end);
  }

  /** The first string of `spacedList`. */
  lemma SpacedListFirst()
    ensures ArrayFrom(spacedList, 1, ElementOrEnd, []) == ArrayFrom(spacedList, 9, ArrayCommaOrEnd, [Str("qwerty")])
  {
    hide ValueAt, ArrayFrom, ObjectFrom, spacedList;
    SpacedListChars();
    var s := spacedList;
    var none: seq<Json> := [];
    StringValue(s, 1, 8);
    assert s[2..8] == "qwerty";
    SpacedElement(s, 1, 1, ElementOrEnd, none, Str("qwerty"), 9);
    assert none + [Str("qwerty")] == [Str("qwerty")];
  }

  /** The second string of `spacedList`. */
  lemma SpacedListSecond()
    ensures ArrayFrom(spacedList, 9, ArrayCommaOrEnd, [Str("qwerty")]) == ArrayFrom(spacedList, 16, ArrayCommaOrEnd, [Str("qwerty"), Str("asd")])
  {
    hide ValueAt, ArrayFrom, ObjectFrom, spacedList;
    SpacedListChars();
    var s := spacedList;
    ArrayComma(s, 9, [Str("qwerty")]);
    StringValue(s, 11, 15);
    assert s[12..15] == "asd";
    SpacedElement(s, 10, 11, Element, [Str("qwerty")], Str("asd"), 16);
    assert [Str("qwerty")] + [Str("asd")] == [Str("qwerty"), Str("asd")];
  }

  /** Spaces between the elements of an array are skipped: test.py:42. */
  lemma SpacedList()
    ensures Decode(spacedList) == Ok(Arr([Str("qwerty"), Str("asd"), Int(0)]))
  {
    hide ValueAt, ArrayFrom, ObjectFrom, spacedList;
    SpacedListChars();
    var s := spacedList;
    var two := [Str("qwerty"), Str("asd")];
    ValueAtArray(s, 0);
    SpacedListFirst();
    SpacedListSecond();
    ArrayComma(s, 16, two);
    SingleDigit(s, 18);
    SpacedElement(s, 17, 18, Element, two, Int(0), 19);
    assert two + [Int(0)] == [Str("qwerty"), Str("asd"), Int(0)];
    ArrayEnds(s, 19, ArrayCommaOrEnd, two + [Int(0)]);
  }

  /** The string and the number that open `mixedList`. */
  lemma MixedListStart()
    ensures ArrayFrom(mixedList, 1, ElementOrEnd, []) == ArrayFrom(mixedList, 9, ArrayCommaOrEnd, [Str("foo"), Int(1)])
  {
    hide ValueAt, ArrayFrom, ObjectFrom, mixedList;
    MixedListChars();
    var s := mixedList;
    var none: seq<Json> := [];
    StringValue(s, 1, 5);
    assert s[2..5] == "foo";
    SpacedElement(s, 1, 1, ElementOrEnd, none, Str("foo"), 6);
    assert none + [Str("foo")] == [Str("foo")];
    ArrayComma(s, 6, [Str("foo")]);
    SingleDigit(s, 8);
    SpacedElement(s, 7, 8, Element, [Str("foo")], Int(1), 9);
    assert [Str("foo")] + [Int(1)] == [Str("foo"), Int(1)];
  }

  /** The three literals of `mixedList`. */
  lemma MixedListLiterals()
    ensures ArrayFrom(mixedList, 9, ArrayCommaOrEnd, [Str("foo"), Int(1)])
         == ArrayFrom(mixedList, 28, ArrayCommaOrEnd, [Str("foo"), Int(1), Bool(true), Bool(false), Null])
  {
    hide ValueAt, ArrayFrom, ObjectFrom, mixedList;
    MixedListChars();
    var s := mixedList;
    var two := [Str("foo"), Int(1)];
    ArrayComma(s, 9, two);
    assert s[12..15] == "rue";
    LiteralValueAt(s, 11);
    SpacedElement(s, 10, 11, Element, two, Bool(true), 15);
    ArrayComma(s, 15, two + [Bool(true)]);
    assert s[18..22] == "alse";
    LiteralValueAt(s, 17);
    SpacedElement(s, 16, 17, Element, two + [Bool(true)], Bool(false), 22);
    ArrayComma(s, 22, two + [Bool(true)] + [Bool(false)]);
    assert s[25..28] == "ull";
    LiteralValueAt(s, 24);
    SpacedElement(s, 23, 24, Element, two + [Bool(true)] + [Bool(false)], Null, 28);
    assert two + [Bool(true)] + [Bool(false)] + [Null] == [Str("foo"), Int(1), Bool(true), Bool(false), Null];
  }

  /** The object that closes `mixedList`. */
  lemma MixedListObject()
    ensures ValueAt(mixedList, 30) == Scan(Ok(Obj([("bar", Int(0))])), 40)
  {
    hide ValueAt, ArrayFrom, ObjectFrom, mixedList;
    MixedListChars();
    var s := mixedList;
    var noMembers: seq<(string, Json)> := [];
    ValueAtObject(s, 30);
    SingleDigit(s, 38);
    SpacedMember(s, 31, KeyOrEnd, [], noMembers, 31, 35, 38, Int(0), 39);
    assert s[32..35] == "bar";
    assert Assign(noMembers, "bar", Int(0)) == [("bar", Int(0))];
    ObjectEnds(s, 39, ObjectCommaOrEnd, "bar", [("bar", Int(0))]);
  }

  /** `mixedList` read from its first character. */
  lemma MixedListRead()
    ensures ValueAt(mixedList, 0) == Scan(Ok(Arr([Str("foo"), Int(1), Bool(true), Bool(false), Null, Obj([("bar", Int(0))])])), 41)
  {
    hide ValueAt, ArrayFrom, ObjectFrom, mixedList;
    MixedListChars();
    var s := mixedList;
    var five := [Str("foo"), Int(1), Bool(true), Bool(false), Null];
    ValueAtArray(s, 0);
    MixedListStart();
    MixedListLiterals();
    ArrayComma(s, 28, five);
    MixedListObject();
    SpacedElement(s, 29, 30, Element, five, Obj([("bar", Int(0))]), 40);
    assert five + [Obj([("bar", Int(0))])] == [Str("foo"), Int(1), Bool(true), Bool(false), Null, Obj([("bar", Int(0))])];
    ArrayEnds(s, 40, ArrayCommaOrEnd, five + [Obj([("bar", Int(0))])]);
  }

  /** An array of every kind of value, spaced out: test.py:44. */
  lemma MixedList()
    ensures Decode(mixedList)
         == Ok(Arr([Str("foo"), Int(1), Bool(true), Bool(false), Null, Obj([("bar", Int(0))])]))
  {
    hide ValueAt, ArrayFrom, ObjectFrom;
    MixedListRead();
  }

  /** The member `"qwerty": "asd", ` that opens the objects of test.py:64 and test.py:68. */
  lemma QwertyMember(s: string)
    requires 18 <= |s| && s[..18] == "{\"qwerty\": \"asd\", "
    ensures ObjectFrom(s, 1, KeyOrEnd, [], []) == ObjectFrom(s, 18, NextKey, "qwerty", [("qwerty", Str("asd"))])
  {
    hide ValueAt, ArrayFrom, ObjectFrom;
    var noMembers: seq<(string, Json)> := [];
    assert forall k :: 0 <= k < 18 ==> s[k] == s[..18][k];
    StringValue(s, 11, 15);
    assert s[12..15] == "asd";
    SpacedMember(s, 1, KeyOrEnd, [], noMembers, 1, 8, 11, Str("asd"), 16);
    assert s[2..8] == "qwerty";
    assert Assign(noMembers, "qwerty", Str("asd")) == [("qwerty", Str("asd"))];
    ObjectComma(s, 16, "qwerty", [("qwerty", Str("asd"))]);
    ObjectAfterWhitespace(s, 17, 18, NextKey, "qwerty", [("qwerty", Str("asd"))]);
  }

  /** The array stored under "foo" in `listMember`. */
  lemma ListMemberArray()
    ensures ValueAt(listMember, 25) == Scan(Ok(Arr([Str("bar1"), Str("bar2")])), 41)
  {
    hide ValueAt, ArrayFrom, ObjectFrom, listMember;
    ListMemberChars();
    var s := listMember;
    var none: seq<Json> := [];
    ValueAtArray(s, 25);
    StringValue(s, 26, 31);
    assert s[27..31] == "bar1";
    SpacedElement(s, 26, 26, ElementOrEnd, none, Str("bar1"), 32);
    assert none + [Str("bar1")] == [Str("bar1")];
    ArrayComma(s, 32, [Str("bar1")]);
    StringValue(s, 34, 39);
    assert s[35..39] == "bar2";
    SpacedElement(s, 33, 34, Element, [Str("bar1")], Str("bar2"), 40);
    assert [Str("bar1")] + [Str("bar2")] == [Str("bar1"), Str("bar2")];
    ArrayEnds(s, 40, ArrayCommaOrEnd, [Str("bar1"), Str("bar2")]);
  }

  /** `listMember` read from its first character. */
  lemma ListMemberRead()
    ensures ValueAt(listMember, 0) == Scan(Ok(Obj([("qwerty", Str("asd")), ("foo", Arr([Str("bar1"), Str("bar2")]))])), 42)
  {
    hide ValueAt, ArrayFrom, ObjectFrom, listMember;
    ListMemberChars();
    var s := listMember;
    var first := [("qwerty", Str("asd"))];
    var list := Arr([Str("bar1"), Str("bar2")]);
    ValueAtObject(s, 0);
    QwertyMember(s);
    ListMemberArray();
    SpacedMember(s, 18, NextKey, "qwerty", first, 18, 22, 25, list, 41);
    assert s[19..22] == "foo";
    assert Assign(first, "foo", list) == [("qwerty", Str("asd")), ("foo", list)];
    ObjectEnds(s, 41, ObjectCommaOrEnd, "foo", [("qwerty", Str("asd")), ("foo", list)]);
  }

  /** An object holding a string and an array, spaced out: test.py:64. */
  lemma ListMember()
    ensures Decode(listMember)
         == Ok(Obj([("qwerty", Str("asd")), ("foo", Arr([Str("bar1"), Str("bar2")]))]))
  {
    hide ValueAt, ArrayFrom, ObjectFrom;
    ListMemberRead();
  }

  /** The object stored under "foo" in `objectMember`. */
  lemma NestedObjectValue()
    ensures ValueAt(objectMember, 25) == Scan(Ok(Obj([("bar", Str("baz"))])), 39)
  {
    hide ValueAt, ArrayFrom, ObjectFrom, objectMember;
    ObjectMemberChars();
    var s := objectMember;
    var noMembers: seq<(string, Json)> := [];
    ValueAtObject(s, 25);
    StringValue(s, 33, 37);
    assert s[34..37] == "baz";
    SpacedMember(s, 26, KeyOrEnd, [], noMembers, 26, 30, 33, Str("baz"), 38);
    assert s[27..30] == "bar";
    assert Assign(noMembers, "bar", Str("baz")) == [("bar", Str("baz"))];
    ObjectEnds(s, 38, ObjectCommaOrEnd, "bar", [("bar", Str("baz"))]);
  }

  /** `objectMember` read from its first character. */
  lemma ObjectMemberRead()
    ensures ValueAt(objectMember, 0) == Scan(Ok(Obj([("qwerty", Str("asd")), ("foo", Obj([("bar", Str("baz"))]))])), 40)
  {
    hide ValueAt, ArrayFrom, ObjectFrom, objectMember;
    ObjectMemberChars();
    var s := objectMember;
    var first := [("qwerty", Str("asd"))];
    var inner := Obj([("bar", Str("baz"))]);
    ValueAtObject(s, 0);
    QwertyMember(s);
    NestedObjectValue();
    SpacedMember(s, 18, NextKey, "qwerty", first, 18, 22, 25, inner, 39);
    assert s[19..22] == "foo";
    assert Assign(first, "foo", inner) == [("qwerty", Str("asd")), ("foo", inner)];
    ObjectEnds(s, 39, ObjectCommaOrEnd, "foo", [("qwerty", Str("asd")), ("foo", inner)]);
  }

  /** An object holding a string and an object, spaced out: test.py:68. */
  lemma ObjectMember()
    ensures Decode(objectMember)
         == Ok(Obj([("qwerty", Str("asd")), ("foo", Obj([("bar", Str("baz"))]))]))
  {
    hide ValueAt, ArrayFrom, ObjectFrom;
    ObjectMemberRead();
  }

  /** `pytest.raises(InvalidJSON)` around `parse(text)`: the error raised is an InvalidJSON. */
  predicate RaisesInvalidJSON(text: string)
  {
    Decode(text).Err? && IsInvalidJSON(Decode(text).error)
  }

  /**
   * Every input test.py expects to raise InvalidJSON does so: the error is
   * InvalidJSON itself or its subclass UnexpectedSymbol, never a ValueError
   * from a number.
   */
  lemma InvalidJSONCases()
    ensures RaisesInvalidJSON("0x42") && RaisesInvalidJSON("")
    ensures RaisesInvalidJSON("]") && RaisesInvalidJSON("[[]]]") && RaisesInvalidJSON("[,1]")
    ensures RaisesInvalidJSON("[\" \": 1]") && RaisesInvalidJSON("[1,\n1\n,1")
    ensures RaisesInvalidJSON("{1:1}") && RaisesInvalidJSON("{:\"b\"}") && RaisesInvalidJSON("{key: 'value'}")
    ensures RaisesInvalidJSON("{\"x\"::\"b\"}") && RaisesInvalidJSON("{\"id\":0,}") && RaisesInvalidJSON("{\"id\":0,,,,,}")
    ensures RaisesInvalidJSON("{\"\":") && RaisesInvalidJSON("{}}")
    ensures RaisesInvalidJSON("{\"a\":\"b\"}/**/") && RaisesInvalidJSON("{\"a\":/*comment*/\"b\"}")
    ensures RaisesInvalidJSON("n") && RaisesInvalidJSON("none") && RaisesInvalidJSON("t") && RaisesInvalidJSON("fa")
    ensures RaisesInvalidJSON("Null") && RaisesInvalidJSON("True") && RaisesInvalidJSON("False")
    ensures RaisesInvalidJSON("something")
  {
    hide Decode;
    HexNumber();
    EmptyText();
    LoneBracket();
    ExtraBracket();
    LeadingComma();
    ColonInArray();
    UnclosedArray();
    NumericKey();
    MissingKey();
    BareKey();
    DoubleColon();
    TrailingComma();
    RepeatedCommas();
    MissingValue();
    ExtraBrace();
    TrailingComment();
    CommentBeforeValue();
    BrokenLiterals();
    CapitalLiterals();
    NotALiteral();
  }
}
