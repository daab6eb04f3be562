/**
 * What each reference function of Grammar means, stated without its
 * recursion: where a scan stops, which symbol a fault names, and how
 * `parse` turns the handlers' faults into its errors.
 */
module GrammarFacts {

  import opened Outcomes
  import opened Symbols
  import opened JsonValues
  import opened Grammar

  /** Every symbol of `s[i..j]` is whitespace. */
  predicate AllWhitespace(s: string, i: nat, j: nat)
    requires i <= j <= |s|
  {
    forall k :: i <= k < j ==> IsWhitespace(s[k])
  }

  /** The whitespace run from `i` ends at `j` exactly when `s[i..j]` is whitespace and `s[j]` is not. */
  lemma {:induction false} WhitespaceEndSpec(s: string, i: nat, j: nat)
    requires i <= j <= |s|
    ensures WhitespaceEnd(s, i) == j <==> AllWhitespace(s, i, j) && (j == |s| || !IsWhitespace(s[j]))
    decreases |s| - i
  {
    if i < j && IsWhitespace(s[i]) {
      WhitespaceEndSpec(s, i + 1, j);
    }
  }

  /** The number run from `i` ends at `j` exactly when `s[i..j]` is digits and '.' and `s[j]` is neither. */
  lemma {:induction false} NumberEndSpec(s: string, i: nat, j: nat)
    requires i <= j <= |s|
    ensures NumberEnd(s, i) == j <==>
      (forall k :: i <= k < j ==> IsNumberSymbol(s[k])) && (j == |s| || !IsNumberSymbol(s[j]))
    decreases |s| - i
  {
    if i < j && IsNumberSymbol(s[i]) {
      NumberEndSpec(s, i + 1, j);
    }
  }

  /** `QuoteIndex(s, i)` is the first '"' at or after `i`, or `|s|` when there is none. */
  lemma {:induction false} QuoteIndexSpec(s: string, i: nat, j: nat)
    requires i <= j <= |s|
    ensures QuoteIndex(s, i) == j <==> (forall k :: i <= k < j ==> s[k] != '"') && (j == |s| || s[j] == '"')
    decreases |s| - i
  {
    if i < j && s[i] != '"' {
      QuoteIndexSpec(s, i + 1, j);
    }
  }

  /**
   * skip_whitespace runs out exactly when only whitespace is left; otherwise
   * it consumes the first other symbol and returns it if it is expected and
   * raises UnexpectedSymbol for it if not.
   */
  lemma SkipWsSpec(s: string, i: nat, expected: SymbolSet)
    requires i <= |s|
    ensures SkipWs(s, i, expected).outcome == Err(Exhausted) <==> AllWhitespace(s, i, |s|)
    ensures SkipWs(s, i, expected).outcome == Err(Exhausted) ==> SkipWs(s, i, expected).pos == |s|
    ensures var r := SkipWs(s, i, expected);
      r.outcome != Err(Exhausted) ==>
        i < r.pos && AllWhitespace(s, i, r.pos - 1) && !IsWhitespace(s[r.pos - 1]) &&
        r.outcome == if Allows(expected, s[r.pos - 1]) then Ok(s[r.pos - 1]) else Err(Unexpected(s[r.pos - 1]))
  {
    var k := WhitespaceEnd(s, i);
    WhitespaceEndSpec(s, i, k);
    WhitespaceEndSpec(s, i, |s|);
  }

  /** Whitespace in front of a symbol makes no difference to skip_whitespace. */
  lemma {:induction false} SkipWsAfterWhitespace(s: string, i: nat, j: nat, expected: SymbolSet)
    requires i <= j <= |s| && AllWhitespace(s, i, j)
    ensures SkipWs(s, i, expected) == SkipWs(s, j, expected)
    decreases j - i
  {
    if i < j {
      SkipWsAfterWhitespace(s, i + 1, j, expected);
    }
  }

  /** Whitespace in front of a value makes no difference to value_handler. */
  lemma ValueAtAfterWhitespace(s: string, i: nat, j: nat)
    requires i <= j <= |s| && AllWhitespace(s, i, j)
    ensures ValueAt(s, i) == ValueAt(s, j)
  {
    SkipWsAfterWhitespace(s, i, j, Value);
  }

  /**
   * literal_handler succeeds exactly when the input continues with the rest
   * of the literal, and then stops right after it.
   */
  lemma {:induction false} LiteralAtSucceeds(s: string, i: nat, remaining: string, value: Json)
    requires i <= |s|
    ensures LiteralAt(s, i, remaining, value).outcome.Ok? <==> i + |remaining| <= |s| && s[i..i + |remaining|] == remaining
    ensures LiteralAt(s, i, remaining, value).outcome.Ok? ==> LiteralAt(s, i, remaining, value) == Scan(Ok(value), i + |remaining|)
    decreases |remaining|
  {
    if remaining != [] && i < |s| {
      LiteralAtSucceeds(s, i + 1, remaining[1..], value);
      if i + |remaining| <= |s| {
        assert s[i..i + |remaining|] == [s[i]] + s[i + 1..i + |remaining|];
        assert remaining == [remaining[0]] + remaining[1..];
      }
    }
  }

  /** literal_handler runs out exactly when the input ends inside the literal. */
  lemma {:induction false} LiteralAtExhausted(s: string, i: nat, remaining: string, value: Json)
    requires i <= |s|
    ensures LiteralAt(s, i, remaining, value).outcome == Err(Exhausted) <==>
      |s| - i < |remaining| && s[i..] == remaining[..|s| - i]
    decreases |remaining|
  {
    if remaining != [] && i < |s| && s[i] == remaining[0] {
      LiteralAtExhausted(s, i + 1, remaining[1..], value);
      if |s| - i < |remaining| {
        assert s[i..] == [s[i]] + s[i + 1..];
        assert remaining[..|s| - i] == [remaining[0]] + remaining[1..][..|s| - (i + 1)];
      }
    }
  }

  /**
   * Any other failure of literal_handler happens at the first symbol that
   * differs from the literal, and names that symbol.
   */
  lemma {:induction false} LiteralAtMismatch(s: string, i: nat, remaining: string, value: Json)
    requires i <= |s|
    ensures var r := LiteralAt(s, i, remaining, value);
      r.outcome.Err? && r.outcome.error != Exhausted ==>
        i < r.pos && r.pos - i <= |remaining| && s[i..r.pos - 1] == remaining[..r.pos - 1 - i] &&
        s[r.pos - 1] != remaining[r.pos - 1 - i] && r.outcome.error == Unexpected(s[r.pos - 1])
    decreases |remaining|
  {
    if remaining != [] && i < |s| && s[i] == remaining[0] {
      LiteralAtMismatch(s, i + 1, remaining[1..], value);
      var r := LiteralAt(s, i, remaining, value);
      if r.outcome.Err? && r.outcome.error != Exhausted {
        assert s[i..r.pos - 1] == [s[i]] + s[i + 1..r.pos - 1];
        assert remaining[..r.pos - 1 - i] == [remaining[0]] + remaining[1..][..r.pos - 1 - (i + 1)];
      }
    }
  }

  /**
   * string_handler returns the symbols before the next '"' and consumes that
   * quote; it runs out, and only runs out, when no quote follows.
   */
  lemma StringAtSpec(s: string, i: nat)
    requires i <= |s|
    ensures StringAt(s, i).outcome.Err? <==> forall k :: i <= k < |s| ==> s[k] != '"'
    ensures StringAt(s, i).outcome.Err? ==> StringAt(s, i) == Scan(Err(Exhausted), |s|)
    ensures var r := StringAt(s, i);
      r.outcome.Ok? ==>
        i < r.pos && s[r.pos - 1] == '"' && r.outcome.value == s[i..r.pos - 1] &&
        forall k :: 0 <= k < |r.outcome.value| ==> r.outcome.value[k] != '"'
  {
    var j := QuoteIndex(s, i);
    QuoteIndexSpec(s, i, j);
    QuoteIndexSpec(s, i, |s|);
  }

  /**
   * number_handler reads the longest run of digits and '.', leaves the
   * symbol after it unread, and converts the run.
   */
  lemma NumberAtSpec(s: string, i: nat)
    requires i <= |s|
    ensures var r := NumberAt(s, i);
      (forall k :: i <= k < r.pos ==> IsNumberSymbol(s[k])) &&
      (r.pos == |s| || !IsNumberSymbol(s[r.pos])) &&
      r.outcome == NumberOf(s[i..r.pos])
  {
    NumberEndSpec(s, i, NumberEnd(s, i));
  }

  /** `Dots` counts the '.' symbols: none exactly when `"." in text` is false. */
  lemma {:induction false} DotsSpec(text: string)
    ensures Dots(text) == multiset(text)['.']
    ensures Dots(text) == 0 <==> '.' !in text
  {
    if text != [] {
      DotsSpec(text[1..]);
      assert text == [text[0]] + text[1..];
      assert multiset(text) == multiset([text[0]]) + multiset(text[1..]);
    }
  }

  /**
   * The conversion accepts a run with no '.' when it is not empty (int) and
   * a run with exactly one '.' and at least one digit (float); everything
   * else is a ValueError naming the run.
   */
  lemma NumberOfSpec(text: string)
    requires forall k :: 0 <= k < |text| ==> IsNumberSymbol(text[k])
    ensures NumberOf(text).Ok? <==>
      ('.' !in text && text != []) || (multiset(text)['.'] == 1 && 2 <= |text|)
    ensures NumberOf(text).Err? ==> NumberOf(text) == Err(NotANumber(text))
    ensures NumberOf(text).Ok? && '.' in text ==> NumberOf(text) == Ok(Float(text))
    ensures NumberOf(text).Ok? && '.' !in text ==> NumberOf(text) == Ok(Int(DecimalValue(text)))
  {
    DotsSpec(text);
  }

  /**
   * `parse`, given what value_handler returned: it returns the value exactly
   * when the handler did and only whitespace follows; InvalidJSON without a
   * symbol comes only from the input running out inside the value, so the
   * raise after the trailing skip_whitespace is never reached; ValueError
   * comes only from a number; anything but whitespace after the value is
   * UnexpectedSymbol for the first such symbol.
   */
  lemma FinishSpec(text: string, v: Scan<Json>)
    requires v.pos <= |text|
    ensures Finish(text, v).Ok? <==> v.outcome.Ok? && AllWhitespace(text, v.pos, |text|)
    ensures Finish(text, v).Ok? ==> Finish(text, v).value == v.outcome.value
    ensures Finish(text, v) == Err(InvalidJSON) <==> v.outcome == Err(Exhausted)
    ensures Finish(text, v).Err? && Finish(text, v).error.ValueError? <==>
      v.outcome.Err? && v.outcome.error.NotANumber?
    ensures v.outcome.Ok? && !AllWhitespace(text, v.pos, |text|) ==>
      WhitespaceEnd(text, v.pos) < |text| && Finish(text, v) == Err(UnexpectedSymbol(text[WhitespaceEnd(text, v.pos)]))
  {
    if v.outcome.Ok? {
      var trailing := SkipWs(text, v.pos, NoSymbol);
      SkipWsSpec(text, v.pos, NoSymbol);
      assert !trailing.outcome.Ok?;
    }
  }

  /** The same for `parse` as a whole. */
  lemma DecodeSpec(text: string)
    ensures var v := ValueAt(text, 0);
      Decode(text).Ok? <==> v.outcome.Ok? && AllWhitespace(text, v.pos, |text|)
    ensures Decode(text).Ok? ==> Decode(text).value == ValueAt(text, 0).outcome.value
    ensures Decode(text) == Err(InvalidJSON) <==> ValueAt(text, 0).outcome == Err(Exhausted)
    ensures Decode(text).Err? && Decode(text).error.ValueError? <==>
      ValueAt(text, 0).outcome.Err? && ValueAt(text, 0).outcome.error.NotANumber?
    ensures var v := ValueAt(text, 0);
      v.outcome.Ok? && !AllWhitespace(text, v.pos, |text|) ==>
        WhitespaceEnd(text, v.pos) < |text| && Decode(text) == Err(UnexpectedSymbol(text[WhitespaceEnd(text, v.pos)]))
  {
    FinishSpec(text, ValueAt(text, 0));
  }

  /** Text with nothing but whitespace, the empty text included, is InvalidJSON. */
  lemma DecodeBlank(text: string)
    requires AllWhitespace(text, 0, |text|)
    ensures Decode(text) == Err(InvalidJSON)
  {
    SkipWsSpec(text, 0, Value);
    var first := SkipWs(text, 0, Value);
    assert first.outcome == Err(Exhausted);
    assert ValueAt(text, 0) == Scan(Err(Exhausted), first.pos);
  }

  /**
   * A text whose first significant symbol cannot start a value, such as the
   * '-' of a negative number or the 'N' of "Null", is rejected with that symbol.
   */
  lemma DecodeNotAValue(text: string)
    requires WhitespaceEnd(text, 0) < |text| && !IsValueStart(text[WhitespaceEnd(text, 0)])
    ensures Decode(text) == Err(UnexpectedSymbol(text[WhitespaceEnd(text, 0)]))
  {
    var k := WhitespaceEnd(text, 0);
    var first := SkipWs(text, 0, Value);
    assert first == Scan(Err(Unexpected(text[k])), k + 1);
    assert ValueAt(text, 0) == Scan(Err(Unexpected(text[k])), k + 1);
  }

  /**
   * An object that object_handler returns has unique keys, in the order of
   * their first appearance: a repeated key overwrites in place.
   */
  lemma {:induction false} ObjectKeysUnique(s: string, i: nat, state: ObjectState, key: string, acc: seq<(string, Json)>)
    requires i <= |s| && UniqueKeys(acc)
    ensures var r := ObjectFrom(s, i, state, key, acc);
      r.outcome.Ok? ==> r.outcome.value.Obj? && UniqueKeys(r.outcome.value.members)
    decreases |s| - i
  {
    hide ValueAt, ArrayFrom, StringAt, Assign;
    var sym := SkipWs(s, i, ObjectExpects(state));
    if sym.outcome.Ok? && sym.outcome.value != '}' {
      var j := sym.pos;
      if state == NextKey || state == KeyOrEnd {
        var name := StringAt(s, j);
        if name.outcome.Ok? {
          ObjectKeysUnique(s, name.pos, ObjectNext(state), name.outcome.value, acc);
        }
      } else if state == MemberValue {
        var item := ValueAt(s, j - 1);
        if item.outcome.Ok? {
          AssignUnique(acc, key, item.outcome.value);
          ObjectKeysUnique(s, item.pos, ObjectNext(state), key, Assign(acc, key, item.outcome.value));
        }
      } else {
        ObjectKeysUnique(s, j, ObjectNext(state), key, acc);
      }
    }
  }

  /** skip_whitespace on a symbol that is not whitespace takes just that symbol. */
  lemma SkipWsAtSymbol(s: string, i: nat, expected: SymbolSet)
    requires i < |s| && !IsWhitespace(s[i])
    ensures SkipWs(s, i, expected) ==
      Scan(if Allows(expected, s[i]) then Ok(s[i]) else Err(Unexpected(s[i])), i + 1)
  {
    assert WhitespaceEnd(s, i) == i;
  }

  /** value_handler on a literal's first letter reads the rest of the literal. */
  lemma ValueAtLiteral(s: string, i: nat)
    requires i < |s| && IsLiteralStart(s[i])
    ensures ValueAt(s, i) == LiteralAt(s, i + 1, LiteralRest(s[i]), LiteralValue(s[i]))
  {
    SkipWsAtSymbol(s, i, Value);
    var first := SkipWs(s, i, Value);
    assert first.outcome == Ok(s[i]) && first.pos == i + 1;
    assert s[i] != '{' && s[i] != '[' && s[i] != '"' && !IsDigit(s[i]);
  }

  /** value_handler on a digit gives the digit back and reads a number. */
  lemma ValueAtNumber(s: string, i: nat)
    requires i < |s| && IsDigit(s[i])
    ensures ValueAt(s, i) == NumberAt(s, i)
  {
    SkipWsAtSymbol(s, i, Value);
    var first := SkipWs(s, i, Value);
    assert first.outcome == Ok(s[i]) && first.pos - 1 == i;
    assert s[i] != '{' && s[i] != '[' && s[i] != '"';
  }

  /** value_handler on '"' reads a string. */
  lemma ValueAtString(s: string, i: nat)
    requires i < |s| && s[i] == '"' && StringAt(s, i + 1).outcome.Ok?
    ensures ValueAt(s, i) == Scan(Ok(Str(StringAt(s, i + 1).outcome.value)), StringAt(s, i + 1).pos)
  {
    SkipWsAtSymbol(s, i, Value);
    var first := SkipWs(s, i, Value);
    assert first.outcome == Ok('"') && first.pos == i + 1;
  }

  /** value_handler on '[' hands over to array_handler. */
  lemma ValueAtArray(s: string, i: nat)
    requires i < |s| && s[i] == '['
    ensures ValueAt(s, i) == ArrayFrom(s, i + 1, ElementOrEnd, [])
  {
    SkipWsAtSymbol(s, i, Value);
    var first := SkipWs(s, i, Value);
    assert first.outcome == Ok('[') && first.pos == i + 1;
  }

  /** value_handler on '{' hands over to object_handler. */
  lemma ValueAtObject(s: string, i: nat)
    requires i < |s| && s[i] == '{'
    ensures ValueAt(s, i) == ObjectFrom(s, i + 1, KeyOrEnd, [], [])
  {
    SkipWsAtSymbol(s, i, Value);
    var first := SkipWs(s, i, Value);
    assert first.outcome == Ok('{') && first.pos == i + 1;
  }

  /** array_handler returns the elements read so far on ']' unless an element must come. */
  lemma ArrayEnds(s: string, i: nat, state: ArrayState, acc: seq<Json>)
    requires i < |s| && s[i] == ']' && state != Element
    ensures ArrayFrom(s, i, state, acc) == Scan(Ok(Arr(acc)), i + 1)
  {
    SkipWsAtSymbol(s, i, ArrayExpects(state));
    var sym := SkipWs(s, i, ArrayExpects(state));
    assert sym.outcome == Ok(']') && sym.pos == i + 1;
  }

  /** array_handler after an element takes ',' and then expects another element. */
  lemma ArrayComma(s: string, i: nat, acc: seq<Json>)
    requires i < |s| && s[i] == ','
    ensures ArrayFrom(s, i, ArrayCommaOrEnd, acc) == ArrayFrom(s, i + 1, Element, acc)
  {
    SkipWsAtSymbol(s, i, ArrayExpects(ArrayCommaOrEnd));
    var sym := SkipWs(s, i, ArrayExpects(ArrayCommaOrEnd));
    assert sym.outcome == Ok(',') && sym.pos == i + 1;
  }

  /** array_handler gives a value's first symbol back, reads the value and appends it. */
  lemma ArrayElement(s: string, i: nat, state: ArrayState, acc: seq<Json>, value: Json, end: nat)
    requires i < |s| && IsValueStart(s[i]) && (state == ElementOrEnd || state == Element)
    requires ValueAt(s, i) == Scan(Ok(value), end)
    ensures ArrayFrom(s, i, state, acc) == ArrayFrom(s, end, ArrayCommaOrEnd, acc + [value])
  {
    hide ValueAt, ArrayFrom, ObjectFrom;
    SkipWsAtSymbol(s, i, ArrayExpects(state));
    var sym := SkipWs(s, i, ArrayExpects(state));
    assert sym.outcome == Ok(s[i]) && sym.pos - 1 == i && s[i] != ']';
    ArrayElementStep(s, i, state, acc);
  }

  /** object_handler returns the members stored so far on '}' where the object may end. */
  lemma ObjectEnds(s: string, i: nat, state: ObjectState, key: string, acc: seq<(string, Json)>)
    requires i < |s| && s[i] == '}' && (state == KeyOrEnd || state == ObjectCommaOrEnd)
    ensures ObjectFrom(s, i, state, key, acc) == Scan(Ok(Obj(acc)), i + 1)
  {
    SkipWsAtSymbol(s, i, ObjectExpects(state));
    var sym := SkipWs(s, i, ObjectExpects(state));
    assert sym.outcome == Ok('}') && sym.pos == i + 1;
  }

  /** object_handler takes a quote where a key may come, reads the key and then expects ':'. */
  lemma ObjectKey(s: string, i: nat, state: ObjectState, key: string, acc: seq<(string, Json)>, name: string, end: nat)
    requires i < |s| && s[i] == '"' && (state == KeyOrEnd || state == NextKey)
    requires StringAt(s, i + 1) == Scan(Ok(name), end)
    ensures ObjectFrom(s, i, state, key, acc) == ObjectFrom(s, end, AfterKey, name, acc)
  {
    SkipWsAtSymbol(s, i, ObjectExpects(state));
    var sym := SkipWs(s, i, ObjectExpects(state));
    assert sym.outcome == Ok('"') && sym.pos == i + 1;
  }

  /** object_handler takes ':' after a key and then expects the value. */
  lemma ObjectColon(s: string, i: nat, key: string, acc: seq<(string, Json)>)
    requires i < |s| && s[i] == ':'
    ensures ObjectFrom(s, i, AfterKey, key, acc) == ObjectFrom(s, i + 1, MemberValue, key, acc)
  {
    SkipWsAtSymbol(s, i, ObjectExpects(AfterKey));
    var sym := SkipWs(s, i, ObjectExpects(AfterKey));
    assert sym.outcome == Ok(':') && sym.pos == i + 1;
  }

  /** object_handler reads a member's value and stores it under the current key. */
  lemma ObjectMemberValue(s: string, i: nat, key: string, acc: seq<(string, Json)>, value: Json, end: nat)
    requires i < |s| && IsValueStart(s[i]) && ValueAt(s, i) == Scan(Ok(value), end)
    ensures ObjectFrom(s, i, MemberValue, key, acc) == ObjectFrom(s, end, ObjectCommaOrEnd, key, Assign(acc, key, value))
  {
    hide ValueAt, ArrayFrom, ObjectFrom;
    SkipWsAtSymbol(s, i, ObjectExpects(MemberValue));
    var sym := SkipWs(s, i, ObjectExpects(MemberValue));
    assert sym.outcome == Ok(s[i]) && sym.pos - 1 == i && s[i] != '}';
    ObjectValueStep(s, i, key, acc);
  }

  /** object_handler after a member takes ',' and then expects the next key. */
  lemma ObjectComma(s: string, i: nat, key: string, acc: seq<(string, Json)>)
    requires i < |s| && s[i] == ','
    ensures ObjectFrom(s, i, ObjectCommaOrEnd, key, acc) == ObjectFrom(s, i + 1, NextKey, key, acc)
  {
    SkipWsAtSymbol(s, i, ObjectExpects(ObjectCommaOrEnd));
    var sym := SkipWs(s, i, ObjectExpects(ObjectCommaOrEnd));
    assert sym.outcome == Ok(',') && sym.pos == i + 1;
  }

  /** value_handler raises UnexpectedSymbol for a symbol that cannot start a value. */
  lemma ValueRejects(s: string, i: nat)
    requires i < |s| && !IsWhitespace(s[i]) && !IsValueStart(s[i])
    ensures ValueAt(s, i) == Scan(Err(Unexpected(s[i])), i + 1)
  {
    SkipWsAtSymbol(s, i, Value);
  }

  /** array_handler raises UnexpectedSymbol for a symbol its state does not expect. */
  lemma ArrayRejects(s: string, i: nat, state: ArrayState, acc: seq<Json>)
    requires i < |s| && !IsWhitespace(s[i]) && !Allows(ArrayExpects(state), s[i])
    ensures ArrayFrom(s, i, state, acc) == Scan(Err(Unexpected(s[i])), i + 1)
  {
    SkipWsAtSymbol(s, i, ArrayExpects(state));
  }

  /** object_handler raises UnexpectedSymbol for a symbol its state does not expect. */
  lemma ObjectRejects(s: string, i: nat, state: ObjectState, key: string, acc: seq<(string, Json)>)
    requires i < |s| && !IsWhitespace(s[i]) && !Allows(ObjectExpects(state), s[i])
    ensures ObjectFrom(s, i, state, key, acc) == Scan(Err(Unexpected(s[i])), i + 1)
  {
    SkipWsAtSymbol(s, i, ObjectExpects(state));
  }

  /** An array still open when only whitespace is left runs out of input. */
  lemma ArrayRunsOut(s: string, i: nat, state: ArrayState, acc: seq<Json>)
    requires i <= |s| && AllWhitespace(s, i, |s|)
    ensures ArrayFrom(s, i, state, acc) == Scan(Err(Exhausted), |s|)
  {
    SkipWsSpec(s, i, ArrayExpects(state));
  }

  /** An object still open when only whitespace is left runs out of input. */
  lemma ObjectRunsOut(s: string, i: nat, state: ObjectState, key: string, acc: seq<(string, Json)>)
    requires i <= |s| && AllWhitespace(s, i, |s|)
    ensures ObjectFrom(s, i, state, key, acc) == Scan(Err(Exhausted), |s|)
  {
    SkipWsSpec(s, i, ObjectExpects(state));
  }

  /** Whitespace between the tokens of an array makes no difference. */
  lemma ArrayAfterWhitespace(s: string, i: nat, j: nat, state: ArrayState, acc: seq<Json>)
    requires i <= j <= |s| && AllWhitespace(s, i, j)
    ensures ArrayFrom(s, i, state, acc) == ArrayFrom(s, j, state, acc)
  {
    hide ValueAt, ObjectFrom;
    SkipWsAfterWhitespace(s, i, j, ArrayExpects(state));
  }

  /** Whitespace between the tokens of an object makes no difference. */
  lemma ObjectAfterWhitespace(s: string, i: nat, j: nat, state: ObjectState, key: string, acc: seq<(string, Json)>)
    requires i <= j <= |s| && AllWhitespace(s, i, j)
    ensures ObjectFrom(s, i, state, key, acc) == ObjectFrom(s, j, state, key, acc)
  {
    hide ValueAt, ArrayFrom, StringAt;
    SkipWsAfterWhitespace(s, i, j, ObjectExpects(state));
  }

  /** string_handler stops at the first '"': a quote at `j` with none before it ends the string there. */
  lemma StringAtQuote(s: string, i: nat, j: nat)
    requires i <= j < |s| && s[j] == '"' && forall k :: i <= k < j ==> s[k] != '"'
    ensures StringAt(s, i) == Scan(Ok(s[i..j]), j + 1)
  {
    QuoteIndexSpec(s, i, j);
  }
}
