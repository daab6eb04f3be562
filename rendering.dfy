/**
 * A writer for the values the parser can produce, and the round trip both
 * ways: the parser reads back what the writer wrote, whatever whitespace
 * surrounds it, and every value the parser returns is one the writer covers.
 */
module Rendering {

  import opened Outcomes
  import opened Symbols
  import opened JsonValues
  import opened Grammar
  import opened GrammarFacts

  /** No '"' in `s`: the parser has no escapes, so a string ends at the first quote. */
  predicate NoQuote(s: string)
  {
    forall k :: 0 <= k < |s| ==> s[k] != '"'
  }

  /** Float text the parser reads back as itself: it starts with a digit and has exactly one '.'. */
  predicate FloatText(t: string)
  {
    2 <= |t| && IsDigit(t[0]) && (forall k :: 0 <= k < |t| ==> IsNumberSymbol(t[k])) && multiset(t)['.'] == 1
  }

  /**
   * The values the writer covers: no negative numbers, no quotes inside
   * strings or keys, and objects without repeated keys. `DecodeWellFormed`
   * proves that every value the parser returns is one of them.
   */
  ghost predicate WellFormed(v: Json)
    decreases v
  {
    match v
    case Null => true
    case Bool(_) => true
    case Int(n) => 0 <= n
    case Float(t) => FloatText(t)
    case Str(s) => NoQuote(s)
    case Arr(items) => forall k :: 0 <= k < |items| ==> WellFormed(items[k])
    case Obj(members) =>
      UniqueKeys(members) &&
      forall k :: 0 <= k < |members| ==> NoQuote(members[k].0) && WellFormed(members[k].1)
  }

  /** The decimal spelling of `n`, without leading zeros. */
  function DecimalDigits(n: nat): (t: string)
    ensures 0 < |t| && forall k :: 0 <= k < |t| ==> IsDigit(t[k])
  {
    if n < 10 then [('0' as int + n) as char]
    else DecimalDigits(n / 10) + [('0' as int + n % 10) as char]
  }

  /** Reading the decimal spelling of `n` gives back `n`. */
  lemma {:induction false} DecimalRoundTrip(n: nat)
    ensures DecimalValue(DecimalDigits(n)) == n
  {
    var t := DecimalDigits(n);
    if n >= 10 {
      DecimalRoundTrip(n / 10);
      assert t[..|t| - 1] == DecimalDigits(n / 10);
    }
  }

  /** The text of a value, with no whitespace. */
  function Render(v: Json): string
    decreases v, 1, 0, 0
  {
    match v
    case Null => "null"
    case Bool(b) => if b then "true" else "false"
    // The parser never produces a negative int (`-` does not start a value),
    // and `WellFormed` leaves them out, so the "-" branch is never read back.
    case Int(n) => if n < 0 then "-" + DecimalDigits(-n) else DecimalDigits(n)
    case Float(t) => t
    case Str(s) => "\"" + s + "\""
    case Arr(items) => "[" + (if items == [] then "]" else Render(items[0]) + ItemsTail(v, 1))
    case Obj(members) => "{" + (if members == [] then "}" else MemberFrom(v, 0))
  }

  /** The elements of an array from the `n`-th on, each after a ',', and the closing ']'. */
  function ItemsTail(v: Json, n: nat): string
    requires v.Arr? && n <= |v.items|
    decreases v, 0, |v.items| - n, 0
  {
    if n == |v.items| then "]" else "," + (Render(v.items[n]) + ItemsTail(v, n + 1))
  }

  /**
   * The members of an object from the `n`-th on and the closing '}': the
   * quoted key, ':' and the value of the `n`-th, then the rest.
   */
  function MemberFrom(v: Json, n: nat): string
    requires v.Obj? && n < |v.members|
    decreases v, 0, |v.members| - n, 0
  {
    "\"" + (v.members[n].0 + ("\"" + (":" + (Render(v.members[n].1) + MembersTail(v, n + 1)))))
  }

  /** The members of an object from the `n`-th on, each after a ',', and the closing '}'. */
  function MembersTail(v: Json, n: nat): string
    requires v.Obj? && n <= |v.members|
    decreases v, 0, |v.members| - n, 1
  {
    if n == |v.members| then "}" else "," + MemberFrom(v, n)
  }

  /** `s` holds `t` at position `i`, symbol by symbol. */
  predicate At(s: string, i: nat, t: string)
  {
    i + |t| <= |s| && forall k :: 0 <= k < |t| ==> s[i + k] == t[k]
  }

  /** Position `j` ends a number: the input ends there or a symbol other than a digit or '.' follows. */
  predicate Delimited(s: string, j: nat)
  {
    j <= |s| && (j == |s| || !IsNumberSymbol(s[j]))
  }

  lemma AtSplit(s: string, i: nat, a: string, b: string)
    requires At(s, i, a + b)
    ensures At(s, i, a) && At(s, i + |a|, b)
  {
    forall k | 0 <= k < |a| ensures s[i + k] == a[k] {
      assert (a + b)[k] == a[k];
    }
    forall k | 0 <= k < |b| ensures s[i + |a| + k] == b[k] {
      assert (a + b)[|a| + k] == b[k];
    }
  }

  lemma AtHead(s: string, i: nat, c: char, t: string)
    requires At(s, i, [c] + t)
    ensures i < |s| && s[i] == c && At(s, i + 1, t)
  {
    AtSplit(s, i, [c], t);
    assert [c][0] == c;
  }

  lemma AtSlice(s: string, i: nat, t: string)
    requires At(s, i, t)
    ensures s[i..i + |t|] == t
  {
  }

  lemma AtConcat(a: string, t: string, b: string)
    ensures At(a + t + b, |a|, t)
  {
    forall k | 0 <= k < |t| ensures (a + t + b)[|a| + k] == t[k] {
    }
  }

  /** Every rendering of a well-formed value starts with a symbol value_handler accepts. */
  lemma RenderStart(v: Json)
    requires WellFormed(v)
    ensures 0 < |Render(v)| && IsValueStart(Render(v)[0])
  {
  }

  /** `null`, `true` and `false` are read back by literal_handler. */
  lemma LiteralRoundTrip(v: Json, s: string, i: nat)
    requires v.Null? || v.Bool?
    requires At(s, i, Render(v))
    ensures ValueAt(s, i) == Scan(Ok(v), i + |Render(v)|)
  {
    hide ValueAt, ArrayFrom, ObjectFrom, LiteralAt;
    var r := Render(v);
    assert r == [r[0]] + r[1..];
    AtHead(s, i, r[0], r[1..]);
    assert r[1..] == LiteralRest(r[0]) && v == LiteralValue(r[0]);
    ValueAtLiteral(s, i);
    AtSlice(s, i + 1, r[1..]);
    LiteralAtSucceeds(s, i + 1, r[1..], v);
  }

  /** The rendering of a number converts back to it. */
  lemma NumberText(v: Json)
    requires WellFormed(v) && (v.Int? || v.Float?)
    ensures forall k :: 0 <= k < |Render(v)| ==> IsNumberSymbol(Render(v)[k])
    ensures NumberOf(Render(v)) == Ok(v)
  {
    var r := Render(v);
    DotsSpec(r);
    if v.Int? {
      assert '.' !in r by {
        forall k | 0 <= k < |r| ensures r[k] != '.' {
          assert IsDigit(r[k]);
        }
      }
      DecimalRoundTrip(v.n);
    } else {
      assert '.' in multiset(r);
    }
  }

  /** number_handler reads a delimited run of digits and '.' whole. */
  lemma NumberRun(s: string, i: nat, r: string)
    requires At(s, i, r) && Delimited(s, i + |r|)
    requires forall k :: 0 <= k < |r| ==> IsNumberSymbol(r[k])
    ensures NumberAt(s, i) == Scan(NumberOf(r), i + |r|)
  {
    AtSlice(s, i, r);
    assert forall k :: i <= k < i + |r| ==> s[k] == r[k - i];
    NumberEndSpec(s, i, i + |r|);
  }

  /** A number is read back by number_handler, which stops at the delimiter after it. */
  lemma NumberRoundTrip(v: Json, s: string, i: nat)
    requires WellFormed(v) && (v.Int? || v.Float?)
    requires At(s, i, Render(v)) && Delimited(s, i + |Render(v)|)
    ensures ValueAt(s, i) == Scan(Ok(v), i + |Render(v)|)
  {
    RenderStart(v);
    assert s[i] == Render(v)[0];
    ValueAtNumber(s, i);
    NumberText(v);
    NumberRun(s, i, Render(v));
  }

  /** A string is read back by string_handler, which stops at its closing quote. */
  lemma StringRoundTrip(v: Json, s: string, i: nat)
    requires WellFormed(v) && v.Str?
    requires At(s, i, Render(v))
    ensures ValueAt(s, i) == Scan(Ok(v), i + |Render(v)|)
  {
    var text := v.s;
    AtSplit(s, i, "\"" + text, "\"");
    AtHead(s, i, '"', text);
    assert s[i + 1 + |text|] == "\""[0];
    forall k | i + 1 <= k < i + 1 + |text| ensures s[k] != '"' {
      assert s[k] == text[k - i - 1];
    }
    QuoteIndexSpec(s, i + 1, i + 1 + |text|);
    AtSlice(s, i + 1, text);
    assert StringAt(s, i + 1) == Scan(Ok(text), i + 2 + |text|);
    ValueAtString(s, i);
  }

  /**
   * The parser reads a well-formed value back from its rendering, and stops
   * right after it, provided no digit or '.' follows.
   */
  lemma {:induction false} ValueRoundTrip(v: Json, s: string, i: nat)
    requires WellFormed(v) && At(s, i, Render(v)) && Delimited(s, i + |Render(v)|)
    ensures ValueAt(s, i) == Scan(Ok(v), i + |Render(v)|)
    decreases v, 2, 0, 0
  {
    hide Render, ItemsTail, MemberFrom, MembersTail, ValueAt, ArrayFrom, ObjectFrom;
    match v
    case Null => LiteralRoundTrip(v, s, i);
    case Bool(_) => LiteralRoundTrip(v, s, i);
    case Int(_) => NumberRoundTrip(v, s, i);
    case Float(_) => NumberRoundTrip(v, s, i);
    case Str(_) => StringRoundTrip(v, s, i);
    case Arr(_) => ArrayRoundTrip(v, s, i);
    case Obj(_) => ObjectRoundTrip(v, s, i);
  }

  /** A value's rendering at `i`, followed by `rest`, is read back and leaves the reader at `rest`. */
  lemma ValueBeforeDelimiter(v: Json, s: string, i: nat, rest: string)
    requires WellFormed(v) && At(s, i, Render(v) + rest)
    requires 0 < |rest| && (rest[0] == ',' || rest[0] == ']' || rest[0] == '}')
    ensures At(s, i + |Render(v)|, rest)
    ensures ValueAt(s, i) == Scan(Ok(v), i + |Render(v)|)
    ensures i < |s| && IsValueStart(s[i])
    decreases v, 3, 0, 0
  {
    hide Render, ItemsTail, MemberFrom, MembersTail, ValueAt, ArrayFrom, ObjectFrom;
    AtSplit(s, i, Render(v), rest);
    RenderStart(v);
    assert s[i] == Render(v)[0];
    assert s[i + |Render(v)|] == rest[0];
    ValueRoundTrip(v, s, i);
  }

  lemma ItemsTailStart(v: Json, n: nat)
    requires v.Arr? && n <= |v.items|
    ensures 0 < |ItemsTail(v, n)| && (ItemsTail(v, n)[0] == ',' || ItemsTail(v, n)[0] == ']')
  {
  }

  lemma MembersTailStart(v: Json, n: nat)
    requires v.Obj? && n <= |v.members|
    ensures 0 < |MembersTail(v, n)| && (MembersTail(v, n)[0] == ',' || MembersTail(v, n)[0] == '}')
  {
  }

  /** How an array's text divides: '[', then ']' or the first element and the rest. */
  lemma ArrayParts(v: Json, s: string, i: nat)
    requires v.Arr? && At(s, i, Render(v))
    ensures i + 1 < |s| && s[i] == '['
    ensures v.items == [] ==> s[i + 1] == ']' && |Render(v)| == 2
    ensures v.items != [] ==>
      At(s, i + 1, Render(v.items[0]) + ItemsTail(v, 1)) &&
      |Render(v)| == 1 + |Render(v.items[0])| + |ItemsTail(v, 1)|
  {
    var tail := if v.items == [] then "]" else Render(v.items[0]) + ItemsTail(v, 1);
    assert Render(v) == "[" + tail;
    AtHead(s, i, '[', tail);
    assert s[i + 1] == tail[0];
  }

  /** How the text from the `n`-th element on divides: ',', the element and the rest, or the closing ']'. */
  lemma ItemsParts(v: Json, n: nat, s: string, i: nat)
    requires v.Arr? && n <= |v.items| && At(s, i, ItemsTail(v, n))
    ensures i < |s|
    ensures n == |v.items| ==> s[i] == ']' && |ItemsTail(v, n)| == 1
    ensures n < |v.items| ==>
      s[i] == ',' && At(s, i + 1, Render(v.items[n]) + ItemsTail(v, n + 1)) &&
      |ItemsTail(v, n)| == 1 + |Render(v.items[n])| + |ItemsTail(v, n + 1)|
  {
    if n < |v.items| {
      AtHead(s, i, ',', Render(v.items[n]) + ItemsTail(v, n + 1));
    } else {
      assert s[i] == ItemsTail(v, n)[0];
    }
  }

  /** An array is read back element by element. */
  lemma {:induction false} ArrayRoundTrip(v: Json, s: string, i: nat)
    requires v.Arr? && WellFormed(v) && At(s, i, Render(v))
    ensures ValueAt(s, i) == Scan(Ok(v), i + |Render(v)|)
    decreases v, 1, 0, 0
  {
    hide Render, ItemsTail, MemberFrom, MembersTail, ValueAt, ArrayFrom, ObjectFrom;
    var items := v.items;
    ArrayParts(v, s, i);
    ValueAtArray(s, i);
    if items == [] {
      ArrayEnds(s, i + 1, ElementOrEnd, []);
    } else {
      assert items[..0] == [];
      ItemStep(v, 0, s, i + 1, ElementOrEnd);
      ItemsRoundTrip(v, 1, s, i + 1 + |Render(items[0])|);
    }
  }

  /** The `n`-th element, read where an element may start, is appended to those before it. */
  lemma {:induction false} ItemStep(v: Json, n: nat, s: string, j: nat, state: ArrayState)
    requires v.Arr? && WellFormed(v) && n < |v.items| && (state == ElementOrEnd || state == Element)
    requires At(s, j, Render(v.items[n]) + ItemsTail(v, n + 1))
    ensures At(s, j + |Render(v.items[n])|, ItemsTail(v, n + 1))
    ensures ArrayFrom(s, j, state, v.items[..n]) ==
      ArrayFrom(s, j + |Render(v.items[n])|, ArrayCommaOrEnd, v.items[..n + 1])
    decreases v, 0, |v.items| - n, 0
  {
    hide Render, ItemsTail, MemberFrom, MembersTail, ValueAt, ArrayFrom, ObjectFrom;
    var item := v.items[n];
    assert WellFormed(item);
    ItemsTailStart(v, n + 1);
    ValueBeforeDelimiter(item, s, j, ItemsTail(v, n + 1));
    ArrayElement(s, j, state, v.items[..n], item, j + |Render(item)|);
    assert v.items[..n + 1] == v.items[..n] + [item];
  }

  /** The elements from the `n`-th on, each after a ',', and the closing ']', complete the array. */
  lemma {:induction false} ItemsRoundTrip(v: Json, n: nat, s: string, i: nat)
    requires v.Arr? && WellFormed(v) && n <= |v.items| && At(s, i, ItemsTail(v, n))
    ensures ArrayFrom(s, i, ArrayCommaOrEnd, v.items[..n]) == Scan(Ok(v), i + |ItemsTail(v, n)|)
    decreases v, 0, |v.items| - n, 1
  {
    hide Render, ItemsTail, MemberFrom, MembersTail, ValueAt, ArrayFrom, ObjectFrom;
    var items := v.items;
    ItemsParts(v, n, s, i);
    if n < |items| {
      ArrayComma(s, i, items[..n]);
      ItemStep(v, n, s, i + 1, Element);
      ItemsRoundTrip(v, n + 1, s, i + 1 + |Render(items[n])|);
    } else {
      assert items[..n] == items;
      ArrayEnds(s, i, ArrayCommaOrEnd, items[..n]);
    }
  }

  /** How an object's text divides: '{', then '}' or the members from the first on. */
  lemma ObjectParts(v: Json, s: string, i: nat)
    requires v.Obj? && At(s, i, Render(v))
    ensures i + 1 < |s| && s[i] == '{'
    ensures v.members == [] ==> s[i + 1] == '}' && |Render(v)| == 2
    ensures v.members != [] ==> At(s, i + 1, MemberFrom(v, 0)) && |Render(v)| == 1 + |MemberFrom(v, 0)|
  {
    var tail := if v.members == [] then "}" else MemberFrom(v, 0);
    assert Render(v) == "{" + tail;
    AtHead(s, i, '{', tail);
    assert s[i + 1] == tail[0];
  }

  /** How the text from the `n`-th member on divides: ',' and the members from it on, or the closing '}'. */
  lemma MembersParts(v: Json, n: nat, s: string, i: nat)
    requires v.Obj? && n <= |v.members| && At(s, i, MembersTail(v, n))
    ensures i < |s|
    ensures n == |v.members| ==> s[i] == '}' && |MembersTail(v, n)| == 1
    ensures n < |v.members| ==>
      s[i] == ',' && At(s, i + 1, MemberFrom(v, n)) && |MembersTail(v, n)| == 1 + |MemberFrom(v, n)|
  {
    if n < |v.members| {
      AtHead(s, i, ',', MemberFrom(v, n));
    } else {
      assert s[i] == MembersTail(v, n)[0];
    }
  }

  /** An object is read back member by member. */
  lemma {:induction false} ObjectRoundTrip(v: Json, s: string, i: nat)
    requires v.Obj? && WellFormed(v) && At(s, i, Render(v))
    ensures ValueAt(s, i) == Scan(Ok(v), i + |Render(v)|)
    decreases v, 1, 0, 0
  {
    hide Render, ItemsTail, MemberFrom, MembersTail, ValueAt, ArrayFrom, ObjectFrom;
    var members := v.members;
    ObjectParts(v, s, i);
    ValueAtObject(s, i);
    if members == [] {
      ObjectEnds(s, i + 1, KeyOrEnd, [], []);
    } else {
      assert members[..0] == [];
      MemberStep(v, 0, s, i + 1, KeyOrEnd, []);
      MembersRoundTrip(v, 1, s, i + 4 + |members[0].0| + |Render(members[0].1)|, members[0].0);
    }
  }

  /** How the text from the `n`-th member on divides: the quoted key, ':', the value and the rest. */
  lemma MemberParts(v: Json, n: nat, s: string, i: nat)
    requires v.Obj? && n < |v.members| && NoQuote(v.members[n].0) && At(s, i, MemberFrom(v, n))
    ensures var name := v.members[n].0;
      s[i] == '"' && StringAt(s, i + 1) == Scan(Ok(name), i + 2 + |name|) && s[i + 2 + |name|] == ':' &&
      At(s, i + 3 + |name|, Render(v.members[n].1) + MembersTail(v, n + 1)) &&
      |MemberFrom(v, n)| == 3 + |name| + |Render(v.members[n].1)| + |MembersTail(v, n + 1)|
  {
    var name, rest := v.members[n].0, Render(v.members[n].1) + MembersTail(v, n + 1);
    AtHead(s, i, '"', name + ("\"" + (":" + rest)));
    AtSplit(s, i + 1, name, "\"" + (":" + rest));
    AtHead(s, i + 1 + |name|, '"', ":" + rest);
    AtHead(s, i + 2 + |name|, ':', rest);
    forall k | i + 1 <= k < i + 1 + |name| ensures s[k] != '"' {
      assert s[k] == name[k - i - 1];
    }
    QuoteIndexSpec(s, i + 1, i + 1 + |name|);
    AtSlice(s, i + 1, name);
  }

  /**
   * The `n`-th member, read from the quote that opens its key, is stored
   * after those before it.
   */
  lemma {:induction false} MemberStep(v: Json, n: nat, s: string, i: nat, state: ObjectState, key: string)
    requires v.Obj? && WellFormed(v) && n < |v.members| && (state == KeyOrEnd || state == NextKey)
    requires At(s, i, MemberFrom(v, n))
    ensures var next := i + 3 + |v.members[n].0| + |Render(v.members[n].1)|;
      next + |MembersTail(v, n + 1)| == i + |MemberFrom(v, n)| && At(s, next, MembersTail(v, n + 1)) &&
      ObjectFrom(s, i, state, key, v.members[..n]) ==
        ObjectFrom(s, next, ObjectCommaOrEnd, v.members[n].0, v.members[..n + 1])
    decreases v, 0, |v.members| - n, 0
  {
    hide Render, ItemsTail, MemberFrom, MembersTail, ValueAt, ArrayFrom, ObjectFrom;
    var members := v.members;
    var name, item := members[n].0, members[n].1;
    assert NoQuote(name) && WellFormed(item) && UniqueKeys(members);
    MemberParts(v, n, s, i);
    var colon := i + 2 + |name|;
    ObjectKey(s, i, state, key, members[..n], name, colon);
    ObjectColon(s, colon, name, members[..n]);
    MembersTailStart(v, n + 1);
    ValueBeforeDelimiter(item, s, colon + 1, MembersTail(v, n + 1));
    ObjectMemberValue(s, colon + 1, name, members[..n], item, colon + 1 + |Render(item)|);
    NewKeyAppends(members, n);
  }

  /** The members from the `n`-th on, each after a ',', and the closing '}', complete the object. */
  lemma {:induction false} MembersRoundTrip(v: Json, n: nat, s: string, i: nat, key: string)
    requires v.Obj? && WellFormed(v) && n <= |v.members| && At(s, i, MembersTail(v, n))
    ensures ObjectFrom(s, i, ObjectCommaOrEnd, key, v.members[..n]) == Scan(Ok(v), i + |MembersTail(v, n)|)
    decreases v, 0, |v.members| - n, 1
  {
    hide Render, ItemsTail, MemberFrom, MembersTail, ValueAt, ArrayFrom, ObjectFrom;
    var members := v.members;
    MembersParts(v, n, s, i);
    if n < |members| {
      ObjectComma(s, i, key, members[..n]);
      MemberStep(v, n, s, i + 1, NextKey, key);
      MembersRoundTrip(v, n + 1, s, i + 4 + |members[n].0| + |Render(members[n].1)|, members[n].0);
    } else {
      assert members[..n] == members;
      ObjectEnds(s, i, ObjectCommaOrEnd, key, members[..n]);
    }
  }

  /** Storing the `n`-th member of an object without repeated keys appends it. */
  lemma NewKeyAppends(members: seq<(string, Json)>, n: nat)
    requires UniqueKeys(members) && n < |members|
    ensures Assign(members[..n], members[n].0, members[n].1) == members[..n + 1]
  {
    var name := members[n].0;
    assert name !in Keys(members[..n]) by {
      forall a | 0 <= a < n ensures Keys(members[..n])[a] != name {
        assert members[a].0 != members[n].0;
      }
    }
    AssignAppends(members[..n], name, members[n].1);
    assert members[..n + 1] == members[..n] + [members[n]];
  }

  /**
   * `parse` returns every well-formed value from its rendering, with any
   * whitespace before and after it.
   */
  lemma RoundTrip(v: Json, before: string, after: string)
    requires WellFormed(v)
    requires AllWhitespace(before, 0, |before|) && AllWhitespace(after, 0, |after|)
    ensures Decode(before + Render(v) + after) == Ok(v)
  {
    hide Render, ItemsTail, MemberFrom, MembersTail, ValueAt, ArrayFrom, ObjectFrom, Decode, Finish;
    var text := before + Render(v) + after;
    var end := |before| + |Render(v)|;
    AtConcat(before, Render(v), after);
    assert AllWhitespace(text, 0, |before|);
    ValueAtAfterWhitespace(text, 0, |before|);
    ValueRoundTrip(v, text, |before|);
    assert AllWhitespace(text, end, |text|);
    DecodeSpec(text);
  }

  /** Members the object loop may hold: unique keys without quotes, each value well formed. */
  ghost predicate WellFormedMembers(members: seq<(string, Json)>)
  {
    UniqueKeys(members) && forall k :: 0 <= k < |members| ==> NoQuote(members[k].0) && WellFormed(members[k].1)
  }

  /** number_handler, started on a digit, produces only well-formed numbers. */
  lemma NumberWellFormed(s: string, i: nat)
    requires i < |s| && IsDigit(s[i])
    ensures NumberAt(s, i).outcome.Ok? ==> WellFormed(NumberAt(s, i).outcome.value)
  {
    var r := NumberAt(s, i);
    NumberAtSpec(s, i);
    var t := s[i..r.pos];
    assert forall k :: 0 <= k < |t| ==> IsNumberSymbol(t[k]);
    NumberOfSpec(t);
    if r.outcome.Ok? && '.' in t {
      assert t[0] == s[i];
    }
  }

  /** Every value that value_handler returns is well formed. */
  lemma {:induction false} ValueWellFormed(s: string, i: nat)
    requires i <= |s|
    ensures ValueAt(s, i).outcome.Ok? ==> WellFormed(ValueAt(s, i).outcome.value)
    decreases |s| - i, 0
  {
    hide ArrayFrom, ObjectFrom, NumberAt, LiteralAt, StringAt;
    var first := SkipWs(s, i, Value);
    if first.outcome.Ok? {
      var c := first.outcome.value;
      var j := first.pos;
      if c == '{' {
        ObjectWellFormed(s, j, KeyOrEnd, [], []);
      } else if c == '[' {
        ArrayWellFormed(s, j, ElementOrEnd, []);
      } else if c == '"' {
        StringAtSpec(s, j);
      } else if IsDigit(c) {
        NumberWellFormed(s, j - 1);
      } else {
        LiteralAtSucceeds(s, j, LiteralRest(c), LiteralValue(c));
      }
    }
  }

  /** array_handler's loop, started with well-formed elements, returns a well-formed array. */
  lemma {:induction false} ArrayWellFormed(s: string, i: nat, state: ArrayState, acc: seq<Json>)
    requires i <= |s| && forall k :: 0 <= k < |acc| ==> WellFormed(acc[k])
    ensures ArrayFrom(s, i, state, acc).outcome.Ok? ==> WellFormed(ArrayFrom(s, i, state, acc).outcome.value)
    decreases |s| - i, 1
  {
    hide ValueAt, ObjectFrom;
    var sym := SkipWs(s, i, ArrayExpects(state));
    if sym.outcome.Ok? && sym.outcome.value != ']' {
      var j := sym.pos;
      if state == ElementOrEnd || state == Element {
        var item := ValueAt(s, j - 1);
        if item.outcome.Ok? {
          ValueWellFormed(s, j - 1);
          var more := acc + [item.outcome.value];
          assert forall k :: 0 <= k < |more| ==> WellFormed(more[k]) by {
            assert forall k :: 0 <= k < |acc| ==> more[k] == acc[k];
          }
          ArrayWellFormed(s, item.pos, ArrayNext(state), more);
        }
      } else {
        ArrayWellFormed(s, j, ArrayNext(state), acc);
      }
    }
  }

  /** A store of a well-formed value under a quote-free key keeps the members well formed. */
  lemma AssignWellFormed(members: seq<(string, Json)>, key: string, value: Json)
    requires WellFormedMembers(members) && NoQuote(key) && WellFormed(value)
    ensures WellFormedMembers(Assign(members, key, value))
  {
    hide Assign;
    var m := Assign(members, key, value);
    AssignUnique(members, key, value);
    AssignMembers(members, key, value);
    forall k | 0 <= k < |m|
      ensures NoQuote(m[k].0) && WellFormed(m[k].1)
    {
      assert m[k] in m;
      if m[k] != (key, value) {
        var n :| 0 <= n < |members| && members[n] == m[k];
      }
    }
  }

  /** object_handler's loop, started with well-formed members, returns a well-formed object. */
  lemma {:induction false} ObjectWellFormed(s: string, i: nat, state: ObjectState, key: string, acc: seq<(string, Json)>)
    requires i <= |s| && NoQuote(key) && WellFormedMembers(acc)
    ensures ObjectFrom(s, i, state, key, acc).outcome.Ok? ==> WellFormed(ObjectFrom(s, i, state, key, acc).outcome.value)
    decreases |s| - i, 1
  {
    hide ValueAt, ArrayFrom, StringAt, Assign;
    var sym := SkipWs(s, i, ObjectExpects(state));
    if sym.outcome.Ok? && sym.outcome.value != '}' {
      var j := sym.pos;
      if state == NextKey || state == KeyOrEnd {
        var name := StringAt(s, j);
        if name.outcome.Ok? {
          StringAtSpec(s, j);
          ObjectWellFormed(s, name.pos, ObjectNext(state), name.outcome.value, acc);
        }
      } else if state == MemberValue {
        var item := ValueAt(s, j - 1);
        if item.outcome.Ok? {
          ValueWellFormed(s, j - 1);
          AssignWellFormed(acc, key, item.outcome.value);
          ObjectWellFormed(s, item.pos, ObjectNext(state), key, Assign(acc, key, item.outcome.value));
        }
      } else {
        ObjectWellFormed(s, j, ObjectNext(state), key, acc);
      }
    }
  }

  /** Every value `parse` returns is well formed, so the round trip covers all of them. */
  lemma DecodeWellFormed(text: string)
    ensures Decode(text).Ok? ==> WellFormed(Decode(text).value)
  {
    hide ValueAt, Finish;
    DecodeSpec(text);
    ValueWellFormed(text, 0);
  }

  /** Whatever `parse` returns, it reads back from the writer's text: the converse of the round trip. */
  lemma ParsedRendersBack(text: string)
    ensures Decode(text).Ok? ==> Decode(Render(Decode(text).value)) == Decode(text)
  {
    hide ValueAt, Finish, Decode, Render;
    if Decode(text).Ok? {
      var v := Decode(text).value;
      DecodeWellFormed(text);
      RoundTrip(v, "", "");
      assert "" + Render(v) + "" == Render(v);
    }
  }
}
