/**
 * A streaming JSON decoder over a character stream, in the shape of Go's
 * json.Decoder: `More` looks ahead for another value, `Decode` consumes one
 * whole value (and, inside an array, the comma before it), and `PeekToken`
 * classifies the first token.  A decoder is a value, so inspecting one
 * through a function never advances it: that is the lookahead that does not
 * consume input.
 */
module JsonDecoder {
  import opened Wrappers
  import opened Errors
  import opened JsonValue

  /** Where a decoder stands: at the top level, inside an array before an element, or inside an array after one. */
  datatype TokenState = TopValue | ArrayValue | ArrayComma

  /** The input a decoder has not consumed yet, and its token state. */
  datatype Decoder = Decoder(rest: seq<char>, state: TokenState)

  /** A first token: a delimiter, or a whole scalar value. */
  datatype Token = Delim(c: char) | Value(v: Json)

  /** json.NewDecoder: nothing consumed, at the top level. */
  function NewDecoder(s: seq<char>): Decoder
  {
    Decoder(s, TopValue)
  }

  /** Decoder.More: some character other than a blank, `]` or `}` comes next. */
  predicate More(d: Decoder)
  {
    var t := SkipSpace(d.rest);
    |t| > 0 && t[0] != ']' && t[0] != '}'
  }

  /** Reads one whole value; blank or empty input is io.EOF, input that ends inside the value io.ErrUnexpectedEOF. */
  function ReadValue(d: Decoder): (r: Result<(Json, Decoder), Error>)
    ensures r.Ok? ==> |r.value.1.rest| < |d.rest|
    ensures r.Ok? ==> r.value.1.state == if d.state == ArrayValue then ArrayComma else d.state
  {
    if SkipSpace(d.rest) == [] then Err(EndOfFile)
    else
      match ParseValue(d.rest)
      case Err(e) => Err(e)
      case Ok((v, rest)) => Ok((v, Decoder(rest, if d.state == ArrayValue then ArrayComma else d.state)))
  }

  /** Decoder.Decode: after an array element, first the separating comma; then one whole value. */
  function Decode(d: Decoder): (r: Result<(Json, Decoder), Error>)
    ensures r.Ok? ==> |r.value.1.rest| < |d.rest|
    ensures r.Ok? ==> r.value.1.state == if d.state == TopValue then TopValue else ArrayComma
  {
    if d.state == ArrayComma then
      var t := SkipSpace(d.rest);
      if |t| == 0 then Err(EndOfFile)
      else if t[0] != ',' then Err(Syntax)
      else ReadValue(Decoder(t[1..], ArrayValue))
    else ReadValue(d)
  }

  /**
   * Decoder.Token on a decoder at the top level: `[` and `{` come back as
   * delimiters without reading further, a closing bracket, comma or colon is
   * a syntax error, and anything else is decoded as a whole value.
   */
  function PeekToken(d: Decoder): (r: Result<Token, Error>)
    ensures r == Ok(Delim('[')) <==> var t := SkipSpace(d.rest); |t| > 0 && t[0] == '['
    ensures var t := SkipSpace(d.rest); |t| > 0 && t[0] == '{' ==> r == Ok(Delim('{'))
    ensures r.Ok? && r.value.Delim? ==> r.value.c == '[' || r.value.c == '{'
    ensures var t := SkipSpace(d.rest); |t| > 0 && t[0] in "]},:" ==> r == Err(Syntax)
    ensures SkipSpace(d.rest) == [] ==> r == Err(EndOfFile)
    ensures r.Ok? && r.value.Value? ==> Decode(d).Ok? && Decode(d).value.0 == r.value.v
  {
    var t := SkipSpace(d.rest);
    if |t| == 0 then Err(EndOfFile)
    else if t[0] == '[' || t[0] == '{' then Ok(Delim(t[0]))
    else if t[0] == ']' || t[0] == '}' || t[0] == ',' || t[0] == ':' then Err(Syntax)
    else
      match Decode(d)
      case Err(e) => Err(e)
      case Ok((v, _)) => Ok(Value(v))
  }

  /**
   * The decoder with a leading `[` consumed as a token, standing before the
   * first element (a decoder that does not start with `[` is returned as it is).
   */
  function ConsumeArrayStart(d: Decoder): (d': Decoder)
    ensures PeekToken(d) == Ok(Delim('[')) ==>
      d'.state == ArrayValue && |d'.rest| < |d.rest| &&
      d.rest == d.rest[..|d.rest| - |d'.rest| - 1] + "[" + d'.rest &&
      AllSpace(d.rest[..|d.rest| - |d'.rest| - 1])
  {
    var t := SkipSpace(d.rest);
    if |t| > 0 && t[0] == '[' then
      var d' := Decoder(t[1..], ArrayValue);
      assert d.rest[|d.rest| - |t|..] == t by { SkipSpaceIsSuffix(d.rest); }
      assert d.rest == d.rest[..|d.rest| - |t|] + t;
      d'
    else d
  }

  /** The values a `for Next() { Scan }` loop receives, up to the first Scan that fails. */
  function Drain(d: Decoder): seq<Json>
    decreases |d.rest|
  {
    if !More(d) then []
    else
      match Decode(d)
      case Err(_) => []
      case Ok((v, d')) => [v] + Drain(d')
  }

  /** What SkipSpace leaves is the end of its input. */
  lemma {:induction false} SkipSpaceIsSuffix(s: seq<char>)
    ensures s[|s| - |SkipSpace(s)|..] == SkipSpace(s)
  {
    if |s| > 0 && IsSpace(s[0]) {
      SkipSpaceIsSuffix(s[1..]);
      assert s[1..][|s| - 1 - |SkipSpace(s[1..])|..] == s[|s| - |SkipSpace(s)|..];
    }
  }

  /** A blank stream (the empty one included) has no further value: More is false, and reading or peeking is io.EOF. */
  lemma {:induction false} BlankIsEndOfFile(d: Decoder)
    requires AllSpace(d.rest)
    ensures SkipSpace(d.rest) == []
    ensures !More(d) && Drain(d) == []
    ensures PeekToken(d) == Err(EndOfFile)
    ensures Decode(d) == Err(EndOfFile)
    decreases |d.rest|
  {
    if |d.rest| > 0 {
      BlankIsEndOfFile(Decoder(d.rest[1..], d.state));
    }
  }

  /** Blanks in front of the rest change nothing about what a decoder yields. */
  lemma DrainSkips(b: seq<char>, x: seq<char>, st: TokenState)
    requires AllSpace(b)
    ensures More(Decoder(b + x, st)) == More(Decoder(x, st))
    ensures Drain(Decoder(b + x, st)) == Drain(Decoder(x, st))
  {
    SkipBlank(b, x);
    ParseValueSkips(b, x);
    assert Decode(Decoder(b + x, st)) == Decode(Decoder(x, st));
  }

  /** A decoder at the top level decodes an encoded value back, leaving what follows it. */
  lemma DecodeEncoded(v: Json, l: Layout, t: seq<char>)
    requires Wellformed(v) && Blank(l) && Boundary(t)
    ensures Decode(NewDecoder(Encode(v, l) + t)) == Ok((v, NewDecoder(t)))
  {
    EncodeOpensValue(v, l);
    var s := Encode(v, l) + t;
    assert s[0] == Encode(v, l)[0];
    SkipNonSpace(s);
    ParseEncoded(v, l, t);
  }

  /** The first token of an encoded value: `[` for an array, `{` for an object, the value itself otherwise. */
  lemma PeekEncoded(v: Json, l: Layout, t: seq<char>)
    requires Wellformed(v) && Blank(l) && Boundary(t)
    ensures PeekToken(NewDecoder(Encode(v, l) + t)) ==
      if v.Arr? then Ok(Delim('[')) else if v.Obj? then Ok(Delim('{')) else Ok(Value(v))
  {
    EncodeOpensValue(v, l);
    var s := Encode(v, l) + t;
    assert s[0] == Encode(v, l)[0];
    SkipNonSpace(s);
    if !v.Arr? && !v.Obj? {
      DecodeEncoded(v, l, t);
    }
  }

  /** A stream holding one value (and blanks after it) yields exactly that value, after which More is false. */
  lemma DrainSingle(v: Json, l: Layout, ws: seq<char>)
    requires Wellformed(v) && Blank(l) && AllSpace(ws)
    ensures Drain(NewDecoder(Encode(v, l) + ws)) == [v]
  {
    EncodeOpensValue(v, l);
    var s := Encode(v, l) + ws;
    assert s[0] == Encode(v, l)[0];
    SkipNonSpace(s);
    DecodeEncoded(v, l, ws);
    BlankIsEndOfFile(NewDecoder(ws));
  }

  /** Inside an array, the decoder reads an encoded element and moves on to the comma state. */
  lemma DecodeElement(x: Json, l: Layout, tail: seq<char>)
    requires Wellformed(x) && Blank(l) && Boundary(tail)
    ensures var d := Decoder(Encode(x, l) + tail, ArrayValue);
      More(d) && Decode(d) == Ok((x, Decoder(tail, ArrayComma))) &&
      Drain(d) == [x] + Drain(Decoder(tail, ArrayComma))
  {
    var s := Encode(x, l) + tail;
    EncodeOpensValue(x, l);
    assert s[0] == Encode(x, l)[0];
    SkipNonSpace(s);
    ParseEncoded(x, l, tail);
  }

  /** A closing bracket, blanks or not in front of it, ends the iteration: More is false there. */
  lemma ClosingBracketEnds(c: seq<char>, t: seq<char>, st: TokenState)
    requires AllSpace(c)
    ensures !More(Decoder(c + ("]" + t), st)) && Drain(Decoder(c + ("]" + t), st)) == []
  {
    BlankClosing(c, ']', t);
  }

  /** After an element, a comma and blanks followed by further elements read on as if they were not there. */
  lemma CommaStep(a: seq<char>, x: seq<char>)
    requires AllSpace(a) && |x| > 0 && OpensValue(x[0])
    ensures Drain(Decoder("," + (a + x), ArrayComma)) == Drain(Decoder(x, ArrayValue))
  {
    var d2 := Decoder("," + (a + x), ArrayComma);
    var d3 := Decoder(a + x, ArrayValue);
    Closing(',', a + x);
    assert Decode(d2) == ReadValue(d3);
    SkipNonSpace(x);
    SkipBlank(a, x);
    assert More(d2) && More(d3);
    DrainSkips(a, x, ArrayValue);
  }

  /**
   * A decoder standing before the elements of an encoded array yields the
   * elements one per Decode, in order, and More turns false exactly at the `]`.
   */
  lemma {:induction false} DrainElements(items: seq<Json>, l: Layout, t: seq<char>)
    requires forall i :: 0 <= i < |items| ==> Wellformed(items[i])
    requires Blank(l)
    ensures Drain(Decoder(EncodeItems(items, l) + (l.arrays.close + ("]" + t)), ArrayValue)) == items
    decreases |items|
  {
    var ct := l.arrays.close + ("]" + t);
    if |items| == 0 {
      assert EncodeItems(items, l) + ct == ct;
      ClosingBracketEnds(l.arrays.close, t, ArrayValue);
    } else if |items| == 1 {
      BlankBoundary(l.arrays.close, ']', t);
      DecodeElement(items[0], l, ct);
      ClosingBracketEnds(l.arrays.close, t, ArrayComma);
    } else {
      var x := EncodeItems(items[1..], l) + ct;
      ItemsSplit(items, l, ct);
      DecodeElement(items[0], l, "," + (l.arrays.comma + x));
      EncodeItemsOpensValue(items[1..], l);
      assert x[0] == EncodeItems(items[1..], l)[0];
      CommaStep(l.arrays.comma, x);
      DrainElements(items[1..], l, t);
      Recons(items);
    }
  }

  /** With its `[` consumed, an encoded array (and blanks after it) yields its elements in order. */
  lemma DrainArrayElements(items: seq<Json>, l: Layout, ws: seq<char>)
    requires forall i :: 0 <= i < |items| ==> Wellformed(items[i])
    requires Blank(l) && AllSpace(ws)
    ensures Drain(ConsumeArrayStart(NewDecoder(Encode(Arr(items), l) + ws))) == items
  {
    var s := Encode(Arr(items), l) + ws;
    var ei := EncodeItems(items, l);
    Opened("[", l.arrays.open + (ei + (l.arrays.close + "]")), ws);
    Bracketed(l.arrays.open, ei, l.arrays.close, "]", ws);
    SkipNonSpace(s);
    assert ConsumeArrayStart(NewDecoder(s)) == Decoder(l.arrays.open + (ei + (l.arrays.close + ("]" + ws))), ArrayValue);
    DrainSkips(l.arrays.open, ei + (l.arrays.close + ("]" + ws)), ArrayValue);
    DrainElements(items, l, ws);
  }
}
