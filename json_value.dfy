/**
 * JSON values, abstractly, and a small subset of the JSON text grammar:
 * null, true, false, numbers written as digit strings without a leading
 * zero (a `0` is a number on its own, as in JSON's grammar), strings without
 * escapes, arrays and objects, with blanks between tokens.  `Encode` writes
 * a value with the blanks a layout puts between its tokens; `ParseValue` reads one value off the front of a
 * character stream and hands back what follows it, as a streaming decoder
 * reads one value at a time.
 */
module JsonValue {
  import opened Wrappers
  import opened Errors

  datatype Json =
    | Null
    | Bool(b: bool)
    | Num(digits: string)
    | Str(text: string)
    | Arr(items: seq<Json>)
    | Obj(members: seq<Member>)

  datatype Member = Member(key: string, value: Json)

  predicate IsSpace(c: char) { c == ' ' || c == '\t' || c == '\n' || c == '\r' }

  predicate IsDigit(c: char) { '0' <= c <= '9' }

  /** A character a string literal of the subset may hold as it is: no quote, no backslash, no control character. */
  predicate IsPlainChar(c: char) { c != '"' && c != '\\' && c >= ' ' }

  predicate IsPlain(s: string) { forall i :: 0 <= i < |s| ==> IsPlainChar(s[i]) }

  /** Values the subset can write down: numbers are non-empty digit strings with no leading zero, strings and keys are plain. */
  predicate Wellformed(v: Json)
    decreases v
  {
    match v
    case Num(d) => |d| > 0 && (|d| == 1 || d[0] != '0') && forall i :: 0 <= i < |d| ==> IsDigit(d[i])
    case Str(text) => IsPlain(text)
    case Arr(items) => forall i :: 0 <= i < |items| ==> Wellformed(items[i])
    case Obj(ms) => forall i :: 0 <= i < |ms| ==> IsPlain(ms[i].key) && Wellformed(ms[i].value)
    case _ => true
  }

  // ---------------------------------------------------------------- writing

  predicate AllSpace(s: seq<char>) { forall i :: 0 <= i < |s| ==> IsSpace(s[i]) }

  /** The blanks written inside a bracket pair: after the opening bracket, after each comma, and before the closing bracket. */
  datatype Gaps = Gaps(open: string, comma: string, close: string)

  /**
   * Where an encoding puts blanks: one set of gaps for arrays, one for
   * objects, and the blanks after each colon.  `Compact` writes none.
   */
  datatype Layout = Layout(arrays: Gaps, objects: Gaps, colon: string)

  const Compact: Layout := Layout(Gaps("", "", ""), Gaps("", "", ""), "")

  /** A layout whose gaps hold nothing but blanks. */
  predicate Blank(l: Layout)
  {
    && AllSpace(l.arrays.open) && AllSpace(l.arrays.comma) && AllSpace(l.arrays.close)
    && AllSpace(l.objects.open) && AllSpace(l.objects.comma) && AllSpace(l.objects.close)
    && AllSpace(l.colon)
  }

  /** The text of a value, laid out by `l`. */
  function Encode(v: Json, l: Layout): string
    decreases v
  {
    match v
    case Null => "null"
    case Bool(b) => if b then "true" else "false"
    case Num(d) => d
    case Str(text) => "\"" + (text + "\"")
    case Arr(items) => "[" + (l.arrays.open + (EncodeItems(items, l) + (l.arrays.close + "]")))
    case Obj(ms) => "{" + (l.objects.open + (EncodeMembers(ms, l) + (l.objects.close + "}")))
  }

  /** The elements of an array, separated by commas. */
  function EncodeItems(items: seq<Json>, l: Layout): string
    decreases items
  {
    if |items| == 0 then ""
    else if |items| == 1 then Encode(items[0], l)
    else Encode(items[0], l) + ("," + (l.arrays.comma + EncodeItems(items[1..], l)))
  }

  function EncodeMember(m: Member, l: Layout): string
    decreases m
  {
    "\"" + (m.key + ("\"" + (":" + (l.colon + Encode(m.value, l)))))
  }

  /** The members of an object, separated by commas. */
  function EncodeMembers(ms: seq<Member>, l: Layout): string
    decreases ms
  {
    if |ms| == 0 then ""
    else if |ms| == 1 then EncodeMember(ms[0], l)
    else EncodeMember(ms[0], l) + ("," + (l.objects.comma + EncodeMembers(ms[1..], l)))
  }

  // ---------------------------------------------------------------- reading

  /** The stream with its leading blanks removed. */
  function SkipSpace(s: seq<char>): (r: seq<char>)
    ensures |r| <= |s|
    ensures r == [] || !IsSpace(r[0])
    ensures forall i :: 0 <= i < |s| - |r| ==> IsSpace(s[i])
  {
    if |s| > 0 && IsSpace(s[0]) then SkipSpace(s[1..]) else s
  }

  /** The number of digits at the front of `s`, as many as there are. */
  function DigitRun(s: seq<char>): (n: nat)
    ensures n <= |s|
    ensures forall i :: 0 <= i < n ==> IsDigit(s[i])
    ensures n == |s| || !IsDigit(s[n])
  {
    if |s| > 0 && IsDigit(s[0]) then 1 + DigitRun(s[1..]) else 0
  }

  /** A keyword: the stream must start with `word`; a stream that stops part-way through it ends unexpectedly. */
  function Literal(s: seq<char>, word: string, v: Json): (r: Result<(Json, seq<char>), Error>)
    requires |word| > 0
    ensures r.Ok? <==> |word| <= |s| && s[..|word|] == word
    ensures r.Ok? ==> r.value == (v, s[|word|..])
  {
    if |word| <= |s| && s[..|word|] == word then Ok((v, s[|word|..]))
    else if |s| < |word| && s == word[..|s|] then Err(UnexpectedEnd)
    else Err(Syntax)
  }

  /** The rest of a string literal whose opening quote has been read: plain characters up to the closing quote. */
  function ParseString(s: seq<char>): (r: Result<(string, seq<char>), Error>)
    ensures r.Ok? ==> |r.value.1| < |s| && IsPlain(r.value.0)
    ensures r.Ok? ==> s == r.value.0 + "\"" + r.value.1
  {
    if |s| == 0 then Err(UnexpectedEnd)
    else if s[0] == '"' then Ok(([], s[1..]))
    else if !IsPlainChar(s[0]) then Err(Syntax)
    else
      match ParseString(s[1..])
      case Err(e) => Err(e)
      case Ok((text, rest)) => Ok(([s[0]] + text, rest))
  }

  /** One value off the front of `s` (after blanks), and what follows it. */
  function ParseValue(s: seq<char>): (r: Result<(Json, seq<char>), Error>)
    decreases |s|, 0
    ensures r.Ok? ==> |r.value.1| < |s|
  {
    var t := SkipSpace(s);
    if |t| == 0 then Err(UnexpectedEnd)
    else if t[0] == 'n' then Literal(t, "null", Null)
    else if t[0] == 't' then Literal(t, "true", Bool(true))
    else if t[0] == 'f' then Literal(t, "false", Bool(false))
    else if IsDigit(t[0]) then
      // a number that starts with 0 ends right after it
      var n := if t[0] == '0' then 1 else DigitRun(t);
      Ok((Num(t[..n]), t[n..]))
    else if t[0] == '"' then
      match ParseString(t[1..])
      case Err(e) => Err(e)
      case Ok((text, rest)) => Ok((Str(text), rest))
    else if t[0] == '[' then ParseArray(t[1..])
    else if t[0] == '{' then ParseObject(t[1..])
    else Err(Syntax)
  }

  /** The rest of an array whose `[` has been read. */
  function ParseArray(s: seq<char>): (r: Result<(Json, seq<char>), Error>)
    decreases |s|, 2
    ensures r.Ok? ==> |r.value.1| < |s|
  {
    var u := SkipSpace(s);
    if |u| > 0 && u[0] == ']' then Ok((Arr([]), u[1..]))
    else
      match ParseItems(u)
      case Err(e) => Err(e)
      case Ok((items, rest)) => Ok((Arr(items), rest))
  }

  /** One or more elements separated by commas, and the closing `]`. */
  function ParseItems(s: seq<char>): (r: Result<(seq<Json>, seq<char>), Error>)
    decreases |s|, 1
    ensures r.Ok? ==> |r.value.1| < |s|
  {
    match ParseValue(s)
    case Err(e) => Err(e)
    case Ok((v, rest)) =>
      var w := SkipSpace(rest);
      if |w| == 0 then Err(UnexpectedEnd)
      else if w[0] == ']' then Ok(([v], w[1..]))
      else if w[0] == ',' then
        match ParseItems(w[1..])
        case Err(e) => Err(e)
        case Ok((more, rest')) => Ok(([v] + more, rest'))
      else Err(Syntax)
  }

  /** The rest of an object whose `{` has been read. */
  function ParseObject(s: seq<char>): (r: Result<(Json, seq<char>), Error>)
    decreases |s|, 2
    ensures r.Ok? ==> |r.value.1| < |s|
  {
    var u := SkipSpace(s);
    if |u| > 0 && u[0] == '}' then Ok((Obj([]), u[1..]))
    else
      match ParseMembers(u)
      case Err(e) => Err(e)
      case Ok((ms, rest)) => Ok((Obj(ms), rest))
  }

  /** One `"key": value` member. */
  function ParseMember(s: seq<char>): (r: Result<(Member, seq<char>), Error>)
    decreases |s|, 0
    ensures r.Ok? ==> |r.value.1| < |s|
  {
    var k := SkipSpace(s);
    if |k| == 0 then Err(UnexpectedEnd)
    else if k[0] != '"' then Err(Syntax)
    else
      match ParseString(k[1..])
      case Err(e) => Err(e)
      case Ok((key, afterKey)) =>
        var c := SkipSpace(afterKey);
        if |c| == 0 then Err(UnexpectedEnd)
        else if c[0] != ':' then Err(Syntax)
        else
          match ParseValue(c[1..])
          case Err(e) => Err(e)
          case Ok((v, rest)) => Ok((Member(key, v), rest))
  }

  /** One or more members separated by commas, and the closing `}`. */
  function ParseMembers(s: seq<char>): (r: Result<(seq<Member>, seq<char>), Error>)
    decreases |s|, 1
    ensures r.Ok? ==> |r.value.1| < |s|
  {
    match ParseMember(s)
    case Err(e) => Err(e)
    case Ok((m, rest)) =>
      var w := SkipSpace(rest);
      if |w| == 0 then Err(UnexpectedEnd)
      else if w[0] == '}' then Ok(([m], w[1..]))
      else if w[0] == ',' then
        match ParseMembers(w[1..])
        case Err(e) => Err(e)
        case Ok((more, rest')) => Ok(([m] + more, rest'))
      else Err(Syntax)
  }


  // ---------------------------------------------------------------- round trip

  /** What may follow a value so that it reads back whole: anything but a digit, which would extend a number. */
  predicate Boundary(t: seq<char>) { t == [] || !IsDigit(t[0]) }

  /** A character that can open a value. */
  predicate OpensValue(c: char) {
    c == 'n' || c == 't' || c == 'f' || c == '"' || c == '[' || c == '{' || IsDigit(c)
  }

  lemma EncodeOpensValue(v: Json, l: Layout)
    requires Wellformed(v)
    ensures |Encode(v, l)| > 0 && OpensValue(Encode(v, l)[0])
  {
  }

  lemma EncodeItemsOpensValue(items: seq<Json>, l: Layout)
    requires |items| > 0 && Wellformed(items[0])
    ensures |EncodeItems(items, l)| > 0 && EncodeItems(items, l)[0] == Encode(items[0], l)[0]
  {
    EncodeOpensValue(items[0], l);
  }

  // Regrouping and slicing concatenations, each proved once.

  lemma Assoc<T>(a: seq<T>, b: seq<T>, c: seq<T>)
    ensures a + b + c == a + (b + c)
  {
  }

  lemma SplitAt<T>(a: seq<T>, b: seq<T>)
    ensures (a + b)[..|a|] == a && (a + b)[|a|..] == b
  {
  }

  lemma DropFirst<T>(a: seq<T>, b: seq<T>)
    requires |a| > 0
    ensures (a + b)[0] == a[0] && (a + b)[1..] == a[1..] + b
  {
  }

  lemma Recons<T>(a: seq<T>)
    requires |a| > 0
    ensures [a[0]] + a[1..] == a
  {
  }

  /** A bracketed body and what follows it, regrouped so that the follower joins the closing bracket. */
  lemma Bracketed<T>(open: seq<T>, body: seq<T>, close: seq<T>, bracket: seq<T>, t: seq<T>)
    ensures (open + (body + (close + bracket))) + t == open + (body + (close + (bracket + t)))
  {
    Assoc(open, body + (close + bracket), t);
    Assoc(body, close + bracket, t);
    Assoc(close, bracket, t);
  }

  lemma {:induction false} SkipNonSpace(s: seq<char>)
    requires |s| > 0 && !IsSpace(s[0])
    ensures SkipSpace(s) == s
  {
  }

  /** Blanks in front change nothing about where the next token starts. */
  lemma {:induction false} SkipBlank(b: seq<char>, x: seq<char>)
    requires AllSpace(b)
    ensures SkipSpace(b + x) == SkipSpace(x)
    decreases |b|
  {
    if |b| == 0 {
      assert b + x == x;
    } else {
      DropFirst(b, x);
      SkipBlank(b[1..], x);
    }
  }

  /** Blanks followed by a character that is no digit end a number. */
  lemma BlankBoundary(b: seq<char>, c: char, t: seq<char>)
    requires AllSpace(b) && !IsDigit(c)
    ensures Boundary(b + ([c] + t))
  {
    if |b| == 0 {
      assert b + ([c] + t) == [c] + t;
    } else {
      DropFirst(b, [c] + t);
    }
  }

  /** An opening character, its contents and what follows: the stream after the opening character. */
  lemma Opened(c: seq<char>, body: seq<char>, t: seq<char>)
    requires |c| == 1
    ensures var s := c + body + t; |s| > 0 && s[0] == c[0] && s[1..] == body + t
  {
    Assoc(c, body, t);
    DropFirst(c, body + t);
  }

  /** A closing character and what follows it. */
  lemma Closing(c: char, t: seq<char>)
    requires !IsSpace(c)
    ensures SkipSpace([c] + t) == [c] + t && ([c] + t)[0] == c && ([c] + t)[1..] == t
  {
    SkipNonSpace([c] + t);
  }

  /** Blanks and then a closing character: the closing character is the next token. */
  lemma BlankClosing(b: seq<char>, c: char, t: seq<char>)
    requires AllSpace(b) && !IsSpace(c)
    ensures SkipSpace(b + ([c] + t)) == [c] + t
  {
    SkipBlank(b, [c] + t);
    Closing(c, t);
  }

  lemma ParseValueSkips(b: seq<char>, x: seq<char>)
    requires AllSpace(b)
    ensures ParseValue(b + x) == ParseValue(x)
  {
    SkipBlank(b, x);
  }

  lemma ParseItemsSkips(b: seq<char>, x: seq<char>)
    requires AllSpace(b)
    ensures ParseItems(b + x) == ParseItems(x)
  {
    ParseValueSkips(b, x);
  }

  lemma ParseMemberSkips(b: seq<char>, x: seq<char>)
    requires AllSpace(b)
    ensures ParseMember(b + x) == ParseMember(x)
  {
    SkipBlank(b, x);
  }

  lemma ParseMembersSkips(b: seq<char>, x: seq<char>)
    requires AllSpace(b)
    ensures ParseMembers(b + x) == ParseMembers(x)
  {
    ParseMemberSkips(b, x);
  }

  lemma {:induction false} DigitRunOfDigits(d: string, t: seq<char>)
    requires forall i :: 0 <= i < |d| ==> IsDigit(d[i])
    requires Boundary(t)
    ensures DigitRun(d + t) == |d|
  {
    if |d| > 0 {
      DropFirst(d, t);
      DigitRunOfDigits(d[1..], t);
    } else {
      assert d + t == t;
    }
  }

  lemma {:induction false} ParseStringOfPlain(text: string, t: seq<char>)
    requires IsPlain(text)
    ensures ParseString(text + ("\"" + t)) == Ok((text, t))
  {
    var s := text + ("\"" + t);
    if |text| == 0 {
      assert s == "\"" + t;
      DropFirst("\"", t);
    } else {
      DropFirst(text, "\"" + t);
      ParseStringOfPlain(text[1..], t);
      Recons(text);
    }
  }

  lemma LiteralOfWord(word: string, t: seq<char>, v: Json)
    requires |word| > 0
    ensures Literal(word + t, word, v) == Ok((v, t))
  {
    SplitAt(word, t);
  }

  /**
   * Reading back what `Encode` wrote, with any blank layout, gives the same
   * value and leaves what followed untouched.
   */
  lemma {:induction false} ParseEncoded(v: Json, l: Layout, t: seq<char>)
    requires Wellformed(v) && Blank(l) && Boundary(t)
    ensures ParseValue(Encode(v, l) + t) == Ok((v, t))
    decreases v, 2
  {
    var s := Encode(v, l) + t;
    EncodeOpensValue(v, l);
    assert s[0] == Encode(v, l)[0];
    SkipNonSpace(s);
    match v
    case Null => LiteralOfWord("null", t, Null);
    case Bool(b) =>
      if b { LiteralOfWord("true", t, v); } else { LiteralOfWord("false", t, v); }
    case Num(d) =>
      if d[0] != '0' { DigitRunOfDigits(d, t); }
      SplitAt(d, t);
    case Str(text) =>
      Opened("\"", text + "\"", t);
      Assoc(text, "\"", t);
      ParseStringOfPlain(text, t);
    case Arr(items) =>
      Opened("[", l.arrays.open + (EncodeItems(items, l) + (l.arrays.close + "]")), t);
      ParseArrayEncoded(items, l, t);
    case Obj(ms) =>
      Opened("{", l.objects.open + (EncodeMembers(ms, l) + (l.objects.close + "}")), t);
      ParseObjectEncoded(ms, l, t);
  }

  /** The encoded elements and what follows them: the first element, then, when there are more, a comma, blanks and the others. */
  lemma ItemsSplit(items: seq<Json>, l: Layout, ct: seq<char>)
    requires |items| > 1
    ensures EncodeItems(items, l) + ct ==
      Encode(items[0], l) + ("," + (l.arrays.comma + (EncodeItems(items[1..], l) + ct)))
  {
    var e, r := Encode(items[0], l), EncodeItems(items[1..], l);
    Assoc(e, "," + (l.arrays.comma + r), ct);
    Assoc(",", l.arrays.comma + r, ct);
    Assoc(l.arrays.comma, r, ct);
  }

  /** The same for the members of an object. */
  lemma MembersSplit(ms: seq<Member>, l: Layout, ct: seq<char>)
    requires |ms| > 1
    ensures EncodeMembers(ms, l) + ct ==
      EncodeMember(ms[0], l) + ("," + (l.objects.comma + (EncodeMembers(ms[1..], l) + ct)))
  {
    var e, r := EncodeMember(ms[0], l), EncodeMembers(ms[1..], l);
    Assoc(e, "," + (l.objects.comma + r), ct);
    Assoc(",", l.objects.comma + r, ct);
    Assoc(l.objects.comma, r, ct);
  }

  lemma {:induction false} ParseArrayEncoded(items: seq<Json>, l: Layout, t: seq<char>)
    requires forall i :: 0 <= i < |items| ==> Wellformed(items[i])
    requires Blank(l)
    ensures ParseArray((l.arrays.open + (EncodeItems(items, l) + (l.arrays.close + "]"))) + t) == Ok((Arr(items), t))
    decreases items, 1
  {
    var ei, ct := EncodeItems(items, l), l.arrays.close + ("]" + t);
    Bracketed(l.arrays.open, ei, l.arrays.close, "]", t);
    SkipBlank(l.arrays.open, ei + ct);
    if |items| == 0 {
      assert ei + ct == ct;
      BlankClosing(l.arrays.close, ']', t);
    } else {
      EncodeItemsOpensValue(items, l);
      assert (ei + ct)[0] == ei[0];
      SkipNonSpace(ei + ct);
      ParseItemsEncoded(items, l, t);
    }
  }

  lemma {:induction false} ParseItemsEncoded(items: seq<Json>, l: Layout, t: seq<char>)
    requires |items| > 0
    requires forall i :: 0 <= i < |items| ==> Wellformed(items[i])
    requires Blank(l)
    ensures ParseItems(EncodeItems(items, l) + (l.arrays.close + ("]" + t))) == Ok((items, t))
    decreases items, 0
  {
    var x, ct := items[0], l.arrays.close + ("]" + t);
    if |items| == 1 {
      BlankBoundary(l.arrays.close, ']', t);
      ParseEncoded(x, l, ct);
      BlankClosing(l.arrays.close, ']', t);
      assert [x] == items;
    } else {
      var rest := EncodeItems(items[1..], l) + ct;
      ItemsSplit(items, l, ct);
      ParseEncoded(x, l, "," + (l.arrays.comma + rest));
      Closing(',', l.arrays.comma + rest);
      ParseItemsSkips(l.arrays.comma, rest);
      ParseItemsEncoded(items[1..], l, t);
      Recons(items);
    }
  }

  lemma {:induction false} ParseObjectEncoded(ms: seq<Member>, l: Layout, t: seq<char>)
    requires forall i :: 0 <= i < |ms| ==> IsPlain(ms[i].key) && Wellformed(ms[i].value)
    requires Blank(l)
    ensures ParseObject((l.objects.open + (EncodeMembers(ms, l) + (l.objects.close + "}"))) + t) == Ok((Obj(ms), t))
    decreases ms, 1
  {
    var em, ct := EncodeMembers(ms, l), l.objects.close + ("}" + t);
    Bracketed(l.objects.open, em, l.objects.close, "}", t);
    SkipBlank(l.objects.open, em + ct);
    if |ms| == 0 {
      assert em + ct == ct;
      BlankClosing(l.objects.close, '}', t);
    } else {
      assert em[0] == EncodeMember(ms[0], l)[0] == '"';
      assert (em + ct)[0] == '"';
      SkipNonSpace(em + ct);
      ParseMembersEncoded(ms, l, t);
    }
  }

  lemma {:induction false} ParseMemberEncoded(m: Member, l: Layout, after: seq<char>)
    requires IsPlain(m.key) && Wellformed(m.value) && Blank(l) && Boundary(after)
    ensures ParseMember(EncodeMember(m, l) + after) == Ok((m, after))
    decreases m
  {
    var ev, col := Encode(m.value, l), l.colon;
    var c := ":" + (col + (ev + after));
    // EncodeMember(m, l) + after == "\"" + (m.key + ("\"" + c))
    Assoc(col, ev, after);
    Assoc(":", col + ev, after);
    Assoc("\"", ":" + (col + ev), after);
    Assoc(m.key, "\"" + (":" + (col + ev)), after);
    Assoc("\"", m.key + ("\"" + (":" + (col + ev))), after);
    var s := EncodeMember(m, l) + after;
    assert s == "\"" + (m.key + ("\"" + c));
    Closing('"', m.key + ("\"" + c));
    ParseStringOfPlain(m.key, c);
    Closing(':', col + (ev + after));
    ParseValueSkips(col, ev + after);
    ParseEncoded(m.value, l, after);
  }

  lemma {:induction false} ParseMembersEncoded(ms: seq<Member>, l: Layout, t: seq<char>)
    requires |ms| > 0
    requires forall i :: 0 <= i < |ms| ==> IsPlain(ms[i].key) && Wellformed(ms[i].value)
    requires Blank(l)
    ensures ParseMembers(EncodeMembers(ms, l) + (l.objects.close + ("}" + t))) == Ok((ms, t))
    decreases ms, 0
  {
    var m, ct := ms[0], l.objects.close + ("}" + t);
    if |ms| == 1 {
      BlankBoundary(l.objects.close, '}', t);
      ParseMemberEncoded(m, l, ct);
      BlankClosing(l.objects.close, '}', t);
      assert [m] == ms;
    } else {
      var rest := EncodeMembers(ms[1..], l) + ct;
      MembersSplit(ms, l, ct);
      ParseMemberEncoded(m, l, "," + (l.objects.comma + rest));
      Closing(',', l.objects.comma + rest);
      ParseMembersSkips(l.objects.comma, rest);
      ParseMembersEncoded(ms[1..], l, t);
      Recons(ms);
    }
  }
}
