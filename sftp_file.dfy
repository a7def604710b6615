/**
 * The format-aware reader factory of an SFTP file handle and the two reader
 * kinds it builds.  A name ending in `.json` gets a JSON reader: when the
 * first token (looked at without consuming anything) is `[`, a reader over
 * the array's elements; otherwise the file is closed and reopened from its
 * start and a reader over one whole value is built.  Any other name gets a
 * line reader.  Readers are iterated with `Next` and `Scan`.
 */
module SftpFile {
  import opened Wrappers
  import opened Errors
  import opened JsonValue
  import opened JsonDecoder
  import opened LineScan

  /** The classification a reader is opened with; it is fixed once and for all. */
  datatype FormatToken = Array | Object | Text

  predicate HasSuffix(s: string, suffix: string)
  {
    |suffix| <= |s| && s[|s| - |suffix|..] == suffix
  }

  predicate IsJsonName(name: string)
  {
    HasSuffix(name, ".json")
  }

  /**
   * How ReadAll treats a handle: by its name first, then, for a JSON name, by
   * the first token of its content; a first token that cannot be read is the
   * error ReadAll returns.
   */
  function Classify(name: string, data: string): (r: Result<FormatToken, Error>)
    ensures r == Ok(Text) <==> !IsJsonName(name)
    ensures r == Ok(Array) <==> IsJsonName(name) && var t := SkipSpace(data); |t| > 0 && t[0] == '['
    ensures r == Ok(Object) <==> (IsJsonName(name) &&
      (PeekToken(NewDecoder(data)) == Ok(Delim('{')) ||
       (PeekToken(NewDecoder(data)).Ok? && PeekToken(NewDecoder(data)).value.Value?)))
    ensures IsJsonName(name) && PeekToken(NewDecoder(data)).Err? ==> r == Err(PeekToken(NewDecoder(data)).error)
  {
    if !IsJsonName(name) then Ok(Text)
    else
      match PeekToken(NewDecoder(data))
      case Err(e) => Err(e)
      case Ok(t) => if t == Delim('[') then Ok(Array) else Ok(Object)
  }

  /** The decoder a corrected array reader keeps: the original one with the opening `[` consumed. */
  function ArrayDecoder(data: string): (d: Decoder)
    ensures PeekToken(NewDecoder(data)) == Ok(Delim('[')) ==> d.state == ArrayValue && |d.rest| < |data|
  {
    ConsumeArrayStart(NewDecoder(data))
  }

  /** A `*string` target. */
  class StringVar {
    var value: string

    constructor (value: string)
      ensures this.value == value
    {
      this.value := value;
    }
  }

  /** A target that a JSON value is decoded into. */
  class JsonVar {
    var value: Json

    constructor (value: Json)
      ensures this.value == value
    {
      this.value := value;
    }
  }

  /** What a line reader's Scan can be given: a `*string`, or anything else. */
  datatype Target = StringPointer(p: StringVar) | OtherTarget

  /** A JSON reader: its decoder, and the first token when the factory kept one. */
  class JsonReader {
    var decoder: Decoder
    const token: Option<Token>

    constructor (decoder: Decoder, token: Option<Token>)
      ensures this.decoder == decoder && this.token == token
    {
      this.decoder := decoder;
      this.token := token;
    }

    /** Whether another value follows; it never reports an error and never moves the decoder. */
    method Next() returns (more: bool)
      ensures more == More(decoder)
    {
      more := More(decoder);
    }

    /** Decodes the next value into the target, passing a decode error through unchanged. */
    method Scan(target: JsonVar) returns (err: Option<Error>)
      modifies this`decoder, target
      ensures match Decode(old(decoder))
        case Ok((v, d')) => err == None && target.value == v && decoder == d'
        case Err(e) => err == Some(e) && target.value == old(target.value) && decoder == old(decoder)
    {
      match Decode(decoder)
      case Ok((v, d')) =>
        target.value := v;
        decoder := d';
        err := None;
      case Err(e) =>
        err := Some(e);
    }
  }

  /** A line reader over its scanner. */
  class TextReader {
    var scanner: Scanner

    constructor (s: string)
      ensures scanner == NewScanner(s)
    {
      scanner := NewScanner(s);
    }

    /** Advances the scanner to the next line; false once the stream is used up. */
    method Next() returns (more: bool)
      modifies this
      ensures more <==> old(scanner.rest) != []
      ensures more ==> NextLine(old(scanner.rest)) == Some((scanner.token, scanner.rest))
      ensures more ==> (|scanner.rest| < |old(scanner.rest)| &&
        Lines(old(scanner.rest)) == [scanner.token] + Lines(scanner.rest))
      ensures !more ==> scanner == Scanner([], "") && Lines(old(scanner.rest)) == []
    {
      var step := ScanStep(scanner);
      more, scanner := step.0, step.1;
    }

    /** Writes the current line into a `*string` target; any other target is refused and left alone. */
    method Scan(target: Target) returns (err: Option<Error>)
      modifies if target.StringPointer? then {target.p} else {}
      ensures scanner == old(scanner)
      ensures target.StringPointer? ==> err == None && target.p.value == scanner.token
      ensures target.OtherTarget? ==> err == Some(NotStringPointer)
    {
      match target
      case StringPointer(p) =>
        p.value := scanner.token;
        err := None;
      case OtherTarget =>
        err := Some(NotStringPointer);
    }
  }

  /** The reader ReadAll hands out. */
  datatype Reader = JsonR(json: JsonReader) | TextR(text: TextReader)

  /**
   * An open SFTP file handle: its name, the content from its read position
   * on, and whether it has been closed.
   */
  class File {
    const name: string
    const data: string
    var closed: bool

    constructor (name: string, data: string)
      ensures this.name == name && this.data == data && !closed
    {
      this.name := name;
      this.data := data;
      closed := false;
    }

    /**
     * Picks and builds a reader.  `closeErr` is what closing the handle
     * returns and `reopened` what opening the file by name again yields; they
     * are consulted only for a JSON file that does not hold an array.
     */
    method ReadAll(closeErr: Option<Error>, reopened: Result<string, Error>) returns (r: Result<Reader, Error>)
      modifies this`closed
      ensures match Classify(name, data)
        case Err(e) => r == Err(e) && closed == old(closed)
        case Ok(Text) =>
          r.Ok? && r.value.TextR? && fresh(r.value.text) &&
          r.value.text.scanner == NewScanner(data) && closed == old(closed)
        case Ok(Array) =>
          r.Ok? && r.value.JsonR? && fresh(r.value.json) &&
          r.value.json.decoder == NewDecoder(data) && r.value.json.token == Some(Delim('[')) &&
          closed == old(closed)
        case Ok(Object) =>
          closed && ObjectOutcome(closeErr, reopened, r) && (r.Ok? && r.value.JsonR? ==> fresh(r.value.json))
    {
      if IsJsonName(name) {
        var j := CreateJsonReader(closeErr, reopened);
        match j
        case Ok(reader) => r := Ok(JsonR(reader));
        case Err(e) => r := Err(e);
      } else {
        var t := CreateTextReader();
        r := Ok(TextR(t));
      }
    }

    /**
     * The JSON half of ReadAll: the array reader when the first token is `[`,
     * the error when the first token cannot be read, the object reader otherwise.
     */
    method CreateJsonReader(closeErr: Option<Error>, reopened: Result<string, Error>)
      returns (r: Result<JsonReader, Error>)
      modifies this`closed
      ensures match PeekToken(NewDecoder(data))
        case Err(e) => r == Err(e) && closed == old(closed)
        case Ok(t) =>
          if t == Delim('[') then
            r.Ok? && fresh(r.value) && r.value.decoder == NewDecoder(data) &&
            r.value.token == Some(Delim('[')) && closed == old(closed)
          else
            closed && ObjectOutcome(closeErr, reopened, if r.Ok? then Ok(JsonR(r.value)) else Err(r.error)) &&
            (r.Ok? ==> fresh(r.value))
    {
      var decoder := NewDecoder(data);
      match PeekToken(decoder)
      case Err(e) =>
        r := Err(e);
      case Ok(t) =>
        if t == Delim('[') {
          var reader := new JsonReader(decoder, Some(t));
          r := Ok(reader);
        } else {
          r := CreateJsonObjectReader(closeErr, reopened);
        }
    }

    /**
     * ReadAll with its array case corrected: the array reader's decoder has
     * the opening `[` consumed, so that it stands before the first element.
     * Every other case is ReadAll's.
     */
    method ReadAllCorrected(closeErr: Option<Error>, reopened: Result<string, Error>) returns (r: Result<Reader, Error>)
      modifies this`closed
      ensures match Classify(name, data)
        case Err(e) => r == Err(e) && closed == old(closed)
        case Ok(Text) =>
          r.Ok? && r.value.TextR? && fresh(r.value.text) &&
          r.value.text.scanner == NewScanner(data) && closed == old(closed)
        case Ok(Array) =>
          r.Ok? && r.value.JsonR? && fresh(r.value.json) &&
          r.value.json.decoder == ArrayDecoder(data) && r.value.json.token == Some(Delim('[')) &&
          closed == old(closed)
        case Ok(Object) =>
          closed && ObjectOutcome(closeErr, reopened, r) && (r.Ok? && r.value.JsonR? ==> fresh(r.value.json))
    {
      r := ReadAll(closeErr, reopened);
      if r.Ok? && r.value.JsonR? && r.value.json.token == Some(Delim('[')) {
        r.value.json.decoder := ConsumeArrayStart(r.value.json.decoder);
      }
    }

    /** Closes the handle and opens the file again from its start, for a reader over one whole value. */
    method CreateJsonObjectReader(closeErr: Option<Error>, reopened: Result<string, Error>)
      returns (r: Result<JsonReader, Error>)
      modifies this`closed
      ensures closed
      ensures ObjectOutcome(closeErr, reopened, if r.Ok? then Ok(JsonR(r.value)) else Err(r.error))
      ensures r.Ok? ==> fresh(r.value)
    {
      closed := true;
      if closeErr.Some? {
        r := Err(closeErr.value);
      } else if reopened.Err? {
        r := Err(reopened.error);
      } else {
        var reader := new JsonReader(NewDecoder(reopened.value), None);
        r := Ok(reader);
      }
    }

    /** A line reader over the handle's content. */
    method CreateTextReader() returns (t: TextReader)
      ensures fresh(t) && t.scanner == NewScanner(data)
    {
      t := new TextReader(data);
    }
  }

  /**
   * The result of building an object reader: the close error if closing
   * failed, else the open error if reopening failed, else a reader over the
   * reopened content with no stored token.
   */
  ghost predicate ObjectOutcome(closeErr: Option<Error>, reopened: Result<string, Error>, r: Result<Reader, Error>)
    reads if r.Ok? && r.value.JsonR? then {r.value.json} else {}
  {
    if closeErr.Some? then r == Err(closeErr.value)
    else if reopened.Err? then r == Err(reopened.error)
    else r.Ok? && r.value.JsonR? && r.value.json.decoder == NewDecoder(reopened.value) && r.value.json.token == None
  }

  /** Iterates a JSON reader the way its callers do, up to the end or the first Scan error; the values come out as Drain says. */
  method ReadValues(j: JsonReader) returns (values: seq<Json>)
    modifies j
    ensures values == Drain(old(j.decoder))
  {
    values := [];
    var more := j.Next();
    while more
      invariant more ==> More(j.decoder)
      invariant values + (if more then Drain(j.decoder) else []) == Drain(old(j.decoder))
      decreases if more then |j.decoder.rest| + 1 else 0
    {
      var target := new JsonVar(Null);
      var err := j.Scan(target);
      if err.Some? {
        more := false;
      } else {
        values := values + [target.value];
        more := j.Next();
      }
    }
  }

  /** One `var content string; Scan(&content)`: a fresh `*string` receives the current line, and the reader does not move. */
  method ScanLine(t: TextReader) returns (line: string, err: Option<Error>)
    ensures line == t.scanner.token && err == None
  {
    var content := new StringVar("");
    err := t.Scan(StringPointer(content));
    line := content.value;
  }

  /** Iterates a line reader the way its callers do, with a fresh `*string` per line; the lines come out as Lines says. */
  method ReadLines(t: TextReader) returns (lines: seq<string>)
    modifies t
    ensures lines == Lines(old(t.scanner.rest))
  {
    ghost var all := Lines(t.scanner.rest);
    lines := [];
    var more := t.Next();
    while more
      invariant more ==> all == lines + ([t.scanner.token] + Lines(t.scanner.rest))
      invariant !more ==> all == lines
      decreases |t.scanner.rest| + (if more then 1 else 0)
    {
      var line, err := ScanLine(t);
      Assoc(lines, [line], Lines(t.scanner.rest));
      lines := lines + [line];
      more := t.Next();
    }
  }

  // ---------------------------------------------------------------- properties

  /** A name is a JSON name exactly when it is some stem followed by `.json`. */
  lemma JsonNameIsStemDotJson(name: string)
    ensures IsJsonName(name) <==> exists stem :: name == stem + ".json"
  {
    if IsJsonName(name) {
      var stem := name[..|name| - 5];
      assert name == stem + ".json";
    }
    if exists stem :: name == stem + ".json" {
      var stem :| name == stem + ".json";
      SplitAt(stem, ".json");
    }
  }

  /** Only the name decides whether a handle is read as lines, whatever its content. */
  lemma ClassifyText(name: string, data: string)
    requires !HasSuffix(name, ".json")
    ensures Classify(name, data) == Ok(Text)
  {
  }

  /** A JSON file holding an encoded value is classified by that value's kind: an array, or anything else. */
  lemma ClassifyEncoded(name: string, v: Json, l: Layout, ws: string)
    requires IsJsonName(name) && Wellformed(v) && Blank(l) && AllSpace(ws)
    ensures Classify(name, Encode(v, l) + ws) == Ok(if v.Arr? then Array else Object)
  {
    PeekEncoded(v, l, ws);
  }

  /** A JSON file that is empty or blank cannot be classified: ReadAll fails with io.EOF. */
  lemma ClassifyBlank(name: string, data: string)
    requires IsJsonName(name) && AllSpace(data)
    ensures Classify(name, data) == Err(EndOfFile)
  {
    BlankIsEndOfFile(NewDecoder(data));
  }

  /**
   * As the factory is written, the array reader's first Scan decodes the
   * whole array, and iterating it yields one value that is not the list of
   * elements.
   */
  lemma ArrayReaderAsWrittenYieldsWholeArray(items: seq<Json>, l: Layout, ws: string)
    requires forall i :: 0 <= i < |items| ==> Wellformed(items[i])
    requires Blank(l) && AllSpace(ws)
    ensures Drain(NewDecoder(Encode(Arr(items), l) + ws)) == [Arr(items)]
    ensures Drain(NewDecoder(Encode(Arr(items), l) + ws)) != items
  {
    DrainSingle(Arr(items), l, ws);
    assert |items| > 0 ==> items[0] < Arr(items);
  }

  /** With the `[` consumed, the array reader yields the elements, in order, and then stops. */
  lemma ArrayReaderYieldsElements(items: seq<Json>, l: Layout, ws: string)
    requires forall i :: 0 <= i < |items| ==> Wellformed(items[i])
    requires Blank(l) && AllSpace(ws)
    ensures Drain(ArrayDecoder(Encode(Arr(items), l) + ws)) == items
  {
    DrainArrayElements(items, l, ws);
  }

  // ---------------------------------------------------------------- scenarios

  /**
   * Reading a `.json` file that holds an array, through ReadAll as written:
   * the loop receives one value, the whole array, and not its elements.
   */
  method ReadArrayFileAsWritten(items: seq<Json>, l: Layout) returns (values: seq<Json>)
    requires forall i :: 0 <= i < |items| ==> Wellformed(items[i])
    requires Blank(l)
    ensures values == [Arr(items)] && values != items
  {
    var data := Encode(Arr(items), l);
    assert data + [] == data;
    var f := new File("temp.json", data);
    ClassifyEncoded(f.name, Arr(items), l, []);
    var r := f.ReadAll(None, Err(OpenFailed));
    values := ReadValues(r.value.json);
    ArrayReaderAsWrittenYieldsWholeArray(items, l, []);
  }

  /**
   * Reading a `.json` file that holds an array, laid out with any blanks,
   * through the corrected ReadAll, yields one value per element, in file order.
   */
  method ReadArrayFile(items: seq<Json>, l: Layout) returns (values: seq<Json>)
    requires forall i :: 0 <= i < |items| ==> Wellformed(items[i])
    requires Blank(l)
    ensures values == items
  {
    var data := Encode(Arr(items), l);
    assert data + [] == data;
    var f := new File("temp.json", data);
    ClassifyEncoded(f.name, Arr(items), l, []);
    var r := f.ReadAllCorrected(None, Err(OpenFailed));
    values := ReadValues(r.value.json);
    ArrayReaderYieldsElements(items, l, []);
  }

  /**
   * Reading a `.json` file that holds one other value, laid out with any
   * blanks, yields that value once, after the handle is reopened.
   */
  method ReadObjectFile(v: Json, l: Layout) returns (values: seq<Json>)
    requires Wellformed(v) && !v.Arr? && Blank(l)
    ensures values == [v]
  {
    var data := Encode(v, l);
    assert data + [] == data;
    var f := new File("temp.json", data);
    ClassifyEncoded(f.name, v, l, []);
    var r := f.ReadAll(None, Ok(data));
    values := ReadValues(r.value.json);
    DrainSingle(v, l, []);
  }

  /** A user record as the JSON tests write it: a name and an age. */
  function User(name: string, age: string): Json
  {
    Obj([Member("name", Str(name)), Member("age", Num(age))])
  }

  /** The users of the JSON array test, in file order. */
  function TestUsers(): seq<Json>
  {
    [User("Sam", "123"), User("Jane", "456"), User("John", "789"), User("Sam", "123")]
  }

  /** A user with a plain name and an age of three digits, the first not `0`, can be written down. */
  lemma UserWellformed(name: string, age: string)
    requires IsPlain(name) && |age| == 3 && '1' <= age[0] <= '9' && IsDigit(age[1]) && IsDigit(age[2])
    ensures Wellformed(User(name, age))
  {
    var ms := User(name, age).members;
    assert ms[0].key == "name" && ms[1].key == "age";
  }

  lemma TestUsersWellformed()
    ensures forall i :: 0 <= i < |TestUsers()| ==> Wellformed(TestUsers()[i])
  {
    UserWellformed("Sam", "123");
    UserWellformed("Jane", "456");
    UserWellformed("John", "789");
  }

  /** The blanks the JSON tests write: a newline after each comma of the array, a space after each comma and colon of an object. */
  const TestLayout: Layout := Layout(Gaps("", "\n", ""), Gaps("", " ", ""), " ")

  lemma NameText(name: string)
    ensures EncodeMember(Member("name", Str(name)), TestLayout) == "\"name\": \"" + (name + "\"")
  {
    var y := name + "\"";
    Assoc(" ", "\"", y);
    Assoc(":", " \"", y);
    Assoc("\"", ": \"", y);
    Assoc("name", "\": \"", y);
    Assoc("\"", "name\": \"", y);
  }

  lemma AgeText(age: string)
    ensures EncodeMember(Member("age", Num(age)), TestLayout) == "\"age\": " + age
  {
    Assoc(":", " ", age);
    Assoc("\"", ": ", age);
    Assoc("age", "\": ", age);
    Assoc("\"", "age\": ", age);
  }

  lemma PairText(m1: Member, m2: Member, a: string, b: string)
    requires EncodeMember(m1, TestLayout) == a && EncodeMember(m2, TestLayout) == b
    ensures EncodeMembers([m1, m2], TestLayout) == a + (", " + b)
  {
    assert [m1, m2][1..] == [m2];
    assert EncodeMembers([m2], TestLayout) == b;
    Assoc(",", " ", b);
  }

  /** A line of the JSON tests' files: `{"name": "<name>", "age": <age>}`. */
  function TestLine(name: string, age: string): string
  {
    "{" + ("\"name\": \"" + (name + ("\"" + (", " + ("\"age\": " + (age + "}"))))))
  }

  /** A user record, laid out as the tests write it, is the tests' line for it. */
  lemma UserText(name: string, age: string)
    ensures Encode(User(name, age), TestLayout) == TestLine(name, age)
  {
    var a, b := "\"name\": \"" + (name + "\""), "\"age\": " + age;
    NameText(name);
    AgeText(age);
    PairText(Member("name", Str(name)), Member("age", Num(age)), a, b);
    var e := a + (", " + b);
    assert "" + (e + ("" + "}")) == e + "}";
    Assoc("\"age\": ", age, "}");
    Assoc(", ", b, "}");
    Assoc(a, ", " + b, "}");
    Assoc(name, "\"", ", " + (b + "}"));
    Assoc("\"name\": \"", name + "\"", ", " + (b + "}"));
  }

  /** An element in front of further elements, laid out as the tests write them: a comma and a newline between. */
  lemma ItemsConsText(ys: seq<Json>, tx: string, txs: string)
    requires |ys| > 1 && Encode(ys[0], TestLayout) == tx && EncodeItems(ys[1..], TestLayout) == txs
    ensures EncodeItems(ys, TestLayout) == tx + (",\n" + txs)
  {
    ItemsSplit(ys, TestLayout, []);
    assert EncodeItems(ys[1..], TestLayout) + [] == txs;
    assert EncodeItems(ys, TestLayout) + [] == EncodeItems(ys, TestLayout);
    Assoc(",", "\n", txs);
  }

  /** Four elements laid out as the tests write them: one per line. */
  lemma FourItemsText(a: Json, b: Json, c: Json, d: Json, ta: string, tb: string, tc: string, td: string)
    requires Encode(a, TestLayout) == ta && Encode(b, TestLayout) == tb
    requires Encode(c, TestLayout) == tc && Encode(d, TestLayout) == td
    ensures EncodeItems([a, b, c, d], TestLayout) == ta + (",\n" + (tb + (",\n" + (tc + (",\n" + td)))))
  {
    assert [c, d][1..] == [d];
    assert EncodeItems([d], TestLayout) == td;
    ItemsConsText([c, d], tc, td);
    assert [b, c, d][1..] == [c, d];
    ItemsConsText([b, c, d], tb, tc + (",\n" + td));
    assert [a, b, c, d][1..] == [b, c, d];
    ItemsConsText([a, b, c, d], ta, tb + (",\n" + (tc + (",\n" + td))));
  }

  /**
   * The array file of the JSON tests is the encoding of its four users with
   * the test layout: a `[`, the users' lines joined with a comma and a
   * newline, and a `]`.
   */
  lemma ArrayTestContent()
    ensures Encode(Arr(TestUsers()), TestLayout) ==
      "[" + (TestLine("Sam", "123") + (",\n" + (TestLine("Jane", "456") + (",\n" +
      (TestLine("John", "789") + (",\n" + (TestLine("Sam", "123") + "]")))))))
  {
    var sam, jane, john := TestLine("Sam", "123"), TestLine("Jane", "456"), TestLine("John", "789");
    UserText("Sam", "123");
    UserText("Jane", "456");
    UserText("John", "789");
    FourItemsText(User("Sam", "123"), User("Jane", "456"), User("John", "789"), User("Sam", "123"), sam, jane, john, sam);
    var e := sam + (",\n" + (jane + (",\n" + (john + (",\n" + sam)))));
    assert "" + (e + ("" + "]")) == e + "]";
    Assoc(",\n", sam, "]");
    Assoc(john, ",\n" + sam, "]");
    Assoc(",\n", john + (",\n" + sam), "]");
    Assoc(jane, ",\n" + (john + (",\n" + sam)), "]");
    Assoc(",\n", jane + (",\n" + (john + (",\n" + sam))), "]");
    Assoc(sam, ",\n" + (jane + (",\n" + (john + (",\n" + sam)))), "]");
  }

  /** The array file of the JSON tests, read through the corrected ReadAll, yields its four users in order. */
  method ReadArrayTestFile() returns (values: seq<Json>)
    ensures values == TestUsers()
  {
    TestUsersWellformed();
    values := ReadArrayFile(TestUsers(), TestLayout);
  }

  /** The object file of the JSON tests yields its one user. */
  method ReadObjectTestFile() returns (values: seq<Json>)
    ensures values == [User("Sam", "123")]
  {
    UserWellformed("Sam", "123");
    values := ReadObjectFile(User("Sam", "123"), TestLayout);
  }

  /** A `.csv` file holding the rows joined with `\n` gives the rows back verbatim and in order. */
  method ReadCsvFile(rows: seq<string>) returns (lines: seq<string>)
    requires forall i :: 0 <= i < |rows| ==> PlainLine(rows[i])
    requires rows == [] || rows[|rows| - 1] != []
    ensures lines == rows
  {
    var f := new File("temp.csv", Join(rows));
    var r := f.ReadAll(None, Err(OpenFailed));
    lines := ReadLines(r.value.text);
    LinesOfJoin(rows);
  }

  /** Content that starts with none of JSON's tokens makes ReadAll fail with a syntax error. */
  method ReadMalformedJson() returns (r: Result<Reader, Error>)
    ensures r == Err(Syntax)
  {
    var f := new File("temp.json", "!@#$%^&*");
    assert SkipSpace(f.data) == f.data;
    r := f.ReadAll(None, Err(OpenFailed));
  }

  /** Scanning a line into anything but a `*string` is refused and leaves the lines where they are. */
  method ScanIntoNonPointer() returns (err: Option<Error>, more: bool)
    ensures err == Some(NotStringPointer) && more
  {
    var f := new File("temp.csv", "Name,Age,Email");
    var r := f.ReadAll(None, Err(OpenFailed));
    var t := r.value.text;
    more := t.Next();
    err := t.Scan(OtherTarget);
  }
}
