/** The hand-written SNBT scanner: its loops, their meaning on suffixes, and
    the proof that splitting inverts printing. */
module Snbt {
  import opened Text
  import opened Wrappers

  // -------------------------------------------- what is left after a value

  predicate Space(c: char) {
    c in {' ', '\t', '\r', '\n'}
  }

  predicate EndsAtom(c: char) {
    c in {',', '}', ']'}
  }

  /** The rest after a string whose opening quote was consumed. */
  function AfterString(rest: string): (r: string)
    ensures |r| <= |rest|
  {
    if rest == "" then ""
    else if rest[0] == '\\' then (if |rest| < 2 then "" else AfterString(rest[2..]))
    else if rest[0] == '"' then rest[1..]
    else AfterString(rest[1..])
  }

  /** The rest after the bracket that closes `depth` open ones of one kind. */
  function AfterNested(rest: string, open: char, close: char, depth: int): (r: string)
    ensures |r| <= |rest|
    decreases |rest|
  {
    if rest == "" then ""
    else if rest[0] == '"' then AfterNested(AfterString(rest[1..]), open, close, depth)
    else if rest[0] == open then AfterNested(rest[1..], open, close, depth + 1)
    else if rest[0] == close then
      if depth == 1 then rest[1..] else AfterNested(rest[1..], open, close, depth - 1)
    else AfterNested(rest[1..], open, close, depth)
  }

  function AfterAtom(rest: string): (r: string)
    ensures |r| <= |rest|
  {
    if rest == "" || EndsAtom(rest[0]) then rest else AfterAtom(rest[1..])
  }

  function Closer(open: char): char {
    if open == '[' then ']' else '}'
  }

  function AfterValue(rest: string): (r: string)
    ensures |r| <= |rest|
  {
    if rest == "" then ""
    else if rest[0] == '"' then AfterString(rest[1..])
    else if rest[0] == '[' || rest[0] == '{' then AfterNested(rest, rest[0], Closer(rest[0]), 0)
    else AfterAtom(rest)
  }

  function AfterSpaces(rest: string): (r: string)
    ensures |r| <= |rest|
  {
    if rest != "" && Space(rest[0]) then AfterSpaces(rest[1..]) else rest
  }

  /** What lies before a suffix. */
  function Before(rest: string, after: string): string
    requires |after| <= |rest|
  {
    rest[..|rest| - |after|]
  }

  /** The scanner stays in bounds, and advances unless it stands on a character
      that ends an atom. */
  lemma ScannerAdvances(rest: string)
    requires rest != ""
    ensures |AfterValue(rest)| <= |rest|
    ensures |AfterValue(rest)| < |rest| <==> !EndsAtom(rest[0])
  {
    if rest[0] == '[' || rest[0] == '{' {
      assert AfterValue(rest) == AfterNested(rest[1..], rest[0], Closer(rest[0]), 1);
    }
  }

  // ------------------------------------------------------------- the loops

  lemma Drop(text: string, i: nat, k: nat)
    requires i + k <= |text|
    ensures text[i..][k..] == text[i + k..]
  {}

  method SkipString(text: string, index: nat) returns (end: nat)
    requires index < |text|
    ensures index < end <= |text| && text[end..] == AfterString(text[index + 1..])
  {
    var cursor := index + 1;
    ghost var goal := AfterString(text[index + 1..]);
    while cursor < |text|
      invariant index < cursor
      invariant if cursor <= |text| then goal == AfterString(text[cursor..]) else goal == ""
      decreases |text| - cursor
    {
      Drop(text, cursor, 1);
      if text[cursor] == '\\' {
        if cursor + 2 <= |text| {
          Drop(text, cursor, 2);
        }
        cursor := cursor + 2;
      } else if text[cursor] == '"' {
        return cursor + 1;
      } else {
        cursor := cursor + 1;
      }
    }
    end := |text|;
  }

  /** The index just past the bracket matching the one at `index`. */
  method SkipNested(text: string, index: nat, open: char, closer: char) returns (end: nat)
    requires index < |text| && text[index] == open && open != closer && open != '"'
    ensures index < end <= |text| && text[end..] == AfterNested(text[index..], open, closer, 0)
  {
    var depth, cursor := 0, index;
    ghost var goal := AfterNested(text[index..], open, closer, 0);
    while cursor < |text|
      invariant index <= cursor <= |text|
      invariant AfterNested(text[cursor..], open, closer, depth) == goal
      decreases |text| - cursor
    {
      Drop(text, cursor, 1);
      var current := text[cursor];
      if current == '"' {
        cursor := SkipString(text, cursor);
        continue;
      }
      if current == open {
        depth := depth + 1;
      } else if current == closer {
        depth := depth - 1;
        if depth == 0 {
          return cursor + 1;
        }
      }
      cursor := cursor + 1;
    }
    end := |text|;
  }

  /** The index just past the value starting at `index`. */
  method SkipValue(text: string, index: nat) returns (end: nat)
    requires index <= |text|
    ensures index <= end <= |text| && text[end..] == AfterValue(text[index..])
  {
    if index >= |text| {
      return index;
    }
    var first := text[index];
    Drop(text, index, 1);
    if first == '"' {
      end := SkipString(text, index);
      return;
    }
    if first == '[' || first == '{' {
      end := SkipNested(text, index, first, Closer(first));
      return;
    }
    hide AfterNested, AfterString;
    var cursor := index;
    while cursor < |text| && !EndsAtom(text[cursor])
      invariant index <= cursor <= |text|
      invariant AfterAtom(text[cursor..]) == AfterAtom(text[index..])
    {
      Drop(text, cursor, 1);
      cursor := cursor + 1;
    }
    end := cursor;
  }

  // --------------------------------------------------------- splitting fields

  /** One field as found: the decoded key and the raw text of its value. */
  datatype Entry = Entry(key: string, raw: string)

  /** Decoding of a quoted key, a library call: the text or an error. */
  type Decoder = string -> Option<string>

  /** The first field of a body that starts with no space, and what follows its
      separator. */
  function FirstField(r: string, decode: Decoder): (f: Option<(Entry, string)>)
    requires r != ""
    ensures f.Some? ==> |f.value.1| < |r|
  {
    if r[0] != '"' then None
    else
      var e := AfterString(r[1..]);
      match decode(Before(r, e))
      case None => None
      case Some(key) =>
        var c := AfterSpaces(e);
        if c == "" || c[0] != ':' then None
        else
          var v := AfterSpaces(c[1..]);
          if v == "" then None
          else
            var n := AfterValue(v);
            var t := AfterSpaces(n);
            if t == "" then Some((Entry(key, Before(v, n)), ""))
            else if t[0] != ',' then None
            else Some((Entry(key, Before(v, n)), t[1..]))
  }

  /** The fields of an object body. */
  function Fields(rest: string, decode: Decoder): Option<seq<Entry>>
    decreases |rest|
  {
    var r := AfterSpaces(rest);
    if r == "" then Some([])
    else
      match FirstField(r, decode)
      case None => None
      case Some((entry, more)) => Prepended(entry, Fields(more, decode))
  }

  function Prepended(entry: Entry, more: Option<seq<Entry>>): Option<seq<Entry>> {
    match more
    case None => None
    case Some(entries) => Some([entry] + entries)
  }

  function SplitSpec(nbt: string, decode: Decoder): Option<seq<Entry>> {
    var text := Trim(nbt);
    if |text| < 2 || text[0] != '{' || text[|text| - 1] != '}' then None
    else Fields(text[1..|text| - 1], decode)
  }

  method SkipSpaces(body: string, index: nat) returns (end: nat)
    requires index <= |body|
    ensures index <= end <= |body| && body[end..] == AfterSpaces(body[index..])
  {
    end := index;
    while end < |body| && Space(body[end])
      invariant index <= end <= |body|
      invariant AfterSpaces(body[end..]) == AfterSpaces(body[index..])
    {
      Drop(body, end, 1);
      end := end + 1;
    }
  }

  /** One `key: value` pair and its separator. */
  method SplitField(body: string, start: nat, decode: Decoder) returns (entry: Option<Entry>, index: nat)
    requires start < |body|
    ensures start <= index <= |body|
    ensures FirstField(body[start..], decode) ==
              if entry.None? then None else Some((entry.value, body[index..]))
    ensures entry.Some? ==> start < index
  {
    hide AfterString, AfterNested, AfterAtom, AfterSpaces, AfterValue;
    entry, index := None, start;
    if body[start] != '"' {
      return;
    }
    var end := SkipString(body, start);
    Drop(body, start, 1);
    assert body[start..end] == Before(body[start..], body[end..]);
    var key := decode(body[start..end]);
    if key.None? {
      return;
    }
    var cursor := SkipSpaces(body, end);
    if cursor >= |body| || body[cursor] != ':' {
      return;
    }
    Drop(body, cursor, 1);
    cursor := SkipSpaces(body, cursor + 1);
    if cursor >= |body| {
      return;
    }
    var valueEnd := SkipValue(body, cursor);
    assert body[cursor..valueEnd] == Before(body[cursor..], body[valueEnd..]);
    index := SkipSpaces(body, valueEnd);
    if index < |body| {
      Drop(body, index, 1);
      if body[index] != ',' {
        return;
      }
      index := index + 1;
    }
    entry := Some(Entry(key.value, body[cursor..valueEnd]));
  }

  /** Splits a `{...}` object into its depth-one fields. */
  method SplitTopLevel(nbt: string, decode: Decoder) returns (items: Option<seq<Entry>>)
    ensures items == SplitSpec(nbt, decode)
  {
    var text := Trim(nbt);
    if |text| < 2 || text[0] != '{' || text[|text| - 1] != '}' {
      return None;
    }
    var body := text[1..|text| - 1];
    var found: seq<Entry> := [];
    var index := 0;
    assert body[0..] == body;
    JoinedNothing(Fields(body, decode));
    while index < |body|
      invariant index <= |body|
      invariant Fields(body, decode) == Joined(found, Fields(body[index..], decode))
      decreases |body| - index
    {
      ghost var before := index;
      index := SkipSpaces(body, index);
      if index >= |body| {
        break;
      }
      var entry, next := SplitField(body, index, decode);
      if entry.None? {
        return None;
      }
      JoinedCons(found, entry.value, Fields(body[next..], decode));
      found, index := found + [entry.value], next;
    }
    assert found + [] == found;
    items := Some(found);
  }

  lemma JoinedNothing(more: Option<seq<Entry>>)
    ensures Joined([], more) == more
  {
    if more.Some? {
      assert [] + more.value == more.value;
    }
  }

  lemma JoinedCons(found: seq<Entry>, entry: Entry, more: Option<seq<Entry>>)
    ensures Joined(found + [entry], more) == Joined(found, Prepended(entry, more))
  {
    if more.Some? {
      assert found + [entry] + more.value == found + ([entry] + more.value);
    }
  }

  function Joined(found: seq<Entry>, more: Option<seq<Entry>>): Option<seq<Entry>> {
    match more
    case None => None
    case Some(entries) => Some(found + entries)
  }

  // ------------------------------------------------------------- the printer

  datatype Value =
    | Atom(text: string)
    | Quoted(raw: string)             // the text between the quotes, escapes kept
    | List(items: seq<Value>)
    | Compound(fields: seq<Field>)

  datatype Field = Field(key: string, value: Value)

  /** A key that is printed without escapes. */
  predicate PlainKey(key: string) {
    forall c :: c in key ==> c != '"' && c != '\\' && c >= ' '
  }

  predicate AtomText(text: string) {
    text != "" && !Space(text[0]) && forall c :: c in text ==> !EndsAtom(c) && c != '"' && c != '[' && c != '{'
  }

  /** Every backslash escapes a following character, and no quote is bare. */
  predicate QuotedText(raw: string) {
    raw == "" ||
    (if raw[0] == '\\' then |raw| >= 2 && QuotedText(raw[2..]) else raw[0] != '"' && QuotedText(raw[1..]))
  }

  predicate Printable(v: Value) {
    match v
    case Atom(text) => AtomText(text)
    case Quoted(raw) => QuotedText(raw)
    case List(items) => forall i :: 0 <= i < |items| ==> Printable(items[i])
    case Compound(fields) => forall i :: 0 <= i < |fields| ==> PlainKey(fields[i].key) && Printable(fields[i].value)
  }

  function Print(v: Value): string
    decreases v, 0
  {
    match v
    case Atom(text) => text
    case Quoted(raw) => "\"" + raw + "\""
    case List(items) => "[" + PrintItems(items) + "]"
    case Compound(fields) => "{" + PrintFields(fields) + "}"
  }

  function PrintItems(items: seq<Value>): string
    decreases items, 1
  {
    if items == [] then ""
    else if |items| == 1 then Print(items[0])
    else Print(items[0]) + "," + PrintItems(items[1..])
  }

  function PrintFields(fields: seq<Field>): string
    decreases fields, 1
  {
    if fields == [] then ""
    else if |fields| == 1 then PrintField(fields[0].key, Print(fields[0].value))
    else PrintField(fields[0].key, Print(fields[0].value)) + "," + PrintFields(fields[1..])
  }

  function PrintField(key: string, raw: string): string {
    "\"" + key + "\":" + raw
  }

  // ---------------------------------------------- scanning what was printed

  lemma {:induction false} StringPrinted(raw: string, post: string)
    requires QuotedText(raw)
    ensures AfterString(raw + "\"" + post) == post
    decreases |raw|
  {
    var text := raw + "\"" + post;
    if raw == "" {
      assert text[1..] == post;
    } else if raw[0] == '\\' {
      assert text[2..] == raw[2..] + "\"" + post;
      StringPrinted(raw[2..], post);
    } else {
      assert text[1..] == raw[1..] + "\"" + post;
      StringPrinted(raw[1..], post);
    }
  }

  lemma {:induction false} PlainIsQuoted(key: string)
    requires PlainKey(key)
    ensures QuotedText(key)
    decreases |key|
  {
    if key != "" {
      assert key[0] in key && forall c :: c in key[1..] ==> c in key;
      PlainIsQuoted(key[1..]);
    }
  }

  predicate Brackets(open: char, close: char) {
    (open == '[' && close == ']') || (open == '{' && close == '}')
  }

  lemma {:induction false} AtomNested(text: string, post: string, open: char, close: char, depth: int)
    requires Brackets(open, close)
    requires forall c :: c in text ==> !EndsAtom(c) && c != '"' && c != '[' && c != '{'
    ensures AfterNested(text + post, open, close, depth) == AfterNested(post, open, close, depth)
    decreases |text|
  {
    if text == "" {
      assert text + post == post;
    } else {
      assert (text + post)[1..] == text[1..] + post;
      assert text[0] in text && forall c :: c in text[1..] ==> c in text;
      AtomNested(text[1..], post, open, close, depth);
    }
  }

  lemma QuotedNested(raw: string, post: string, open: char, close: char, depth: int)
    requires Brackets(open, close) && QuotedText(raw)
    ensures AfterNested("\"" + raw + "\"" + post, open, close, depth) == AfterNested(post, open, close, depth)
  {
    var text := "\"" + raw + "\"" + post;
    assert text[1..] == raw + "\"" + post;
    StringPrinted(raw, post);
  }

  lemma OneNested(c: char, post: string, open: char, close: char, depth: int)
    requires c != '"' && c != open && c != close
    ensures AfterNested([c] + post, open, close, depth) == AfterNested(post, open, close, depth)
  {
    assert ([c] + post)[1..] == post;
  }

  /** An opening bracket raises the depth, its closing one lowers it. */
  lemma OpensNested(post: string, open: char, close: char, depth: int)
    requires Brackets(open, close)
    ensures AfterNested([open] + post, open, close, depth) == AfterNested(post, open, close, depth + 1)
  {
    assert ([open] + post)[1..] == post;
  }

  lemma ClosesNested(post: string, open: char, close: char, depth: int)
    requires Brackets(open, close) && depth >= 1
    ensures AfterNested([close] + post, open, close, depth + 1) == AfterNested(post, open, close, depth)
  {
    assert ([close] + post)[1..] == post;
  }

  /** A printed value is invisible to the scan for an enclosing bracket. */
  lemma {:induction false} ValueNested(v: Value, post: string, open: char, close: char, depth: int)
    requires Brackets(open, close) && Printable(v) && depth >= 1
    ensures AfterNested(Print(v) + post, open, close, depth) == AfterNested(post, open, close, depth)
    decreases v, 0
  {
    hide AfterNested;
    match v
    case Atom(text) => AtomNested(text, post, open, close, depth);
    case Quoted(raw) => QuotedNested(raw, post, open, close, depth);
    case List(items) =>
      var inner := PrintItems(items) + ("]" + post);
      assert Print(v) + post == "[" + inner;
      if open == '[' {
        OpensNested(inner, open, close, depth);
        ItemsNested(items, "]" + post, open, close, depth + 1);
        ClosesNested(post, open, close, depth);
      } else {
        OneNested('[', inner, open, close, depth);
        ItemsNested(items, "]" + post, open, close, depth);
        OneNested(']', post, open, close, depth);
      }
    case Compound(fields) =>
      var inner := PrintFields(fields) + ("}" + post);
      assert Print(v) + post == "{" + inner;
      if open == '{' {
        OpensNested(inner, open, close, depth);
        FieldsNested(fields, "}" + post, open, close, depth + 1);
        ClosesNested(post, open, close, depth);
      } else {
        OneNested('{', inner, open, close, depth);
        FieldsNested(fields, "}" + post, open, close, depth);
        OneNested('}', post, open, close, depth);
      }
  }

  lemma {:induction false} ItemsNested(items: seq<Value>, post: string, open: char, close: char, depth: int)
    requires Brackets(open, close) && depth >= 1
    requires forall i :: 0 <= i < |items| ==> Printable(items[i])
    ensures AfterNested(PrintItems(items) + post, open, close, depth) == AfterNested(post, open, close, depth)
    decreases items, 1
  {
    if items == [] {
      assert PrintItems(items) + post == post;
    } else if |items| == 1 {
      ValueNested(items[0], post, open, close, depth);
    } else {
      var more := PrintItems(items[1..]) + post;
      assert PrintItems(items) + post == Print(items[0]) + ("," + more);
      ValueNested(items[0], "," + more, open, close, depth);
      OneNested(',', more, open, close, depth);
      ItemsNested(items[1..], post, open, close, depth);
    }
  }

  lemma FieldNested(f: Field, post: string, open: char, close: char, depth: int)
    requires Brackets(open, close) && PlainKey(f.key)
    ensures AfterNested(PrintField(f.key, Print(f.value)) + post, open, close, depth)
         == AfterNested(Print(f.value) + post, open, close, depth)
  {
    var value := Print(f.value) + post;
    assert PrintField(f.key, Print(f.value)) + post == "\"" + f.key + "\"" + (":" + value);
    PlainIsQuoted(f.key);
    QuotedNested(f.key, ":" + value, open, close, depth);
    OneNested(':', value, open, close, depth);
  }

  lemma {:induction false} FieldsNested(fields: seq<Field>, post: string, open: char, close: char, depth: int)
    requires Brackets(open, close) && depth >= 1
    requires forall i :: 0 <= i < |fields| ==> PlainKey(fields[i].key) && Printable(fields[i].value)
    ensures AfterNested(PrintFields(fields) + post, open, close, depth) == AfterNested(post, open, close, depth)
    decreases fields, 1
  {
    if fields == [] {
      assert PrintFields(fields) + post == post;
    } else if |fields| == 1 {
      FieldNested(fields[0], post, open, close, depth);
      ValueNested(fields[0].value, post, open, close, depth);
    } else {
      var more := PrintFields(fields[1..]) + post;
      assert PrintFields(fields) + post == PrintField(fields[0].key, Print(fields[0].value)) + ("," + more);
      FieldNested(fields[0], "," + more, open, close, depth);
      ValueNested(fields[0].value, "," + more, open, close, depth);
      OneNested(',', more, open, close, depth);
      FieldsNested(fields[1..], post, open, close, depth);
    }
  }

  /** What may follow a value: nothing, or a character that ends an atom. */
  predicate Delimited(post: string) {
    post == "" || EndsAtom(post[0])
  }

  lemma {:induction false} AtomPrinted(text: string, post: string)
    requires Delimited(post) && forall c :: c in text ==> !EndsAtom(c)
    ensures AfterAtom(text + post) == post
    decreases |text|
  {
    if text == "" {
      assert text + post == post;
    } else {
      assert (text + post)[1..] == text[1..] + post;
      assert text[0] in text && forall c :: c in text[1..] ==> c in text;
      AtomPrinted(text[1..], post);
    }
  }

  lemma BracketPrinted(inner: string, post: string, open: char, close: char)
    requires Brackets(open, close)
    requires AfterNested(inner + ([close] + post), open, close, 1) == AfterNested([close] + post, open, close, 1)
    ensures AfterNested([open] + inner + [close] + post, open, close, 0) == post
  {
    var text := [open] + inner + [close] + post;
    assert text[1..] == inner + ([close] + post);
    assert ([close] + post)[1..] == post;
  }

  /** A bracketed or quoted value ends at its own delimiter, whatever follows. */
  lemma ClosedPrinted(v: Value, post: string)
    requires Printable(v) && !v.Atom?
    ensures AfterValue(Print(v) + post) == post
  {
    hide AfterString, AfterNested, AfterAtom, PrintItems, PrintFields;
    match v
    case Quoted(raw) =>
      assert (Print(v) + post)[1..] == raw + "\"" + post;
      StringPrinted(raw, post);
    case List(items) =>
      ItemsNested(items, "]" + post, '[', ']', 1);
      BracketPrinted(PrintItems(items), post, '[', ']');
      assert Print(v) + post == ['['] + PrintItems(items) + [']'] + post;
    case Compound(fields) =>
      FieldsNested(fields, "}" + post, '{', '}', 1);
      BracketPrinted(PrintFields(fields), post, '{', '}');
      assert Print(v) + post == ['{'] + PrintFields(fields) + ['}'] + post;
  }

  /** Scanning a printed value consumes exactly that value. */
  lemma ValuePrinted(v: Value, post: string)
    requires Printable(v) && Delimited(post)
    ensures AfterValue(Print(v) + post) == post
  {
    if v.Atom? {
      assert v.text[0] in v.text;
      AtomPrinted(v.text, post);
    } else {
      ClosedPrinted(v, post);
    }
  }

  lemma PrintedStart(v: Value)
    requires Printable(v)
    ensures Print(v) != "" && !Space(Print(v)[0])
  {}

  /** The decoder returns a key without escapes as it stands. */
  ghost predicate DecodesPlain(decode: Decoder) {
    forall key :: PlainKey(key) ==> decode("\"" + key + "\"") == Some(key)
  }

  lemma DecodedPlain(key: string, decode: Decoder)
    requires DecodesPlain(decode) && PlainKey(key)
    ensures decode("\"" + key + "\"") == Some(key)
  {}

  function Entries(fields: seq<Field>): seq<Entry> {
    seq(|fields|, i requires 0 <= i < |fields| => Entry(fields[i].key, Print(fields[i].value)))
  }

  lemma FieldPrinted(f: Field, post: string, decode: Decoder)
    requires DecodesPlain(decode) && PlainKey(f.key) && Printable(f.value)
    requires post == "" || post[0] == ','
    ensures FirstField(PrintField(f.key, Print(f.value)) + post, decode)
         == Some((Entry(f.key, Print(f.value)), if post == "" then "" else post[1..]))
  {
    hide AfterString, AfterNested, AfterAtom, AfterValue, Print, Printable, QuotedText, DecodesPlain;
    var value := Print(f.value) + post;
    var text := PrintField(f.key, Print(f.value)) + post;
    assert decode("\"" + f.key + "\"") == Some(f.key) by {
      DecodedPlain(f.key, decode);
    }
    assert text[1..] == f.key + "\"" + (":" + value);
    PlainIsQuoted(f.key);
    StringPrinted(f.key, ":" + value);
    assert Before(text, ":" + value) == "\"" + f.key + "\"";
    assert (":" + value)[1..] == value;
    PrintedStart(f.value);
    ValuePrinted(f.value, post);
    assert Before(value, post) == Print(f.value);
  }

  lemma {:induction false} FieldsPrinted(fields: seq<Field>, decode: Decoder)
    requires DecodesPlain(decode)
    requires forall i :: 0 <= i < |fields| ==> PlainKey(fields[i].key) && Printable(fields[i].value)
    ensures Fields(PrintFields(fields), decode) == Some(Entries(fields))
    decreases |fields|
  {
    hide FirstField, Print, Printable, DecodesPlain;
    if fields != [] {
      var head := PrintField(fields[0].key, Print(fields[0].value));
      var post := if |fields| == 1 then "" else "," + PrintFields(fields[1..]);
      assert PrintFields(fields) == head + post;
      FieldPrinted(fields[0], post, decode);
      FieldsPrinted(fields[1..], decode);
      assert post != "" ==> post[1..] == PrintFields(fields[1..]);
      assert Entries(fields) == [Entry(fields[0].key, Print(fields[0].value))] + Entries(fields[1..]);
    }
  }

  /** Splitting inverts printing: the fields of a printed object come back with
      their keys and the exact text of their values, in order. */
  lemma SplitInvertsPrint(fields: seq<Field>, decode: Decoder)
    requires DecodesPlain(decode) && Printable(Compound(fields))
    ensures SplitSpec(Print(Compound(fields)), decode) == Some(Entries(fields))
  {
    var text := Print(Compound(fields));
    TrimNothing(text);
    assert text[1..|text| - 1] == PrintFields(fields);
    FieldsPrinted(fields, decode);
  }

  // -------------------------------------------- stripping keys, the inventory

  function Kept(items: seq<Entry>, wanted: set<string>): seq<Entry> {
    if items == [] then []
    else (if items[0].key in wanted then [] else [items[0]]) + Kept(items[1..], wanted)
  }

  function JoinFields(items: seq<Entry>): string {
    if items == [] then ""
    else if |items| == 1 then PrintField(items[0].key, items[0].raw)
    else PrintField(items[0].key, items[0].raw) + "," + JoinFields(items[1..])
  }

  /** Drops the named top-level fields; text that does not split, or loses
      nothing, stays as it is. */
  function StripTopLevelKeys(nbt: string, wanted: set<string>, decode: Decoder): string {
    if wanted == {} then nbt
    else
      match SplitSpec(nbt, decode)
      case None => nbt
      case Some(items) =>
        var kept := Kept(items, wanted);
        if |kept| == |items| then nbt else "{" + JoinFields(kept) + "}"
  }

  /** The raw text of the first top-level field of that name whose value is
      bracketed, or empty. */
  function FirstBracketed(items: seq<Entry>, key: string): Option<string> {
    if items == [] then None
    else if items[0].key == key && (items[0].raw == "" || items[0].raw[0] == '[' || items[0].raw[0] == '{') then
      Some(items[0].raw)
    else FirstBracketed(items[1..], key)
  }

  function Without(fields: seq<Field>, wanted: set<string>): seq<Field> {
    if fields == [] then []
    else (if fields[0].key in wanted then [] else [fields[0]]) + Without(fields[1..], wanted)
  }

  lemma EntriesCons(fields: seq<Field>)
    requires fields != []
    ensures Entries(fields) == [Entry(fields[0].key, Print(fields[0].value))] + Entries(fields[1..])
    ensures Entries(fields)[1..] == Entries(fields[1..])
  {}

  lemma {:induction false} KeptIsWithout(fields: seq<Field>, wanted: set<string>)
    ensures Kept(Entries(fields), wanted) == Entries(Without(fields, wanted))
    decreases |fields|
  {
    hide Print, Entries;
    if fields != [] {
      EntriesCons(fields);
      KeptIsWithout(fields[1..], wanted);
      var rest := Without(fields[1..], wanted);
      if fields[0].key in wanted {
        assert [] + rest == rest && [] + Entries(rest) == Entries(rest);
      } else {
        EntriesCons([fields[0]] + rest);
        assert ([fields[0]] + rest)[1..] == rest;
      }
    } else {
      assert |Entries(fields)| == 0 by {
        EntriesLength(fields);
      }
      EntriesLength(Without(fields, wanted));
    }
  }

  lemma EntriesLength(fields: seq<Field>)
    ensures |Entries(fields)| == |fields|
  {}

  lemma {:induction false} WithoutShrinks(fields: seq<Field>, wanted: set<string>)
    ensures |Without(fields, wanted)| <= |fields|
    ensures |Without(fields, wanted)| == |fields| ==> Without(fields, wanted) == fields
    decreases |fields|
  {
    if fields != [] {
      WithoutShrinks(fields[1..], wanted);
    }
  }

  lemma {:induction false} JoinPrints(fields: seq<Field>)
    ensures JoinFields(Entries(fields)) == PrintFields(fields)
    decreases |fields|
  {
    if |fields| > 1 {
      JoinPrints(fields[1..]);
      assert Entries(fields)[1..] == Entries(fields[1..]);
    }
  }

  /** On printed objects, stripping is printing without those fields. */
  lemma StripPrints(fields: seq<Field>, wanted: set<string>, decode: Decoder)
    requires DecodesPlain(decode) && Printable(Compound(fields))
    ensures StripTopLevelKeys(Print(Compound(fields)), wanted, decode) == Print(Compound(Without(fields, wanted)))
  {
    KeptIsWithout(fields, wanted);
    if wanted == {} {
      NothingWanted(fields);
    } else {
      SplitInvertsPrint(fields, decode);
      WithoutShrinks(fields, wanted);
      JoinPrints(Without(fields, wanted));
    }
  }

  lemma {:induction false} NothingWanted(fields: seq<Field>)
    ensures Without(fields, {}) == fields
    decreases |fields|
  {
    if fields != [] {
      NothingWanted(fields[1..]);
    }
  }

  lemma {:induction false} WithoutTwice(fields: seq<Field>, wanted: set<string>)
    ensures Without(Without(fields, wanted), wanted) == Without(fields, wanted)
    ensures Printable(Compound(fields)) ==> Printable(Compound(Without(fields, wanted)))
    ensures forall i :: 0 <= i < |Without(fields, wanted)| ==> Without(fields, wanted)[i].key !in wanted
    decreases |fields|
  {
    if fields != [] {
      WithoutTwice(fields[1..], wanted);
      var rest := Without(fields[1..], wanted);
      if fields[0].key in wanted {
        assert [] + rest == rest;
      } else {
        assert ([fields[0]] + rest)[1..] == rest;
      }
      if Printable(Compound(fields)) {
        assert Printable(Compound(fields[1..]));
      }
    }
  }

  /** Stripping the same keys again changes nothing. */
  lemma StripIsIdempotent(fields: seq<Field>, wanted: set<string>, decode: Decoder)
    requires DecodesPlain(decode) && Printable(Compound(fields))
    ensures var once := StripTopLevelKeys(Print(Compound(fields)), wanted, decode);
            StripTopLevelKeys(once, wanted, decode) == once
  {
    WithoutTwice(fields, wanted);
    StripPrints(fields, wanted, decode);
    StripPrints(Without(fields, wanted), wanted, decode);
  }

  function Find(text: string, marker: string): Option<nat>
    decreases |text|
  {
    if |text| < |marker| then None
    else if text[..|marker|] == marker then Some(0)
    else if text == "" then None
    else match Find(text[1..], marker) case None => None case Some(i) => Some(i + 1)
  }

  lemma {:induction false} FindInBounds(text: string, marker: string)
    ensures Find(text, marker).Some? ==> Find(text, marker).value + |marker| <= |text|
    decreases |text|
  {
    if |text| >= |marker| && text[..|marker|] != marker && text != "" {
      FindInBounds(text[1..], marker);
    }
  }

  function AfterBlanks(rest: string): (r: string)
    ensures |r| <= |rest|
  {
    if rest != "" && (rest[0] == ' ' || rest[0] == '\t') then AfterBlanks(rest[1..]) else rest
  }

  /** The raw inventory text: the bracketed top-level field, or, when the text
      does not split, whatever follows the first occurrence of the quoted key. */
  function NbtFragment(nbt: string, key: string, decode: Decoder): Option<string> {
    match SplitSpec(nbt, decode)
    case Some(items) => FirstBracketed(items, key)
    case None =>
      var marker := PrintField(key, "");
      match Find(nbt, marker)
      case None => None
      case Some(position) =>
        FindInBounds(nbt, marker);
        var rest := AfterBlanks(nbt[position + |marker|..]);
        if rest == "" || (rest[0] != '[' && rest[0] != '{') then None
        else Some(Before(rest, AfterValue(rest)))
  }

  /** The first field of that name holding a list or an object. */
  function FirstContainer(fields: seq<Field>, key: string): Option<Value> {
    if fields == [] then None
    else if fields[0].key == key && (fields[0].value.List? || fields[0].value.Compound?) then Some(fields[0].value)
    else FirstContainer(fields[1..], key)
  }

  lemma {:induction false} FirstBracketedPrinted(fields: seq<Field>, key: string)
    requires Printable(Compound(fields))
    ensures FirstBracketed(Entries(fields), key) ==
              match FirstContainer(fields, key) case None => None case Some(v) => Some(Print(v))
    decreases |fields|
  {
    if fields != [] {
      assert Printable(Compound(fields[1..]));
      FirstBracketedPrinted(fields[1..], key);
      EntriesCons(fields);
      if fields[0].value.Atom? {
        assert fields[0].value.text[0] in fields[0].value.text;
      }
    }
  }

  /** On printed objects the fragment is the printed top-level container of that
      name, never one nested deeper. */
  lemma FragmentIsTopLevel(fields: seq<Field>, key: string, decode: Decoder)
    requires DecodesPlain(decode) && Printable(Compound(fields))
    ensures NbtFragment(Print(Compound(fields)), key, decode) ==
              match FirstContainer(fields, key) case None => None case Some(v) => Some(Print(v))
  {
    SplitInvertsPrint(fields, decode);
    FirstBracketedPrinted(fields, key);
  }
}
