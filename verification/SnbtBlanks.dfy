/** Objects that were not printed by the book: blanks between the tokens, a comma
    after the last field, and texts that do not split at all. */
module SnbtBlanks {
  import opened Snbt
  import opened Text
  import opened Wrappers

  /** The blanks around the tokens of one field. */
  datatype Gaps = Gaps(lead: string, afterKey: string, beforeValue: string, afterValue: string)

  predicate Spaces(s: string) {
    forall i :: 0 <= i < |s| ==> Space(s[i])
  }

  /** Blanks may stand anywhere between tokens; after a bare word they would be
      read as a part of it. */
  predicate Spaced(v: Value, g: Gaps) {
    Spaces(g.lead) && Spaces(g.afterKey) && Spaces(g.beforeValue) && Spaces(g.afterValue) && (v.Atom? ==> g.afterValue == "")
  }

  function PrintOne(f: Field, g: Gaps): string {
    "\"" + f.key + "\"" + (g.afterKey + (":" + (g.beforeValue + (Print(f.value) + g.afterValue))))
  }

  function PrintSpaced(fields: seq<Field>, gaps: seq<Gaps>): string
    requires |gaps| == |fields|
  {
    if fields == [] then ""
    else gaps[0].lead + (PrintOne(fields[0], gaps[0]) + if |fields| == 1 then "" else "," + PrintSpaced(fields[1..], gaps[1..]))
  }

  lemma {:induction false} SpacesSkipped(spaces: string, post: string)
    requires Spaces(spaces) && (post == "" || !Space(post[0]))
    ensures AfterSpaces(spaces + post) == post
    decreases |spaces|
  {
    if spaces == "" {
      assert spaces + post == post;
    } else {
      assert (spaces + post)[1..] == spaces[1..] + post;
      SpacesSkipped(spaces[1..], post);
    }
  }

  /** The value and the blanks after it are read up to the separator. */
  lemma ValueSpaced(v: Value, spaces: string, post: string)
    requires Printable(v) && Spaces(spaces) && (v.Atom? ==> spaces == "")
    requires post == "" || post[0] == ','
    ensures AfterValue(Print(v) + (spaces + post)) == spaces + post && AfterSpaces(spaces + post) == post
  {
    SpacesSkipped(spaces, post);
    hide AfterValue, Print;
    if v.Atom? {
      assert spaces + post == post;
      ValuePrinted(v, post);
    } else {
      ClosedPrinted(v, spaces + post);
    }
  }

  lemma OneSpaced(f: Field, g: Gaps, post: string, decode: Decoder)
    requires DecodesPlain(decode) && PlainKey(f.key) && Printable(f.value) && Spaced(f.value, g)
    requires post == "" || post[0] == ','
    ensures FirstField(PrintOne(f, g) + post, decode)
         == Some((Entry(f.key, Print(f.value)), if post == "" then "" else post[1..]))
  {
    hide AfterString, AfterNested, AfterAtom, AfterValue, AfterSpaces, Print, Printable, QuotedText, DecodesPlain, Spaces;
    var value := Print(f.value) + (g.afterValue + post);
    var colon := ":" + (g.beforeValue + value);
    var text := PrintOne(f, g) + post;
    assert text == "\"" + (f.key + "\"" + (g.afterKey + colon));
    DecodedPlain(f.key, decode);
    PlainIsQuoted(f.key);
    StringPrinted(f.key, g.afterKey + colon);
    assert text[1..] == f.key + "\"" + (g.afterKey + colon);
    assert Before(text, g.afterKey + colon) == "\"" + f.key + "\"";
    SpacesSkipped(g.afterKey, colon);
    assert colon[1..] == g.beforeValue + value;
    PrintedStart(f.value);
    SpacesSkipped(g.beforeValue, value);
    ValueSpaced(f.value, g.afterValue, post);
    assert Before(value, g.afterValue + post) == Print(f.value);
  }

  predicate AllSpaced(fields: seq<Field>, gaps: seq<Gaps>) {
    |gaps| == |fields| && forall i :: 0 <= i < |fields| ==> Spaced(fields[i].value, gaps[i])
  }

  /** The body of an object: with blanks between all tokens, and with or without
      a comma after the last field. */
  lemma {:induction false} BodySpaced(fields: seq<Field>, gaps: seq<Gaps>, comma: bool, decode: Decoder)
    requires DecodesPlain(decode) && Printable(Compound(fields)) && AllSpaced(fields, gaps) && (comma ==> fields != [])
    ensures Fields(PrintSpaced(fields, gaps) + (if comma then "," else ""), decode) == Some(Entries(fields))
    decreases |fields|
  {
    var end := if comma then "," else "";
    if fields == [] {
      assert "" + end == "";
    } else {
      var rest := PrintSpaced(fields[1..], gaps[1..]) + end;
      var post := if |fields| == 1 then end else "," + rest;
      assert PrintSpaced(fields, gaps) + end == gaps[0].lead + (PrintOne(fields[0], gaps[0]) + post);
      assert Printable(Compound(fields[1..])) && AllSpaced(fields[1..], gaps[1..]);
      if |fields| > 1 {
        BodySpaced(fields[1..], gaps[1..], comma, decode);
        assert post[1..] == rest;
      } else {
        NothingLeft(decode);
        assert comma ==> post[1..] == "";
        assert Entries(fields[1..]) == [];
      }
      hide Fields, PrintSpaced, PrintOne, Print, Printable, Entries, Spaced, DecodesPlain;
      OneMore(fields, gaps[0], post, decode);
    }
  }

  /** One field in front of a body that splits. */
  lemma OneMore(fields: seq<Field>, g: Gaps, post: string, decode: Decoder)
    requires fields != [] && DecodesPlain(decode) && Printable(Compound(fields)) && Spaced(fields[0].value, g)
    requires post == "" || post[0] == ','
    requires Fields(if post == "" then "" else post[1..], decode) == Some(Entries(fields[1..]))
    ensures Fields(g.lead + (PrintOne(fields[0], g) + post), decode) == Some(Entries(fields))
  {
    var one := PrintOne(fields[0], g) + post;
    assert PlainKey(fields[0].key) && Printable(fields[0].value);
    SpacesSkipped(g.lead, one);
    OneSpaced(fields[0], g, post, decode);
    EntriesCons(fields);
    assert one != "";
    hide FirstField, AfterSpaces, Print, PrintOne, DecodesPlain, Printable, Entries, Spaced;
  }

  lemma NothingLeft(decode: Decoder)
    ensures Fields("", decode) == Some([])
  {}

  predicate Blanks(s: string) {
    forall i :: 0 <= i < |s| ==> Blank(s[i])
  }

  lemma {:induction false} TrimPadded(left: string, core: string, right: string)
    requires Blanks(left) && Blanks(right) && core != "" && !Blank(core[0]) && !Blank(core[|core| - 1])
    ensures Trim(left + core + right) == core
    decreases |left| + |right|
  {
    var text := left + core + right;
    if left != "" {
      assert text[1..] == left[1..] + core + right;
      TrimPadded(left[1..], core, right);
    } else if right != "" {
      assert text[0] == core[0];
      assert text[..|text| - 1] == left + core + right[..|right| - 1];
      TrimPadded(left, core, right[..|right| - 1]);
    } else {
      assert text == core;
      TrimNothing(core);
    }
  }

  /** Splitting reads through all of it: the same keys and the same texts. */
  lemma SplitIgnoresBlanks(fields: seq<Field>, gaps: seq<Gaps>, comma: bool, left: string, right: string, decode: Decoder)
    requires DecodesPlain(decode) && Printable(Compound(fields)) && AllSpaced(fields, gaps) && (comma ==> fields != [])
    requires Blanks(left) && Blanks(right)
    ensures SplitSpec(left + ("{" + (PrintSpaced(fields, gaps) + if comma then "," else "") + "}") + right, decode)
         == Some(Entries(fields))
  {
    var body := PrintSpaced(fields, gaps) + if comma then "," else "";
    BodySpaced(fields, gaps, comma, decode);
    hide Fields, PrintSpaced;
    TrimPadded(left, "{" + body + "}", right);
    assert ("{" + body + "}")[1..|"{" + body + "}"| - 1] == body;
  }

  // ------------------------------------------------------- the other way round

  predicate Suffix(after: string, rest: string) {
    |after| <= |rest| && rest[|rest| - |after|..] == after
  }

  lemma SuffixOf(after: string, rest: string, k: nat)
    requires k <= |rest| && Suffix(after, rest[k..])
    ensures Suffix(after, rest)
  {
    assert rest[k..][|rest[k..]| - |after|..] == rest[|rest| - |after|..];
  }

  lemma {:induction false} AfterStringSuffix(rest: string)
    ensures Suffix(AfterString(rest), rest)
    decreases |rest|
  {
    if rest != "" {
      var k := if rest[0] != '\\' then 1 else if |rest| < 2 then 0 else 2;
      if rest[0] != '"' && k > 0 {
        AfterStringSuffix(rest[k..]);
        SuffixOf(AfterString(rest[k..]), rest, k);
      }
    }
  }

  lemma {:induction false} AfterNestedSuffix(rest: string, open: char, close: char, depth: int)
    ensures Suffix(AfterNested(rest, open, close, depth), rest)
    decreases |rest|
  {
    if rest != "" {
      if rest[0] == '"' {
        AfterStringSuffix(rest[1..]);
        AfterNestedSuffix(AfterString(rest[1..]), open, close, depth);
        SuffixChain(AfterNested(rest, open, close, depth), AfterString(rest[1..]), rest[1..]);
        SuffixOf(AfterNested(rest, open, close, depth), rest, 1);
      } else if rest[0] == open {
        AfterNestedSuffix(rest[1..], open, close, depth + 1);
        SuffixOf(AfterNested(rest, open, close, depth), rest, 1);
      } else if rest[0] == close && depth == 1 {
      } else {
        var deeper := if rest[0] == close then depth - 1 else depth;
        AfterNestedSuffix(rest[1..], open, close, deeper);
        SuffixOf(AfterNested(rest, open, close, depth), rest, 1);
      }
    }
  }

  lemma SuffixChain(a: string, b: string, c: string)
    requires Suffix(a, b) && Suffix(b, c)
    ensures Suffix(a, c)
  {
    assert b[|b| - |a|..] == c[|c| - |a|..];
  }

  lemma {:induction false} AfterAtomSuffix(rest: string)
    ensures Suffix(AfterAtom(rest), rest)
    decreases |rest|
  {
    if rest != "" && !EndsAtom(rest[0]) {
      AfterAtomSuffix(rest[1..]);
      SuffixOf(AfterAtom(rest[1..]), rest, 1);
    }
  }

  lemma AfterValueSuffix(rest: string)
    ensures Suffix(AfterValue(rest), rest)
  {
    hide AfterString, AfterNested, AfterAtom;
    if rest != "" {
      AfterStringSuffix(rest[1..]);
      SuffixOf(AfterString(rest[1..]), rest, 1);
      AfterNestedSuffix(rest, rest[0], Closer(rest[0]), 0);
      AfterAtomSuffix(rest);
    }
  }

  lemma {:induction false} AfterSpacesSuffix(rest: string)
    ensures Suffix(AfterSpaces(rest), rest) && Spaces(Before(rest, AfterSpaces(rest)))
    decreases |rest|
  {
    if rest != "" && Space(rest[0]) {
      AfterSpacesSuffix(rest[1..]);
      SuffixOf(AfterSpaces(rest[1..]), rest, 1);
      assert Before(rest, AfterSpaces(rest)) == [rest[0]] + Before(rest[1..], AfterSpaces(rest[1..]));
    }
  }

  lemma SpacesSplit(rest: string)
    ensures |AfterSpaces(rest)| <= |rest| && Spaces(Before(rest, AfterSpaces(rest)))
    ensures rest == Before(rest, AfterSpaces(rest)) + AfterSpaces(rest)
  {
    AfterSpacesSuffix(rest);
  }

  lemma ValueSplit(rest: string)
    ensures rest == Before(rest, AfterValue(rest)) + AfterValue(rest)
  {
    AfterValueSuffix(rest);
  }

  lemma KeySplit(r: string)
    requires r != ""
    ensures r == Before(r, AfterString(r[1..])) + AfterString(r[1..]) && Before(r, AfterString(r[1..])) != ""
  {
    AfterStringSuffix(r[1..]);
    SuffixOf(AfterString(r[1..]), r, 1);
  }

  /** Where the parts of a field are found. */
  lemma FieldParts(r: string, decode: Decoder)
    requires r != "" && FirstField(r, decode).Some?
    ensures var (entry, more) := FirstField(r, decode).value;
            var e := AfterString(r[1..]); var colon := AfterSpaces(e);
            && r[0] == '"' && decode(Before(r, e)) == Some(entry.key) && colon != "" && colon[0] == ':'
            && var v := AfterSpaces(colon[1..]); var n := AfterValue(v); var t := AfterSpaces(n);
               && entry.raw == Before(v, n)
               && (if t == "" then more == "" else t[0] == ',' && more == t[1..])
  {
    hide AfterString, AfterSpaces, AfterValue, Before;
  }

  lemma Chained(r: string, quoted: string, e: string, a: string, colon: string, b: string, v: string, raw: string,
                n: string, c: string, t: string)
    requires r == quoted + e && e == a + colon && colon != "" && colon[0] == ':' && colon[1..] == b + v
    requires v == raw + n && n == c + t
    ensures r == quoted + (a + (":" + (b + (raw + (c + t)))))
  {
    assert colon == ":" + colon[1..];
  }

  /** Whatever is taken for a field is one: a quoted key that decodes, a colon, the
      value's own text, and then a comma or nothing, with blanks between. */
  lemma FieldRebuilds(r: string, decode: Decoder) returns (quoted: string, a: string, b: string, c: string)
    requires r != "" && FirstField(r, decode).Some?
    ensures var (entry, more) := FirstField(r, decode).value;
            && decode(quoted) == Some(entry.key) && quoted != "" && quoted[0] == '"'
            && Spaces(a) && Spaces(b) && Spaces(c)
            && (r == quoted + (a + (":" + (b + (entry.raw + (c + ("," + more))))))
                || (more == "" && r == quoted + (a + (":" + (b + (entry.raw + (c + "")))))))
  {
    hide AfterString, AfterSpaces, AfterValue, Spaces, FirstField, Before;
    FieldParts(r, decode);
    var e := AfterString(r[1..]);
    var colon := AfterSpaces(e);
    var v := AfterSpaces(colon[1..]);
    var n := AfterValue(v);
    var t := AfterSpaces(n);
    KeySplit(r);
    SpacesSplit(e);
    SpacesSplit(colon[1..]);
    ValueSplit(v);
    SpacesSplit(n);
    quoted, a, b, c := Before(r, e), Before(e, colon), Before(colon[1..], v), Before(n, t);
    Chained(r, quoted, e, a, colon, b, v, Before(v, n), n, c, t);
    assert r[0] == quoted[0];
    assert t != "" ==> t == "," + t[1..];
  }

  // -------------------------------------------------- texts that do not split

  predicate Stands(text: string, marker: string, i: nat) {
    i + |marker| <= |text| && text[i..i + |marker|] == marker
  }

  lemma StandsLater(text: string, marker: string, j: nat)
    requires text != "" && j > 0
    ensures Stands(text, marker, j) <==> Stands(text[1..], marker, j - 1)
  {
    if j + |marker| <= |text| {
      assert text[j..j + |marker|] == text[1..][j - 1..j - 1 + |marker|];
    }
  }

  /** The first place where the marker stands, if there is any. */
  lemma {:induction false} FindsFirst(text: string, marker: string)
    ensures match Find(text, marker)
            case Some(i) => Stands(text, marker, i) && forall j: nat :: j < i ==> !Stands(text, marker, j)
            case None => forall j: nat :: !Stands(text, marker, j)
    decreases |text|
  {
    if |text| >= |marker| && text[..|marker|] != marker && text != "" {
      FindsFirst(text[1..], marker);
      forall j: nat | j > 0 ensures Stands(text, marker, j) <==> Stands(text[1..], marker, j - 1) {
        StandsLater(text, marker, j);
      }
      assert !Stands(text, marker, 0);
    }
  }

  lemma {:induction false} BlanksSkipped(blanks: string, post: string)
    requires forall i :: 0 <= i < |blanks| ==> blanks[i] == ' ' || blanks[i] == '\t'
    requires post != "" && post[0] != ' ' && post[0] != '\t'
    ensures AfterBlanks(blanks + post) == post
    decreases |blanks|
  {
    if blanks == "" {
      assert blanks + post == post;
    } else {
      assert (blanks + post)[1..] == blanks[1..] + post;
      BlanksSkipped(blanks[1..], post);
    }
  }

  /** The key is found where it stands first. */
  lemma FoundAt(pre: string, marker: string, rest: string)
    requires forall j: nat :: j < |pre| ==> !Stands(pre + marker + rest, marker, j)
    ensures Find(pre + marker + rest, marker) == Some(|pre|)
  {
    var text := pre + marker + rest;
    assert text[|pre|..|pre| + |marker|] == marker;
    hide Find;
    assert Stands(text, marker, |pre|);
    FindsFirst(text, marker);
  }

  /** The container is read off the front of what follows the key. */
  lemma FragmentAfter(blanks: string, v: Value, post: string)
    requires Printable(v) && (v.List? || v.Compound?)
    requires forall i :: 0 <= i < |blanks| ==> blanks[i] == ' ' || blanks[i] == '\t'
    ensures var rest := AfterBlanks(blanks + (Print(v) + post));
            rest != "" && (rest[0] == '[' || rest[0] == '{') && Before(rest, AfterValue(rest)) == Print(v)
  {
    assert Print(v) != "" && (Print(v)[0] == '[' || Print(v)[0] == '{');
    hide AfterBlanks, AfterValue, Print;
    BlanksSkipped(blanks, Print(v) + post);
    ClosedPrinted(v, post);
    assert Before(Print(v) + post, post) == Print(v);
  }

  /** In a text that does not split, the fragment is the container after the
      first place where its quoted key and a colon stand, blanks aside. */
  lemma FragmentFallsBack(pre: string, key: string, blanks: string, v: Value, post: string, decode: Decoder)
    requires Printable(v) && (v.List? || v.Compound?)
    requires forall i :: 0 <= i < |blanks| ==> blanks[i] == ' ' || blanks[i] == '\t'
    requires var text := pre + ("\"" + key + "\":") + (blanks + (Print(v) + post));
             SplitSpec(text, decode).None? && forall j: nat :: j < |pre| ==> !Stands(text, "\"" + key + "\":", j)
    ensures NbtFragment(pre + ("\"" + key + "\":") + (blanks + (Print(v) + post)), key, decode) == Some(Print(v))
  {
    var marker, rest := "\"" + key + "\":", blanks + (Print(v) + post);
    assert PrintField(key, "") == marker;
    assert (pre + marker + rest)[|pre| + |marker|..] == rest;
    hide AfterBlanks, AfterValue, SplitSpec, Find, Print, Stands, Before;
    FoundAt(pre, marker, rest);
    FragmentAfter(blanks, v, post);
  }

  /** Without that place there is none. */
  lemma FragmentNeedsItsKey(text: string, key: string, decode: Decoder)
    requires SplitSpec(text, decode).None? && forall j: nat :: !Stands(text, "\"" + key + "\":", j)
    ensures NbtFragment(text, key, decode).None?
  {
    hide SplitSpec, Find;
    FindsFirst(text, "\"" + key + "\":");
    assert PrintField(key, "") == "\"" + key + "\":";
  }
}
