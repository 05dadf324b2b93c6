/**
 A codec of the kind OutboxSend takes for granted: every JSON value has a text, the text gives
 the value back, and a string's text is longer than the string. Texts here are tagged rather
 than in JSON's own syntax; what counts is that the requirements can be met.
 */
module JsonCodec {
  import opened Common
  import opened Decimal
  import opened OutboxSend

  /** Each character marked, and an end mark. */
  function Quoted(s: string): string {
    if s == [] then ";" else ['c'] + ([s[0]] + Quoted(s[1..]))
  }

  function Tag(v: Tree): char {
    match v
    case JNull => '0'
    case JBool(b) => if b then 't' else 'f'
    case JNumber(_) => 'n'
    case JString(_) => 's'
    case JArray(_) => 'a'
    case JObject(_) => 'o'
  }

  function Write(v: Tree): string
    decreases v, 1
  {
    [Tag(v)] + WriteRest(v)
  }

  function WriteRest(v: Tree): string
    decreases v, 0
  {
    match v
    case JNull => ""
    case JBool(_) => ""
    case JNumber(n) => Quoted(FormatInt(n.mantissa)) + Quoted(FormatInt(n.exponent))
    case JString(s) => Quoted(s)
    case JArray(items) => WriteItems(items)
    case JObject(fields) => WriteFields(fields)
  }

  function WriteItems(items: seq<Tree>): string
    decreases items, 1
  {
    if items == [] then ";" else ['c'] + (Write(items[0]) + WriteItems(items[1..]))
  }

  function WriteField(f: Field): string
    decreases f, 1
  {
    Quoted(f.key) + Write(f.val)
  }

  function WriteFields(fields: seq<Field>): string
    decreases fields, 1
  {
    if fields == [] then ";" else ['c'] + (WriteField(fields[0]) + WriteFields(fields[1..]))
  }

  // ---------------------------------------------------------------------------------------
  // No text is the beginning of another, so a text determines what it begins with
  // ---------------------------------------------------------------------------------------

  lemma Regroup(a: string, b: string, c: string)
    ensures (a + b) + c == a + (b + c)
  {
  }

  lemma Behead(a: char, s: string, x: string, b: char, t: string, y: string)
    requires ([a] + s) + x == ([b] + t) + y
    ensures a == b && s + x == t + y
  {
    var z := ([a] + s) + x;
    assert z[0] == a && z[0] == b;
    assert z[1..] == s + x;
    assert (([b] + t) + y)[1..] == t + y;
  }

  lemma EndMark(x: string, s: string, y: string)
    requires s != [] && s[0] != ';'
    ensures ";" + x != s + y
  {
    assert (";" + x)[0] == ';' && (s + y)[0] == s[0];
  }

  lemma {:induction false} QuotedEnds(s: string, t: string, x: string, y: string)
    requires Quoted(s) + x == Quoted(t) + y
    ensures s == t && x == y
  {
    if s == [] && t == [] {
      assert (";" + x)[1..] == x && (";" + y)[1..] == y;
    } else if s == [] {
      EndMark(x, Quoted(t), y);
    } else if t == [] {
      EndMark(y, Quoted(s), x);
    } else {
      Behead('c', [s[0]] + Quoted(s[1..]), x, 'c', [t[0]] + Quoted(t[1..]), y);
      Behead(s[0], Quoted(s[1..]), x, t[0], Quoted(t[1..]), y);
      QuotedEnds(s[1..], t[1..], x, y);
      assert s == [s[0]] + s[1..] && t == [t[0]] + t[1..];
    }
  }

  lemma NumberEnds(n: Number, m: Number, x: string, y: string)
    requires WriteRest(JNumber(n)) + x == WriteRest(JNumber(m)) + y
    ensures n == m && x == y
  {
    var a, b := Quoted(FormatInt(n.exponent)), Quoted(FormatInt(m.exponent));
    Regroup(Quoted(FormatInt(n.mantissa)), a, x);
    Regroup(Quoted(FormatInt(m.mantissa)), b, y);
    QuotedEnds(FormatInt(n.mantissa), FormatInt(m.mantissa), a + x, b + y);
    QuotedEnds(FormatInt(n.exponent), FormatInt(m.exponent), x, y);
    FormatIntInjective(n.mantissa, m.mantissa);
    FormatIntInjective(n.exponent, m.exponent);
  }

  lemma {:induction false} WriteEnds(v: Tree, w: Tree, x: string, y: string)
    requires Write(v) + x == Write(w) + y
    ensures v == w && x == y
    decreases v, 0
  {
    Behead(Tag(v), WriteRest(v), x, Tag(w), WriteRest(w), y);
    assert "" + x == x && "" + y == y;
    match v
    case JNull =>
    case JBool(_) =>
    case JNumber(n) => NumberEnds(n, w.n, x, y);
    case JString(s) => QuotedEnds(s, w.s, x, y);
    case JArray(items) => ItemsEnd(items, w.items, x, y);
    case JObject(fields) => FieldsEnd(fields, w.fields, x, y);
  }

  lemma {:induction false} ItemsEnd(s: seq<Tree>, t: seq<Tree>, x: string, y: string)
    requires WriteItems(s) + x == WriteItems(t) + y
    ensures s == t && x == y
    decreases s, 1
  {
    if s == [] && t == [] {
      assert (";" + x)[1..] == x && (";" + y)[1..] == y;
    } else if s == [] {
      EndMark(x, WriteItems(t), y);
    } else if t == [] {
      EndMark(y, WriteItems(s), x);
    } else {
      var a, b := WriteItems(s[1..]), WriteItems(t[1..]);
      Behead('c', Write(s[0]) + a, x, 'c', Write(t[0]) + b, y);
      Regroup(Write(s[0]), a, x);
      Regroup(Write(t[0]), b, y);
      WriteEnds(s[0], t[0], a + x, b + y);
      ItemsEnd(s[1..], t[1..], x, y);
      assert s == [s[0]] + s[1..] && t == [t[0]] + t[1..];
    }
  }

  lemma FieldEnds(f: Field, g: Field, x: string, y: string)
    requires WriteField(f) + x == WriteField(g) + y
    ensures f == g && x == y
    decreases f, 1
  {
    Regroup(Quoted(f.key), Write(f.val), x);
    Regroup(Quoted(g.key), Write(g.val), y);
    QuotedEnds(f.key, g.key, Write(f.val) + x, Write(g.val) + y);
    WriteEnds(f.val, g.val, x, y);
  }

  lemma {:induction false} FieldsEnd(s: seq<Field>, t: seq<Field>, x: string, y: string)
    requires WriteFields(s) + x == WriteFields(t) + y
    ensures s == t && x == y
    decreases s, 1
  {
    if s == [] && t == [] {
      assert (";" + x)[1..] == x && (";" + y)[1..] == y;
    } else if s == [] {
      EndMark(x, WriteFields(t), y);
    } else if t == [] {
      EndMark(y, WriteFields(s), x);
    } else {
      var a, b := WriteFields(s[1..]), WriteFields(t[1..]);
      Behead('c', WriteField(s[0]) + a, x, 'c', WriteField(t[0]) + b, y);
      Regroup(WriteField(s[0]), a, x);
      Regroup(WriteField(t[0]), b, y);
      FieldEnds(s[0], t[0], a + x, b + y);
      FieldsEnd(s[1..], t[1..], x, y);
      assert s == [s[0]] + s[1..] && t == [t[0]] + t[1..];
    }
  }

  // ---------------------------------------------------------------------------------------
  // The codec
  // ---------------------------------------------------------------------------------------

  lemma {:induction false} QuotedIsLonger(s: string)
    ensures |Quoted(s)| > |s|
  {
    if s != [] {
      QuotedIsLonger(s[1..]);
    }
  }

  /** The value with this text, if there is one. */
  ghost function Parse(t: string): Option<Json> {
    if v: Json :| Write(v) == t then Some(v) else None
  }

  lemma ParseWrite(v: Json)
    ensures Parse(Write(v)) == Some(v)
  {
    var again: Json :| Write(again) == Write(v) && Parse(Write(v)) == Some(again);
    assert Write(again) + "" == Write(v) + "";
    WriteEnds(again, v, "", "");
  }

  lemma ParseStringIsShorter(t: string, s: string)
    requires Parse(t) == Some(JString(s))
    ensures |s| < |t|
  {
    assert t == Write(JString(s)) == ['s'] + WriteRest(JString(s));
    assert WriteRest(JString(s)) == Quoted(s);
    QuotedIsLonger(s);
  }

  /** So what OutboxSend takes for granted of the JSON library can be had. */
  lemma FaithfulCodecExists() returns (c: Codec)
    ensures Faithful(c)
  {
    c := Codec(v => Write(v), t => Parse(t));
    forall v: Json ensures c.parse(c.write(v)) == Some(v) {
      ParseWrite(v);
    }
    forall t | c.parse(t).Some? && c.parse(t).value.JString? ensures |c.parse(t).value.s| < |t| {
      ParseStringIsShorter(t, c.parse(t).value.s);
    }
  }
}
