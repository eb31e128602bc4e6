/**
 * A way of printing and parsing JSON that loses nothing, so what is said of every lossless library is
 * not said of none.  Lengths and numbers are printed in unary; no text is the beginning of another.
 */
module JsonCodec {
  import opened Options
  import opened SessionLog

  // ---------------------------------------------------------------- printing

  function Unary(n: nat): string {
    if n == 0 then "0" else "1" + Unary(n - 1)
  }

  function PrintText(s: string): string {
    Unary(|s|) + s
  }

  function PrintInt(i: int): string {
    if i < 0 then "-" + Unary(-i) else "+" + Unary(i)
  }

  function Print(j: Json): string {
    match j
    case JNull => "n"
    case JBool(b) => if b then "t" else "f"
    case JInt(i) => "i" + PrintInt(i)
    case JFloat(index) => "d" + Unary(index)
    case JString(s) => "s" + PrintText(s)
    case JArray(items) => "[" + PrintItems(items)
    case JObject(fields) => "{" + PrintFields(fields)
  }

  function PrintItems(items: seq<Json>): string {
    if items == [] then "]" else "," + (Print(items[0]) + PrintItems(items[1..]))
  }

  function PrintField(field: (string, Json)): string {
    PrintText(field.0) + Print(field.1)
  }

  function PrintFields(fields: seq<(string, Json)>): string {
    if fields == [] then "}" else "," + (PrintField(fields[0]) + PrintFields(fields[1..]))
  }

  // ---------------------------------------------------------------- what was printed can be told

  lemma Cancel(x: string, a: string, b: string)
    requires x + a == x + b
    ensures a == b
  {
    assert (x + a)[|x|..] == a && (x + b)[|x|..] == b;
  }

  lemma Regroup(x: string, a: string, u: string)
    ensures (x + a) + u == x + (a + u)
  {}

  lemma {:induction false} UnaryTells(m: nat, n: nat, u: string, v: string)
    requires Unary(m) + u == Unary(n) + v
    ensures m == n && u == v
  {
    assert (Unary(m) + u)[0] == Unary(m)[0] && (Unary(n) + v)[0] == Unary(n)[0];
    if m == 0 {
      Cancel("0", u, v);
    } else {
      Regroup("1", Unary(m - 1), u);
      Regroup("1", Unary(n - 1), v);
      Cancel("1", Unary(m - 1) + u, Unary(n - 1) + v);
      UnaryTells(m - 1, n - 1, u, v);
    }
  }

  lemma {:induction false} TextTells(s: string, t: string, u: string, v: string)
    requires PrintText(s) + u == PrintText(t) + v
    ensures s == t && u == v
  {
    Regroup(Unary(|s|), s, u);
    Regroup(Unary(|t|), t, v);
    UnaryTells(|s|, |t|, s + u, t + v);
    assert (s + u)[..|s|] == s && (t + v)[..|t|] == t;
    Cancel(s, u, v);
  }

  lemma IntTells(i: int, k: int, u: string, v: string)
    requires PrintInt(i) + u == PrintInt(k) + v
    ensures i == k && u == v
  {
    assert (PrintInt(i) + u)[0] == PrintInt(i)[0] && (PrintInt(k) + v)[0] == PrintInt(k)[0];
    var (x, y) := (if i < 0 then -i else i, if k < 0 then -k else k);
    var sign := if i < 0 then "-" else "+";
    Regroup(sign, Unary(x), u);
    Regroup(sign, Unary(y), v);
    Cancel(sign, Unary(x) + u, Unary(y) + v);
    UnaryTells(x, y, u, v);
  }

  /** The character a printed value starts with. */
  function Tag(j: Json): string {
    match j
    case JNull => "n"
    case JBool(b) => if b then "t" else "f"
    case JInt(_) => "i"
    case JFloat(_) => "d"
    case JString(_) => "s"
    case JArray(_) => "["
    case JObject(_) => "{"
  }

  function Body(j: Json): string {
    match j
    case JInt(i) => PrintInt(i)
    case JFloat(index) => Unary(index)
    case JString(s) => PrintText(s)
    case JArray(items) => PrintItems(items)
    case JObject(fields) => PrintFields(fields)
    case _ => ""
  }

  lemma {:induction false} SameTag(a: Json, b: Json, u: string, v: string)
    requires Print(a) + u == Print(b) + v
    ensures Tag(a) == Tag(b) && Body(a) + u == Body(b) + v
  {
    assert Print(a) == Tag(a) + Body(a) && Print(b) == Tag(b) + Body(b);
    assert (Print(a) + u)[0] == Tag(a)[0] && (Print(b) + v)[0] == Tag(b)[0];
    assert Tag(a) == Tag(b);
    Regroup(Tag(a), Body(a), u);
    Regroup(Tag(b), Body(b), v);
    Cancel(Tag(a), Body(a) + u, Body(b) + v);
  }

  lemma {:induction false} PrintTells(a: Json, b: Json, u: string, v: string)
    requires Print(a) + u == Print(b) + v
    ensures a == b && u == v
    decreases a
  {
    SameTag(a, b, u, v);
    match a
    case JInt(i) => IntTells(i, b.i, u, v);
    case JFloat(index) => UnaryTells(index, b.index, u, v);
    case JString(s) => TextTells(s, b.s, u, v);
    case JArray(items) => ItemsTell(items, b.items, u, v);
    case JObject(fields) => FieldsTell(fields, b.fields, u, v);
    case _ => Cancel("", u, v);
  }

  lemma {:induction false} ItemsTell(a: seq<Json>, b: seq<Json>, u: string, v: string)
    requires PrintItems(a) + u == PrintItems(b) + v
    ensures a == b && u == v
    decreases a
  {
    assert (PrintItems(a) + u)[0] == PrintItems(a)[0] && (PrintItems(b) + v)[0] == PrintItems(b)[0];
    if a == [] {
      Cancel("]", u, v);
    } else {
      var (x, y) := (Print(a[0]) + PrintItems(a[1..]), Print(b[0]) + PrintItems(b[1..]));
      Regroup(",", x, u);
      Regroup(",", y, v);
      Cancel(",", x + u, y + v);
      Regroup(Print(a[0]), PrintItems(a[1..]), u);
      Regroup(Print(b[0]), PrintItems(b[1..]), v);
      PrintTells(a[0], b[0], PrintItems(a[1..]) + u, PrintItems(b[1..]) + v);
      ItemsTell(a[1..], b[1..], u, v);
    }
  }

  lemma {:induction false} FieldTells(a: (string, Json), b: (string, Json), u: string, v: string)
    requires PrintField(a) + u == PrintField(b) + v
    ensures a == b && u == v
    decreases a
  {
    Regroup(PrintText(a.0), Print(a.1), u);
    Regroup(PrintText(b.0), Print(b.1), v);
    TextTells(a.0, b.0, Print(a.1) + u, Print(b.1) + v);
    PrintTells(a.1, b.1, u, v);
  }

  lemma {:induction false} FieldsTell(a: seq<(string, Json)>, b: seq<(string, Json)>, u: string, v: string)
    requires PrintFields(a) + u == PrintFields(b) + v
    ensures a == b && u == v
    decreases a
  {
    assert (PrintFields(a) + u)[0] == PrintFields(a)[0] && (PrintFields(b) + v)[0] == PrintFields(b)[0];
    if a == [] {
      Cancel("}", u, v);
    } else {
      var (x, y) := (PrintField(a[0]) + PrintFields(a[1..]), PrintField(b[0]) + PrintFields(b[1..]));
      Regroup(",", x, u);
      Regroup(",", y, v);
      Cancel(",", x + u, y + v);
      Regroup(PrintField(a[0]), PrintFields(a[1..]), u);
      Regroup(PrintField(b[0]), PrintFields(b[1..]), v);
      FieldTells(a[0], b[0], PrintFields(a[1..]) + u, PrintFields(b[1..]) + v);
      FieldsTell(a[1..], b[1..], u, v);
    }
  }

  // ---------------------------------------------------------------- a lossless library

  ghost predicate IsPrinted(s: string, j: Json) {
    Proper(j) && Print(j) == s
  }

  ghost function Parse(s: string): Option<Json> {
    if j :| IsPrinted(s, j) then Some(j) else None
  }

  lemma {:induction false} ParseInverts(j: Json)
    requires Proper(j)
    ensures Parse(Print(j)) == Some(j)
  {
    assert IsPrinted(Print(j), j);
    forall k | IsPrinted(Print(j), k) ensures k == j {
      PrintTells(j, k, "", "");
    }
  }

  /** There are functions that print and parse as assumed of `json`. */
  lemma LosslessIsPossible() returns (c: Codec)
    ensures Lossless(c)
  {
    c := Codec(j => Print(j), s => Parse(s));
    forall j | Proper(j) ensures c.loads(c.dumps(j)) == Some(j) {
      ParseInverts(j);
    }
    forall s | c.loads(s).Some? ensures Proper(c.loads(s).value) {
      assert IsPrinted(s, Parse(s).value);
    }
    assert Print(JObject([])) == "{}";
    ParseInverts(JObject([]));
  }
}
