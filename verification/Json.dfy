/** JSON values and the text `JSON.stringify` prints for them (RFC 8259, sections 4 and 7), with the
    proof that different values print differently. */
module Json {
  import opened Domain

  /** `Num` carries the printed form of a finite number; `Infinite` is what a number too large for a
      double is read as, and prints as null. */
  datatype Json =
    | Null
    | Bool(truth: bool)
    | Num(digits: string)
    | Infinite
    | Str(text: string)
    | Arr(items: Items)
    | Obj(members: Members)

  datatype Items = NoItem | Item(value: Json, rest: Items)

  datatype Members = NoMember | Member(key: string, value: Json, rest: Members)

  // ---------------------------------------------------------------- printing

  function Hex(n: nat): char
    requires n < 16
  {
    if n < 10 then ('0' as int + n) as char else ('a' as int + n - 10) as char
  }

  /** The letter of a two-character escape. */
  function Letter(c: char): Option<char> {
    var n := c as int;
    if n == 34 then Some('\"')
    else if n == 92 then Some('\\')
    else if n == 8 then Some('b')
    else if n == 9 then Some('t')
    else if n == 10 then Some('n')
    else if n == 12 then Some('f')
    else if n == 13 then Some('r')
    else None
  }

  /** A character inside a string literal. */
  function Escape(c: char): string {
    var n := c as int;
    if Letter(c).Some? then ['\\', Letter(c).value]
    else if n < 32 then ['\\', 'u', '0', '0', Hex(n / 16), Hex(n % 16)]
    else [c]
  }

  /** The characters of a string literal and its closing quote. */
  function Quoted(s: string): string {
    if s == "" then "\"" else Escape(s[0]) + Quoted(s[1..])
  }

  function Quote(s: string): string {
    "\"" + Quoted(s)
  }

  function Print(v: Json): string {
    match v
    case Null => "null"
    case Infinite => "null"
    case Bool(truth) => if truth then "true" else "false"
    case Num(digits) => digits
    case Str(text) => Quote(text)
    case Arr(items) => "[" + PrintItems(items, true)
    case Obj(members) => "{" + PrintMembers(members, true)
  }

  /** The elements that are left and the closing bracket. */
  function PrintItems(items: Items, first: bool): string {
    match items
    case NoItem => "]"
    case Item(v, rest) => (if first then "" else ",") + (Print(v) + PrintItems(rest, false))
  }

  function PrintMembers(members: Members, first: bool): string {
    match members
    case NoMember => "}"
    case Member(k, v, rest) =>
      (if first then "" else ",") + (Quote(k) + (":" + (Print(v) + PrintMembers(rest, false))))
  }

  // ---------------------------------------------------------------- what is printed faithfully

  predicate NumberChar(c: char) {
    '0' <= c <= '9' || c == '-' || c == '+' || c == '.' || c == 'e'
  }

  predicate Numeral(s: string) {
    s != "" && ('0' <= s[0] <= '9' || s[0] == '-') && forall i :: 0 <= i < |s| ==> NumberChar(s[i])
  }

  predicate Finite(v: Json) {
    match v
    case Num(digits) => Numeral(digits)
    case Infinite => false
    case Arr(items) => FiniteItems(items)
    case Obj(members) => FiniteMembers(members)
    case _ => true
  }

  predicate FiniteItems(items: Items) {
    items.Item? ==> Finite(items.value) && FiniteItems(items.rest)
  }

  predicate FiniteMembers(members: Members) {
    members.Member? ==> Finite(members.value) && FiniteMembers(members.rest)
  }

  // ---------------------------------------------------------------- reading back

  /** No number goes on into `s`. */
  predicate Stops(s: string) {
    s == "" || !NumberChar(s[0])
  }

  lemma NotLonger(a: string, b: string, s: string, t: string)
    requires forall i :: 0 <= i < |b| ==> NumberChar(b[i])
    requires Stops(s) && a + s == b + t
    ensures |b| <= |a|
  {
    var u := a + s;
    assert forall i :: 0 <= i < |b| ==> u[i] == b[i];
    assert |a| < |u| ==> u[|a|] == s[0] && !NumberChar(u[|a|]);
  }

  lemma NumeralsApart(a: string, b: string, s: string, t: string)
    requires forall i :: 0 <= i < |a| ==> NumberChar(a[i])
    requires forall i :: 0 <= i < |b| ==> NumberChar(b[i])
    requires Stops(s) && Stops(t) && a + s == b + t
    ensures a == b && s == t
  {
    NotLonger(a, b, s, t);
    NotLonger(b, a, t, s);
    Split(a, s);
    Split(b, t);
  }

  lemma Split(a: string, s: string)
    ensures (a + s)[..|a|] == a && (a + s)[|a|..] == s
  {
  }

  /** A common beginning can be taken off. */
  lemma Unwrap(lead: string, a: string, b: string, s: string, t: string)
    requires lead + a + s == lead + b + t
    ensures a + s == b + t
  {
    assert lead + a + s == lead + (a + s) && lead + b + t == lead + (b + t);
    Split(lead, a + s);
    Split(lead, b + t);
  }

  lemma ControlsApart(c: char, d: char)
    requires c as int < 32 && d as int < 32
    requires Hex(c as int / 16) == Hex(d as int / 16) && Hex(c as int % 16) == Hex(d as int % 16)
    ensures c == d
  {
  }

  /** How an escape begins tells its kind and its length. */
  lemma EscapeReads(c: char, s: string)
    ensures
      var u := Escape(c) + s;
      && |u| > 0 && u[0] != '\"'
      && (u[0] != '\\' <==> Letter(c).None? && c as int >= 32)
      && (u[0] != '\\' ==> u[0] == c && |Escape(c)| == 1)
      && (u[0] == '\\' ==>
            && |u| > 1 && (u[1] == 'u' <==> Letter(c).None?)
            && (u[1] != 'u' ==> Letter(c) == Some(u[1]) && |Escape(c)| == 2)
            && (u[1] == 'u' ==>
                  c as int < 32 && |Escape(c)| == 6 && |u| > 5
                  && u[4] == Hex(c as int / 16) && u[5] == Hex(c as int % 16)))
  {
  }

  lemma EscapesApart(c: char, d: char, s: string, t: string)
    requires Escape(c) + s == Escape(d) + t
    ensures c == d && s == t
  {
    var u := Escape(c) + s;
    EscapeReads(c, s);
    EscapeReads(d, t);
    if u[0] == '\\' && u[1] == 'u' { ControlsApart(c, d); }
    Split(Escape(c), s);
    Split(Escape(d), t);
  }

  lemma QuotedReads(a: string, s: string)
    ensures
      var u := Quoted(a) + s;
      && |u| > 0 && (u[0] == '\"' <==> a == "")
      && u == if a == "" then "\"" + s else Escape(a[0]) + (Quoted(a[1..]) + s)
  {
    if a != "" {
      assert Quoted(a) + s == Escape(a[0]) + (Quoted(a[1..]) + s);
      EscapeReads(a[0], Quoted(a[1..]) + s);
    }
  }

  lemma {:induction false} QuotedApart(a: string, b: string, s: string, t: string)
    requires Quoted(a) + s == Quoted(b) + t
    ensures a == b && s == t
    decreases |a|
  {
    QuotedReads(a, s);
    QuotedReads(b, t);
    if a == "" {
      Split("\"", s);
      Split("\"", t);
    } else {
      EscapesApart(a[0], b[0], Quoted(a[1..]) + s, Quoted(b[1..]) + t);
      QuotedApart(a[1..], b[1..], s, t);
      assert a == [a[0]] + a[1..] && b == [b[0]] + b[1..];
    }
  }

  lemma QuotesApart(a: string, b: string, s: string, t: string)
    requires Quote(a) + s == Quote(b) + t
    ensures a == b && s == t
  {
    Unwrap("\"", Quoted(a), Quoted(b), s, t);
    QuotedApart(a, b, s, t);
  }

  /** The first character tells the kind of a value. */
  function Lead(v: Json): char
    requires Finite(v)
  {
    match v
    case Null => 'n'
    case Bool(truth) => if truth then 't' else 'f'
    case Num(digits) => digits[0]
    case Str(_) => '\"'
    case Arr(_) => '['
    case Obj(_) => '{'
    case Infinite => 'n'
  }

  lemma Leads(v: Json, s: string)
    requires Finite(v)
    ensures Print(v) != "" && (Print(v) + s)[0] == Print(v)[0] == Lead(v)
    ensures Lead(v) != ']' && Lead(v) != '}' && Lead(v) != ','
  {
  }

  lemma SameKind(v: Json, w: Json, s: string, t: string)
    requires Finite(v) && Finite(w) && Print(v) + s == Print(w) + t
    ensures v.Num? == w.Num? && v.Str? == w.Str? && v.Arr? == w.Arr? && v.Obj? == w.Obj?
  {
    Leads(v, s);
    Leads(w, t);
  }

  lemma LiteralsApart(v: Json, w: Json, s: string, t: string)
    requires Finite(v) && Finite(w) && (v.Null? || v.Bool?) && Print(v) + s == Print(w) + t
    ensures v == w && s == t
  {
    Leads(v, s);
    Leads(w, t);
    Split(Print(v), s);
    Split(Print(w), t);
  }

  /** A printed value can be read off the front of any text: two values whose printed forms are followed
      by something that ends a number are the same value, followed by the same text. */
  lemma {:induction false} PrintsApart(v: Json, w: Json, s: string, t: string)
    requires Finite(v) && Finite(w) && Stops(s) && Stops(t)
    requires Print(v) + s == Print(w) + t
    ensures v == w && s == t
    decreases v
  {
    SameKind(v, w, s, t);
    match v
    case Num(a) => NumeralsApart(a, w.digits, s, t);
    case Str(a) => QuotesApart(a, w.text, s, t);
    case Arr(items) =>
      Unwrap("[", PrintItems(items, true), PrintItems(w.items, true), s, t);
      ItemsApart(items, w.items, true, s, t);
    case Obj(members) =>
      Unwrap("{", PrintMembers(members, true), PrintMembers(w.members, true), s, t);
      MembersApart(members, w.members, true, s, t);
    case _ => LiteralsApart(v, w, s, t);
  }

  lemma ItemsShape(items: Items, first: bool, s: string)
    requires FiniteItems(items)
    ensures
      var u := PrintItems(items, first) + s;
      match items
      case NoItem => u == "]" + s
      case Item(v, rest) =>
        u == (if first then "" else ",") + (Print(v) + (PrintItems(rest, false) + s)) && u[0] != ']'
  {
  }

  lemma {:induction false} ItemsApart(a: Items, b: Items, first: bool, s: string, t: string)
    requires FiniteItems(a) && FiniteItems(b) && PrintItems(a, first) + s == PrintItems(b, first) + t
    ensures a == b && s == t
    decreases a
  {
    ItemsShape(a, first, s);
    ItemsShape(b, first, t);
    if a.NoItem? {
      Split("]", s);
      Split("]", t);
    } else {
      var lead := if first then "" else ",";
      var restA, restB := PrintItems(a.rest, false) + s, PrintItems(b.rest, false) + t;
      Split(lead, Print(a.value) + restA);
      Split(lead, Print(b.value) + restB);
      ItemsShape(a.rest, false, s);
      ItemsShape(b.rest, false, t);
      PrintsApart(a.value, b.value, restA, restB);
      ItemsApart(a.rest, b.rest, false, s, t);
    }
  }

  lemma MembersShape(members: Members, first: bool, s: string)
    ensures
      var u := PrintMembers(members, first) + s;
      match members
      case NoMember => u == "}" + s
      case Member(k, v, rest) =>
        u == (if first then "" else ",") + (Quote(k) + (":" + (Print(v) + (PrintMembers(rest, false) + s))))
            && u[0] != '}'
  {
  }

  lemma {:induction false} MembersApart(a: Members, b: Members, first: bool, s: string, t: string)
    requires FiniteMembers(a) && FiniteMembers(b) && PrintMembers(a, first) + s == PrintMembers(b, first) + t
    ensures a == b && s == t
    decreases a
  {
    MembersShape(a, first, s);
    MembersShape(b, first, t);
    if a.NoMember? {
      Split("}", s);
      Split("}", t);
    } else {
      var lead := if first then "" else ",";
      var restA, restB := PrintMembers(a.rest, false) + s, PrintMembers(b.rest, false) + t;
      var valueA, valueB := Print(a.value) + restA, Print(b.value) + restB;
      Split(lead, Quote(a.key) + (":" + valueA));
      Split(lead, Quote(b.key) + (":" + valueB));
      QuotesApart(a.key, b.key, ":" + valueA, ":" + valueB);
      Split(":", valueA);
      Split(":", valueB);
      MembersShape(a.rest, false, s);
      MembersShape(b.rest, false, t);
      PrintsApart(a.value, b.value, restA, restB);
      MembersApart(a.rest, b.rest, false, s, t);
    }
  }

  /** Printing is injective. */
  lemma PrintInjective(v: Json, w: Json)
    requires Finite(v) && Finite(w) && Print(v) == Print(w)
    ensures v == w
  {
    assert Print(v) + "" == Print(v) && Print(w) + "" == Print(w);
    PrintsApart(v, w, "", "");
  }
}
