/** The text whose hash is a request's fingerprint (src/middlewares/idempotency.middleware.js): the body
    printed with the sorted list of its own keys as replacer. A replacer list is a filter at every
    level, so below the top level only those keys are printed. */
module Fingerprint {
  import opened Domain
  import opened Json

  // ---------------------------------------------------------------- members

  function Keys(ms: Members): seq<string> {
    if ms.NoMember? then [] else [ms.key] + Keys(ms.rest)
  }

  function Find(ms: Members, k: string): (found: Option<Json>)
    ensures found.Some? <==> k in Keys(ms)
  {
    if ms.NoMember? then None else if ms.key == k then Some(ms.value) else Find(ms.rest, k)
  }

  /** The members under `keys` that are present, in the order of `keys`. */
  function Select(ms: Members, keys: seq<string>): Members {
    if keys == [] then NoMember
    else
      var rest := Select(ms, keys[1..]);
      match Find(ms, keys[0]) case None => rest case Some(v) => Member(keys[0], v, rest)
  }

  // ---------------------------------------------------------------- sorted keys

  predicate Before(a: string, b: string) {
    if b == "" then false
    else if a == "" then true
    else if a[0] == b[0] then Before(a[1..], b[1..])
    else a[0] < b[0]
  }

  lemma {:induction false} OneOrder(a: string, b: string)
    ensures Before(a, b) || Before(b, a) || a == b
    ensures !(Before(a, b) && Before(b, a)) && !Before(a, a)
    decreases |a|
  {
    if a != "" { OneOrder(a[1..], a[1..]); }
    if a != "" && b != "" {
      OneOrder(a[1..], b[1..]);
      assert a == [a[0]] + a[1..] && b == [b[0]] + b[1..];
    }
  }

  lemma {:induction false} Onward(a: string, b: string, c: string)
    requires Before(a, b) && Before(b, c)
    ensures Before(a, c)
    decreases |a|
  {
    if a != "" && a[0] == b[0] == c[0] { Onward(a[1..], b[1..], c[1..]); }
  }

  /** Strictly increasing: sorted, without repetition. */
  predicate Sorted(s: seq<string>) {
    |s| > 1 ==> Before(s[0], s[1]) && Sorted(s[1..])
  }

  function Insert(k: string, s: seq<string>): seq<string> {
    if s == [] || Before(k, s[0]) then [k] + s
    else if k == s[0] then s
    else [s[0]] + Insert(k, s[1..])
  }

  function Sort(s: seq<string>): seq<string> {
    if s == [] then [] else Insert(s[0], Sort(s[1..]))
  }

  lemma {:induction false} InsertSorts(k: string, s: seq<string>)
    requires Sorted(s)
    ensures Sorted(Insert(k, s)) && forall x :: x in Insert(k, s) <==> x == k || x in s
    decreases |s|
  {
    if s != [] {
      OneOrder(k, s[0]);
      if !Before(k, s[0]) && k != s[0] { InsertSorts(k, s[1..]); }
    }
  }

  lemma {:induction false} SortSorts(s: seq<string>)
    ensures Sorted(Sort(s)) && forall x :: x in Sort(s) <==> x in s
    decreases |s|
  {
    if s != [] {
      SortSorts(s[1..]);
      InsertSorts(s[0], Sort(s[1..]));
    }
  }

  lemma {:induction false} FirstIsLeast(s: seq<string>, x: string)
    requires Sorted(s) && s != [] && x in s[1..]
    ensures Before(s[0], x)
    decreases |s|
  {
    if x != s[1] {
      FirstIsLeast(s[1..], x);
      Onward(s[0], s[1], x);
    }
  }

  /** A sorted list is determined by what is in it. */
  lemma {:induction false} SortedUnique(s: seq<string>, t: seq<string>)
    requires Sorted(s) && Sorted(t) && forall x :: x in s <==> x in t
    ensures s == t
    decreases |s|
  {
    assert t != [] ==> t[0] in t;
    if s != [] {
      assert s[0] in t && t != [] && t[0] in s;
      if s[0] != t[0] {
        assert t[0] in s[1..] && s[0] in t[1..];
        FirstIsLeast(s, t[0]);
        FirstIsLeast(t, s[0]);
        OneOrder(s[0], t[0]);
      } else {
        forall x ensures x in s[1..] <==> x in t[1..] {
          assert x in s <==> x == s[0] || x in s[1..];
          assert x in t <==> x == t[0] || x in t[1..];
          if x in s[1..] { FirstIsLeast(s, x); OneOrder(x, s[0]); }
          if x in t[1..] { FirstIsLeast(t, x); OneOrder(x, t[0]); }
        }
        SortedUnique(s[1..], t[1..]);
        assert s == [s[0]] + s[1..] && t == [t[0]] + t[1..];
      }
    }
  }

  // ---------------------------------------------------------------- what is printed

  /** A value as the replacer list lets it through; a number out of range has become null. */
  function Prune(v: Json, keys: seq<string>): Json {
    match v
    case Infinite => Null
    case Arr(items) => Arr(PruneItems(items, keys))
    case Obj(ms) => Obj(Select(PruneMembers(ms, keys), keys))
    case _ => v
  }

  function PruneItems(items: Items, keys: seq<string>): Items {
    match items
    case NoItem => NoItem
    case Item(v, rest) => Item(Prune(v, keys), PruneItems(rest, keys))
  }

  function PruneMembers(ms: Members, keys: seq<string>): Members {
    match ms
    case NoMember => NoMember
    case Member(k, v, rest) => Member(k, Prune(v, keys), PruneMembers(rest, keys))
  }

  /** The replacer list of a body. */
  function List(body: Members): seq<string> {
    Sort(Keys(body))
  }

  function Text(body: Members): string {
    Print(Prune(Obj(body), List(body)))
  }

  // ---------------------------------------------------------------- equality of bodies

  /** A value with the members of every object in the order of their keys. */
  function Normal(v: Json): Json {
    match v
    case Arr(items) => Arr(NormalItems(items))
    case Obj(ms) => Obj(Select(NormalMembers(ms), Sort(Keys(ms))))
    case _ => v
  }

  function NormalItems(items: Items): Items {
    match items
    case NoItem => NoItem
    case Item(v, rest) => Item(Normal(v), NormalItems(rest))
  }

  function NormalMembers(ms: Members): Members {
    match ms
    case NoMember => NoMember
    case Member(k, v, rest) => Member(k, Normal(v), NormalMembers(rest))
  }

  /** The same JSON value: the order of members does not matter, at any level. */
  predicate Same(a: Members, b: Members) {
    Normal(Obj(a)) == Normal(Obj(b))
  }

  /** What parsing can produce: keys without repetition, numerals that are numerals. */
  predicate Parsed(v: Json) {
    match v
    case Num(digits) => Numeral(digits)
    case Arr(items) => ParsedItems(items)
    case Obj(ms) => ParsedMembers(ms)
    case _ => true
  }

  predicate ParsedItems(items: Items) {
    items.Item? ==> Parsed(items.value) && ParsedItems(items.rest)
  }

  predicate ParsedMembers(ms: Members) {
    ms.Member? ==> ms.key !in Keys(ms.rest) && Parsed(ms.value) && ParsedMembers(ms.rest)
  }

  // ---------------------------------------------------------------- selection

  lemma {:induction false} FindPruned(ms: Members, keys: seq<string>, k: string)
    ensures Keys(PruneMembers(ms, keys)) == Keys(ms)
    ensures Find(ms, k).Some? ==> Find(PruneMembers(ms, keys), k) == Some(Prune(Find(ms, k).value, keys))
  {
    if ms.Member? { FindPruned(ms.rest, keys, k); }
  }

  lemma {:induction false} FindNormal(ms: Members, k: string)
    ensures Keys(NormalMembers(ms)) == Keys(ms)
    ensures Find(ms, k).Some? ==> Find(NormalMembers(ms), k) == Some(Normal(Find(ms, k).value))
  {
    if ms.Member? { FindNormal(ms.rest, k); }
  }

  lemma {:induction false} FindSelected(ms: Members, keys: seq<string>, k: string)
    ensures Find(Select(ms, keys), k) == if k in keys then Find(ms, k) else None
    decreases |keys|
  {
    if keys != [] {
      FindSelected(ms, keys[1..], k);
      assert k in keys <==> k == keys[0] || k in keys[1..];
    }
  }

  /** Selection depends only on what is found under the keys. */
  lemma {:induction false} SelectAgrees(a: Members, b: Members, keys: seq<string>)
    requires forall k :: k in keys ==> Find(a, k) == Find(b, k)
    ensures Select(a, keys) == Select(b, keys)
    decreases |keys|
  {
    if keys != [] {
      assert keys[0] in keys;
      forall k | k in keys[1..] ensures Find(a, k) == Find(b, k) { assert k in keys; }
      SelectAgrees(a, b, keys[1..]);
    }
  }

  lemma {:induction false} SelectAll(ms: Members, keys: seq<string>)
    requires forall k :: k in keys ==> k in Keys(ms)
    ensures Keys(Select(ms, keys)) == keys
    decreases |keys|
  {
    if keys != [] {
      assert keys[0] in keys;
      forall k | k in keys[1..] ensures k in Keys(ms) { assert k in keys; }
      SelectAll(ms, keys[1..]);
      assert keys == [keys[0]] + keys[1..];
    }
  }

  // ---------------------------------------------------------------- printing a pruned value is faithful

  lemma {:induction false} FiniteFound(ms: Members, k: string)
    requires FiniteMembers(ms) && Find(ms, k).Some?
    ensures Finite(Find(ms, k).value)
  {
    if ms.key != k { FiniteFound(ms.rest, k); }
  }

  lemma {:induction false} SelectFinite(ms: Members, keys: seq<string>)
    requires FiniteMembers(ms)
    ensures FiniteMembers(Select(ms, keys))
    decreases |keys|
  {
    if keys != [] {
      SelectFinite(ms, keys[1..]);
      if Find(ms, keys[0]).Some? { FiniteFound(ms, keys[0]); }
    }
  }

  lemma {:induction false} PruneFinite(v: Json, keys: seq<string>)
    requires Parsed(v)
    ensures Finite(Prune(v, keys))
    decreases v
  {
    match v
    case Arr(items) => PruneItemsFinite(items, keys);
    case Obj(ms) =>
      PruneMembersFinite(ms, keys);
      SelectFinite(PruneMembers(ms, keys), keys);
    case _ =>
  }

  lemma {:induction false} PruneItemsFinite(items: Items, keys: seq<string>)
    requires ParsedItems(items)
    ensures FiniteItems(PruneItems(items, keys))
    decreases items
  {
    if items.Item? {
      PruneFinite(items.value, keys);
      PruneItemsFinite(items.rest, keys);
    }
  }

  lemma {:induction false} PruneMembersFinite(ms: Members, keys: seq<string>)
    requires ParsedMembers(ms)
    ensures FiniteMembers(PruneMembers(ms, keys))
    decreases ms
  {
    if ms.Member? {
      PruneFinite(ms.value, keys);
      PruneMembersFinite(ms.rest, keys);
    }
  }

  // ---------------------------------------------------------------- when two texts are equal

  /** The values of two bodies under their common top-level keys agree after pruning. */
  ghost predicate Agree(a: Members, b: Members) {
    && (forall k :: k in Keys(a) <==> k in Keys(b))
    && (forall k :: k in Keys(a) && k in Keys(b) ==>
          Prune(Find(a, k).value, List(a)) == Prune(Find(b, k).value, List(a)))
  }

  lemma ListKeys(body: Members)
    ensures Keys(Select(PruneMembers(body, List(body)), List(body))) == List(body)
  {
    var list := List(body);
    SortSorts(Keys(body));
    FindPruned(body, list, "");
    SelectAll(PruneMembers(body, list), list);
  }

  lemma TopValue(body: Members, k: string)
    requires k in Keys(body)
    ensures Find(Select(PruneMembers(body, List(body)), List(body)), k) == Some(Prune(Find(body, k).value, List(body)))
  {
    SortSorts(Keys(body));
    FindSelected(PruneMembers(body, List(body)), List(body), k);
    FindPruned(body, List(body), k);
  }

  /** Printing loses nothing of what the replacer list lets through. */
  lemma TextsPrune(a: Members, b: Members)
    requires ParsedMembers(a) && ParsedMembers(b) && Text(a) == Text(b)
    ensures Prune(Obj(a), List(a)) == Prune(Obj(b), List(b))
  {
    PruneFinite(Obj(a), List(a));
    PruneFinite(Obj(b), List(b));
    PrintInjective(Prune(Obj(a), List(a)), Prune(Obj(b), List(b)));
  }

  lemma PrunedAgree(a: Members, b: Members)
    requires Prune(Obj(a), List(a)) == Prune(Obj(b), List(b))
    ensures Agree(a, b)
  {
    SortSorts(Keys(a));
    SortSorts(Keys(b));
    ListKeys(a);
    ListKeys(b);
    assert List(a) == List(b);
    forall k | k in Keys(a) && k in Keys(b)
      ensures Prune(Find(a, k).value, List(a)) == Prune(Find(b, k).value, List(a))
    {
      TopValue(a, k);
      TopValue(b, k);
    }
  }

  lemma AgreeingTexts(a: Members, b: Members)
    requires Agree(a, b)
    ensures Text(a) == Text(b)
  {
    SortSorts(Keys(a));
    SortSorts(Keys(b));
    SortedUnique(List(a), List(b));
    forall k | k in List(a)
      ensures Find(PruneMembers(a, List(a)), k) == Find(PruneMembers(b, List(a)), k)
    {
      FindPruned(a, List(a), k);
      FindPruned(b, List(a), k);
    }
    SelectAgrees(PruneMembers(a, List(a)), PruneMembers(b, List(a)), List(a));
  }

  /** Two bodies have the same text exactly when they have the same top-level keys and the same values
      under them, as far as the replacer list lets those values through. */
  lemma TextsExactly(a: Members, b: Members)
    requires ParsedMembers(a) && ParsedMembers(b)
    ensures Text(a) == Text(b) <==> Agree(a, b)
  {
    if Text(a) == Text(b) {
      TextsPrune(a, b);
      PrunedAgree(a, b);
    }
    if Agree(a, b) { AgreeingTexts(a, b); }
  }

  // ---------------------------------------------------------------- order does not matter

  lemma {:induction false} PruneNormal(v: Json, keys: seq<string>)
    ensures Prune(Normal(v), keys) == Prune(v, keys)
    decreases v
  {
    match v
    case Arr(items) => PruneNormalItems(items, keys);
    case Obj(ms) =>
      var sorted := Sort(Keys(ms));
      var picked := Select(NormalMembers(ms), sorted);
      SortSorts(Keys(ms));
      forall k | k in keys ensures Find(PruneMembers(picked, keys), k) == Find(PruneMembers(ms, keys), k) {
        FindNormal(ms, k);
        FindSelected(NormalMembers(ms), sorted, k);
        FindPruned(picked, keys, k);
        FindPruned(ms, keys, k);
        if Find(ms, k).Some? { PruneNormalAt(ms, keys, k); }
      }
      SelectAgrees(PruneMembers(picked, keys), PruneMembers(ms, keys), keys);
    case _ =>
  }

  lemma {:induction false} PruneNormalItems(items: Items, keys: seq<string>)
    ensures PruneItems(NormalItems(items), keys) == PruneItems(items, keys)
    decreases items
  {
    if items.Item? {
      PruneNormal(items.value, keys);
      PruneNormalItems(items.rest, keys);
    }
  }

  lemma {:induction false} PruneNormalAt(ms: Members, keys: seq<string>, k: string)
    requires Find(ms, k).Some?
    ensures Prune(Normal(Find(ms, k).value), keys) == Prune(Find(ms, k).value, keys)
    decreases ms
  {
    if ms.key == k { PruneNormal(ms.value, keys); } else { PruneNormalAt(ms.rest, keys, k); }
  }

  lemma KeysOfNormal(ms: Members)
    ensures Normal(Obj(ms)).Obj? && Keys(Normal(Obj(ms)).members) == Sort(Keys(ms))
  {
    SortSorts(Keys(ms));
    FindNormal(ms, "");
    SelectAll(NormalMembers(ms), Sort(Keys(ms)));
  }

  /** The same body in any order of its members, at the top or inside, has the same text. */
  lemma OrderIrrelevant(a: Members, b: Members)
    requires Same(a, b)
    ensures Text(a) == Text(b)
  {
    KeysOfNormal(a);
    KeysOfNormal(b);
    PruneNormal(Obj(a), List(a));
    PruneNormal(Obj(b), List(b));
  }

  // ---------------------------------------------------------------- which bodies the text tells apart

  /** No object below the top level and no number out of range: a flat body's values, and lists of them. */
  predicate Flat(v: Json) {
    match v
    case Infinite => false
    case Obj(_) => false
    case Arr(items) => FlatItems(items)
    case _ => true
  }

  predicate FlatItems(items: Items) {
    items.Item? ==> Flat(items.value) && FlatItems(items.rest)
  }

  predicate FlatMembers(ms: Members) {
    ms.Member? ==> Flat(ms.value) && FlatMembers(ms.rest)
  }

  lemma {:induction false} FlatKept(v: Json, keys: seq<string>)
    requires Flat(v)
    ensures Prune(v, keys) == v == Normal(v)
    decreases v
  {
    if v.Arr? { FlatItemsKept(v.items, keys); }
  }

  lemma {:induction false} FlatItemsKept(items: Items, keys: seq<string>)
    requires FlatItems(items)
    ensures PruneItems(items, keys) == items == NormalItems(items)
    decreases items
  {
    if items.Item? {
      FlatKept(items.value, keys);
      FlatItemsKept(items.rest, keys);
    }
  }

  lemma {:induction false} FlatFound(ms: Members, k: string)
    requires FlatMembers(ms) && k in Keys(ms)
    ensures Flat(Find(ms, k).value)
  {
    if ms.key != k { FlatFound(ms.rest, k); }
  }

  /** Bodies with the same keys and equal values are the same. */
  lemma SameWhenEqual(a: Members, b: Members)
    requires forall k :: k in Keys(a) <==> k in Keys(b)
    requires forall k :: k in Keys(a) && k in Keys(b) ==> Find(a, k) == Find(b, k)
    ensures Same(a, b)
  {
    var sorted := Sort(Keys(a));
    SortSorts(Keys(a));
    SortSorts(Keys(b));
    SortedUnique(sorted, Sort(Keys(b)));
    forall k | k in sorted ensures Find(NormalMembers(a), k) == Find(NormalMembers(b), k) {
      FindNormal(a, k);
      FindNormal(b, k);
    }
    SelectAgrees(NormalMembers(a), NormalMembers(b), sorted);
  }

  /** For flat bodies the text is the body: equal for every order of the members, different for
      different bodies. */
  lemma FlatTextsExactly(a: Members, b: Members)
    requires ParsedMembers(a) && ParsedMembers(b) && FlatMembers(a) && FlatMembers(b)
    ensures Text(a) == Text(b) <==> Same(a, b)
  {
    if Same(a, b) { OrderIrrelevant(a, b); }
    if Text(a) == Text(b) {
      TextsExactly(a, b);
      forall k | k in Keys(a) && k in Keys(b) ensures Find(a, k) == Find(b, k) {
        FlatFound(a, k);
        FlatFound(b, k);
        FlatKept(Find(a, k).value, List(a));
        FlatKept(Find(b, k).value, List(a));
      }
      SameWhenEqual(a, b);
    }
  }

  /** Flat, and without null, which is also how a number out of range prints. */
  predicate Plain(v: Json) {
    match v
    case Null => false
    case Infinite => false
    case Obj(_) => false
    case Arr(items) => PlainItems(items)
    case _ => true
  }

  predicate PlainItems(items: Items) {
    items.Item? ==> Plain(items.value) && PlainItems(items.rest)
  }

  predicate PlainMembers(ms: Members) {
    ms.Member? ==> Plain(ms.value) && PlainMembers(ms.rest)
  }

  lemma {:induction false} PlainSource(v: Json, w: Json, keys: seq<string>)
    requires Plain(v) && Prune(w, keys) == Prune(v, keys)
    ensures w == v
    decreases v
  {
    if v.Arr? { PlainItemsSource(v.items, w.items, keys); }
  }

  lemma {:induction false} PlainItemsSource(a: Items, b: Items, keys: seq<string>)
    requires PlainItems(a) && PruneItems(b, keys) == PruneItems(a, keys)
    ensures b == a
    decreases a
  {
    if a.Item? {
      PlainSource(a.value, b.value, keys);
      PlainItemsSource(a.rest, b.rest, keys);
    }
  }

  lemma {:induction false} PlainFound(ms: Members, k: string)
    requires PlainMembers(ms) && k in Keys(ms)
    ensures Plain(Find(ms, k).value)
  {
    if ms.key != k { PlainFound(ms.rest, k); }
  }

  /** A key that is in none of the lists. */
  function Joined(keys: seq<string>): string {
    if keys == [] then "x" else keys[0] + Joined(keys[1..])
  }

  lemma {:induction false} JoinedIsNew(keys: seq<string>)
    ensures |Joined(keys)| > 0 && forall k :: k in keys ==> |k| < |Joined(keys)|
    decreases |keys|
  {
    if keys != [] {
      JoinedIsNew(keys[1..]);
      forall k | k in keys ensures |k| < |Joined(keys)| {
        assert k == keys[0] || k in keys[1..];
      }
    }
  }

  /** Another value that prints the same: a nested object with one more member, null for a number out of
      range, or the reverse. */
  function Twin(v: Json, keys: seq<string>): Json
    requires !Plain(v)
  {
    match v
    case Null => Infinite
    case Infinite => Null
    case Obj(ms) => Obj(Member(Joined(keys + Keys(ms)), Null, ms))
    case Arr(items) => Arr(TwinItems(items, keys))
  }

  function TwinItems(items: Items, keys: seq<string>): Items
    requires !PlainItems(items)
  {
    if !Plain(items.value) then Item(Twin(items.value, keys), items.rest)
    else Item(items.value, TwinItems(items.rest, keys))
  }

  function TwinMembers(ms: Members, keys: seq<string>): Members
    requires !PlainMembers(ms)
  {
    if !Plain(ms.value) then Member(ms.key, Twin(ms.value, keys), ms.rest)
    else Member(ms.key, ms.value, TwinMembers(ms.rest, keys))
  }

  lemma {:induction false} TwinPrintsAlike(v: Json, keys: seq<string>)
    requires !Plain(v) && Parsed(v)
    ensures Prune(Twin(v, keys), keys) == Prune(v, keys) && Parsed(Twin(v, keys))
    ensures Normal(Twin(v, keys)) != Normal(v)
    decreases v
  {
    match v
    case Obj(ms) =>
      var extra := Joined(keys + Keys(ms));
      JoinedIsNew(keys + Keys(ms));
      assert extra !in keys + Keys(ms);
      SelectAgrees(PruneMembers(ms, keys), PruneMembers(Member(extra, Null, ms), keys), keys);
      KeysOfNormal(ms);
      KeysOfNormal(Member(extra, Null, ms));
      SortSorts(Keys(ms));
      SortSorts(Keys(Member(extra, Null, ms)));
      assert extra in Keys(Member(extra, Null, ms));
    case Arr(items) => TwinItemsPrintAlike(items, keys);
    case _ =>
  }

  lemma {:induction false} TwinItemsPrintAlike(items: Items, keys: seq<string>)
    requires !PlainItems(items) && ParsedItems(items)
    ensures PruneItems(TwinItems(items, keys), keys) == PruneItems(items, keys) && ParsedItems(TwinItems(items, keys))
    ensures NormalItems(TwinItems(items, keys)) != NormalItems(items)
    decreases items
  {
    if !Plain(items.value) { TwinPrintsAlike(items.value, keys); } else { TwinItemsPrintAlike(items.rest, keys); }
  }

  lemma {:induction false} TwinMembersPrintAlike(ms: Members, keys: seq<string>) returns (changed: string)
    requires !PlainMembers(ms) && ParsedMembers(ms)
    ensures
      var twin := TwinMembers(ms, keys);
      && Keys(twin) == Keys(ms) && ParsedMembers(twin)
      && (forall k :: k in Keys(ms) ==> Prune(Find(twin, k).value, keys) == Prune(Find(ms, k).value, keys))
      && changed in Keys(ms) && Normal(Find(twin, changed).value) != Normal(Find(ms, changed).value)
    decreases ms
  {
    if !Plain(ms.value) {
      TwinPrintsAlike(ms.value, keys);
      changed := ms.key;
    } else {
      changed := TwinMembersPrintAlike(ms.rest, keys);
    }
  }

  /** Every body that is not plain has another body with the same text. */
  lemma HasTwin(body: Members)
    requires ParsedMembers(body) && !PlainMembers(body)
    ensures
      var twin := TwinMembers(body, List(body));
      ParsedMembers(twin) && Text(twin) == Text(body) && !Same(body, twin)
  {
    var twin := TwinMembers(body, List(body));
    var k := TwinMembersPrintAlike(body, List(body));
    TextsExactly(body, twin);
    SortSorts(Keys(body));
    FindSelected(NormalMembers(body), Sort(Keys(body)), k);
    FindSelected(NormalMembers(twin), Sort(Keys(twin)), k);
    FindNormal(body, k);
    FindNormal(twin, k);
  }

  /** Which requests the fingerprint protects: the text of a body is shared by no other body exactly when
      the body is plain. A body with an object below the top level, like the payment request's metadata,
      is not: a member can be added there without changing the text. */
  lemma TextDeterminesExactly(body: Members)
    requires ParsedMembers(body)
    ensures PlainMembers(body) <==>
            forall other :: ParsedMembers(other) && Text(other) == Text(body) ==> Same(body, other)
  {
    if PlainMembers(body) {
      forall other | ParsedMembers(other) && Text(other) == Text(body) ensures Same(body, other) {
        TextsExactly(body, other);
        forall k | k in Keys(body) && k in Keys(other) ensures Find(body, k) == Find(other, k) {
          PlainFound(body, k);
          PlainSource(Find(body, k).value, Find(other, k).value, List(body));
        }
        SameWhenEqual(body, other);
      }
    } else {
      HasTwin(body);
    }
  }

  lemma {:induction false} Unlisted(k: string, v: Json, keys: seq<string>)
    requires k !in keys
    ensures Select(Member(k, v, NoMember), keys) == NoMember
    decreases |keys|
  {
    if keys != [] {
      assert keys[0] in keys;
      Unlisted(k, v, keys[1..]);
    }
  }

  function Nesting(outer: string, inner: string, v: Json, rest: Members): Members {
    Member(outer, Obj(Member(inner, v, NoMember)), rest)
  }

  lemma NestedPruned(outer: string, inner: string, v: Json, rest: Members, keys: seq<string>)
    requires inner !in keys
    ensures PruneMembers(Nesting(outer, inner, v, rest), keys) == Member(outer, Obj(NoMember), PruneMembers(rest, keys))
  {
    Unlisted(inner, Prune(v, keys), keys);
    assert PruneMembers(Member(inner, v, NoMember), keys) == Member(inner, Prune(v, keys), NoMember);
  }

  /** For instance, the value under a nested key that is not also a top-level key never matters: two
      requests that differ there only have one fingerprint. */
  lemma NestedValueIgnored(outer: string, inner: string, v: Json, w: Json, rest: Members)
    requires inner != outer && inner !in Keys(rest)
    ensures Text(Nesting(outer, inner, v, rest)) == Text(Nesting(outer, inner, w, rest))
  {
    var keys := Keys(Nesting(outer, inner, v, rest));
    SortSorts(keys);
    assert Keys(Nesting(outer, inner, w, rest)) == keys && inner !in keys;
    NestedPruned(outer, inner, v, rest, Sort(keys));
    NestedPruned(outer, inner, w, rest, Sort(keys));
  }
}
