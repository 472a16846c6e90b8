/**
JSON values as serde_json holds them, the canonical order of object members, and the value a
tree denotes when member order is ignored (section 4 of RFC 8259).
*/
module CanonicalJson {
  import opened MachineInts

  predicate Digit(c: char) { '0' <= c <= '9' }

  predicate NumberChar(c: char) {
    Digit(c) || c in {'+', '-', '.', 'e', 'E'}
  }

  function DigitRun(s: string): (n: nat)
    ensures n <= |s| && (n < |s| ==> !Digit(s[n]))
    ensures forall i | 0 <= i < n :: Digit(s[i])
  {
    if s == "" || !Digit(s[0]) then 0 else 1 + DigitRun(s[1..])
  }

  predicate ExponentPart(s: string) {
    || s == ""
    || (&& s[0] in {'e', 'E'}
        && var power := if |s| > 1 && s[1] in {'+', '-'} then s[2..] else s[1..];
           power != "" && DigitRun(power) == |power|)
  }

  predicate FractionPart(s: string) {
    if s != "" && s[0] == '.' then
      var n := DigitRun(s[1..]);
      n > 0 && ExponentPart(s[1 + n..])
    else ExponentPart(s)
  }

  /** A number literal (section 6 of RFC 8259): no leading zero, no plus sign. */
  predicate NumberLiteral(s: string) {
    && s != "" && (forall i | 0 <= i < |s| :: NumberChar(s[i]))
    && var unsigned := if s[0] == '-' then s[1..] else s;
       var n := DigitRun(unsigned);
       n > 0 && (unsigned[0] == '0' ==> n == 1) && FractionPart(unsigned[n..])
  }

  /** A number is held as the text it is written with, so that every literal is covered. */
  type NumberText = s: string | NumberLiteral(s) witness "0"

  datatype Entry = Entry(key: string, value: Json)

  datatype Json =
    | Null
    | Bool(flag: bool)
    | Number(text: NumberText)
    | Str(chars: string)
    | Array(items: seq<Json>)
    | Object(members: seq<Entry>)

  // ---------------------------------------------------------------- keys and their order

  function Keys(members: seq<Entry>): (keys: seq<string>)
    ensures |keys| == |members| && forall i | 0 <= i < |keys| :: keys[i] == members[i].key
  {
    seq(|members|, i requires 0 <= i < |members| => members[i].key)
  }

  predicate Distinct(keys: seq<string>) {
    forall i, j | 0 <= i < j < |keys| :: keys[i] != keys[j]
  }

  /** Each object holds a key once, at every depth: what serde_json's map guarantees. */
  predicate WellFormed(j: Json) {
    match j
    case Array(items) => forall i | 0 <= i < |items| :: WellFormed(items[i])
    case Object(members) =>
      && Distinct(Keys(members))
      && forall i | 0 <= i < |members| :: WellFormed(members[i].value)
    case _ => true
  }

  function IndexOf(members: seq<Entry>, key: string): (i: nat)
    requires key in Keys(members)
    ensures i < |members| && members[i].key == key
    ensures forall k | 0 <= k < i :: members[k].key != key
  {
    if members[0].key == key then 0
    else
      assert key in Keys(members[1..]) by {
        var k :| 0 <= k < |members| && Keys(members)[k] == key;
        assert Keys(members[1..])[k - 1] == key;
      }
      1 + IndexOf(members[1..], key)
  }

  predicate StringLess(a: string, b: string) {
    if b == "" then false
    else if a == "" then true
    else a[0] < b[0] || (a[0] == b[0] && StringLess(a[1..], b[1..]))
  }

  /** The texts agree up to some place, where `a` ends or has the smaller code point. */
  ghost predicate Precedes(a: string, b: string) {
    exists n: nat :: Diverge(a, b, n)
  }

  predicate Diverge(a: string, b: string, n: nat) {
    && n <= |a| && n < |b| && a[..n] == b[..n]
    && (n == |a| || a[n] as int < b[n] as int)
  }

  lemma {:induction false} LessIsPrecedes(a: string, b: string)
    ensures StringLess(a, b) <==> Precedes(a, b)
  {
    forall n: nat | n > 0 && Diverge(a, b, n) ensures a != "" && a[0] == b[0] {
      assert a[..n][0] == b[..n][0];
    }
    if b == "" {
    } else if a == "" || a[0] < b[0] {
      assert Diverge(a, b, 0);
    } else if a[0] == b[0] {
      LessIsPrecedes(a[1..], b[1..]);
      if StringLess(a, b) {
        var n: nat :| Diverge(a[1..], b[1..], n);
        assert a[..n + 1] == [a[0]] + a[1..][..n] && b[..n + 1] == [b[0]] + b[1..][..n];
        assert Diverge(a, b, n + 1);
      }
      if Precedes(a, b) {
        var n: nat :| Diverge(a, b, n);
        assert n > 0;
        assert a[1..][..n - 1] == a[..n][1..] && b[1..][..n - 1] == b[..n][1..];
        assert Diverge(a[1..], b[1..], n - 1);
      }
    }
  }

  lemma {:induction false} LessIsTotal(a: string, b: string)
    ensures a == b || StringLess(a, b) || StringLess(b, a)
  {
    if a != "" && b != "" && a[0] == b[0] {
      LessIsTotal(a[1..], b[1..]);
      assert a == [a[0]] + a[1..] && b == [b[0]] + b[1..];
    }
  }

  lemma {:induction false} LessIsTransitive(a: string, b: string, c: string)
    requires StringLess(a, b) && StringLess(b, c)
    ensures StringLess(a, c)
  {
    if a != "" && a[0] == b[0] && b[0] == c[0] {
      LessIsTransitive(a[1..], b[1..], c[1..]);
    }
  }

  lemma {:induction false} LessIsStrict(a: string)
    ensures !StringLess(a, a)
  {
    if a != "" {
      LessIsStrict(a[1..]);
    }
  }

  /** Strictly ascending: the order in which canonical members appear. */
  predicate Ascending(keys: seq<string>) {
    forall i, j | 0 <= i < j < |keys| :: StringLess(keys[i], keys[j])
  }

  predicate Sorted(keys: seq<string>) {
    forall i, j | 0 <= i < j < |keys| :: keys[i] == keys[j] || StringLess(keys[i], keys[j])
  }

  lemma PrependKeepsSorted(key: string, keys: seq<string>)
    requires Sorted(keys) && keys != [] && StringLess(key, keys[0])
    ensures Sorted([key] + keys)
  {
    forall j | 0 <= j < |keys| ensures StringLess(key, keys[j]) {
      if keys[0] != keys[j] {
        LessIsTransitive(key, keys[0], keys[j]);
      }
    }
  }

  function Insert(key: string, keys: seq<string>): seq<string> {
    if keys == [] || StringLess(key, keys[0]) then [key] + keys
    else [keys[0]] + Insert(key, keys[1..])
  }

  lemma {:induction false} InsertCounts(key: string, keys: seq<string>)
    ensures multiset(Insert(key, keys)) == multiset(keys) + multiset{key}
  {
    if keys != [] && !StringLess(key, keys[0]) {
      InsertCounts(key, keys[1..]);
      assert keys == [keys[0]] + keys[1..];
    }
  }

  lemma {:induction false} InsertKeepsSorted(key: string, keys: seq<string>)
    requires Sorted(keys)
    ensures Sorted(Insert(key, keys))
  {
    if keys == [] {
    } else if StringLess(key, keys[0]) {
      PrependKeepsSorted(key, keys);
    } else {
      LessIsTotal(key, keys[0]);
      var rest := Insert(key, keys[1..]);
      InsertKeepsSorted(key, keys[1..]);
      InsertCounts(key, keys[1..]);
      forall i | 0 <= i < |rest| ensures keys[0] == rest[i] || StringLess(keys[0], rest[i]) {
        assert rest[i] in multiset(rest);
        assert rest[i] == key || rest[i] in keys[1..];
      }
    }
  }

  /** The sorted keys of an object. */
  function SortKeys(keys: seq<string>): (r: seq<string>)
    ensures multiset(r) == multiset(keys)
    ensures |r| == |keys| && forall i | 0 <= i < |r| :: r[i] in keys
  {
    if keys == [] then []
    else
      var rest := SortKeys(keys[1..]);
      SortStep(keys, rest);
      Insert(keys[0], rest)
  }

  lemma SortStep(keys: seq<string>, rest: seq<string>)
    requires keys != [] && multiset(rest) == multiset(keys[1..])
    ensures var r := Insert(keys[0], rest);
            && multiset(r) == multiset(keys)
            && |r| == |keys| && forall i | 0 <= i < |r| :: r[i] in keys
  {
    InsertCounts(keys[0], rest);
    assert keys == [keys[0]] + keys[1..];
    SameCounts(Insert(keys[0], rest), keys);
  }

  lemma SameCounts(a: seq<string>, b: seq<string>)
    requires multiset(a) == multiset(b)
    ensures |a| == |b| && forall key :: key in a <==> key in b
  {
    assert |multiset(a)| == |multiset(b)|;
    forall key ensures key in a <==> key in b {
      assert key in a <==> key in multiset(a);
      assert key in b <==> key in multiset(b);
    }
  }

  lemma {:induction false} SortKeysSorts(keys: seq<string>)
    ensures Sorted(SortKeys(keys))
  {
    if keys != [] {
      SortKeysSorts(keys[1..]);
      InsertKeepsSorted(keys[0], SortKeys(keys[1..]));
    }
  }

  lemma SortedDistinctIsAscending(keys: seq<string>)
    requires Distinct(keys)
    ensures Ascending(SortKeys(keys))
    ensures forall key :: key in SortKeys(keys) <==> key in keys
  {
    var r := SortKeys(keys);
    SortKeysSorts(keys);
    SameCounts(r, keys);
    forall i, j | 0 <= i < j < |r| ensures StringLess(r[i], r[j]) {
      if r[i] == r[j] {
        RepeatsShow(r, i, j);
        DistinctCounts(keys, r[i]);
        assert false;
      }
    }
  }

  lemma RepeatsShow(keys: seq<string>, i: nat, j: nat)
    requires i < j < |keys| && keys[i] == keys[j]
    ensures multiset(keys)[keys[i]] >= 2
  {
    assert keys == keys[..j] + [keys[j]] + keys[j + 1..];
    assert keys[..j][i] == keys[i];
    assert keys[i] in multiset(keys[..j]);
  }

  lemma {:induction false} DistinctCounts(keys: seq<string>, key: string)
    requires Distinct(keys)
    ensures multiset(keys)[key] <= 1
  {
    if keys != [] {
      assert keys == [keys[0]] + keys[1..];
      DistinctCounts(keys[1..], key);
      if key == keys[0] {
        assert key !in keys[1..];
      }
    }
  }

  lemma AscendingIsDistinct(keys: seq<string>)
    requires Ascending(keys)
    ensures Distinct(keys)
  {
    forall i, j | 0 <= i < j < |keys| ensures keys[i] != keys[j] {
      LessIsStrict(keys[i]);
    }
  }

  /** An ascending sequence is determined by its elements. */
  lemma {:induction false} AscendingIsUnique(a: seq<string>, b: seq<string>)
    requires Ascending(a) && Ascending(b)
    requires forall k :: k in a <==> k in b
    ensures a == b
  {
    if a == [] {
      assert forall i | 0 <= i < |b| :: b[i] in b;
    } else {
      assert a[0] in a;
      assert b != [];
      assert b[0] in b;
      AscendingIsDistinct(a);
      AscendingIsDistinct(b);
      assert a[0] == b[0] by {
        if a[0] != b[0] {
          assert StringLess(a[0], b[0]) && StringLess(b[0], a[0]);
          LessIsTransitive(a[0], b[0], a[0]);
          LessIsStrict(a[0]);
        }
      }
      assert a == [a[0]] + a[1..] && b == [b[0]] + b[1..];
      forall k ensures k in a[1..] <==> k in b[1..] {
        assert k in a[1..] <==> k in a && k != a[0];
        assert k in b[1..] <==> k in b && k != b[0];
      }
      AscendingIsUnique(a[1..], b[1..]);
    }
  }

  // ---------------------------------------------------------------- canonical form and meaning

  function Canonicalize(j: Json): Json {
    match j
    case Object(members) =>
      var keys := SortKeys(Keys(members));
      Object(seq(|keys|, i requires 0 <= i < |keys| =>
        Entry(keys[i], Canonicalize(members[IndexOf(members, keys[i])].value))))
    case Array(items) =>
      Array(seq(|items|, i requires 0 <= i < |items| => Canonicalize(items[i])))
    case _ => j
  }

  /** What a tree says: objects are unordered, arrays are ordered. */
  datatype Value =
    | NullValue
    | BoolValue(flag: bool)
    | NumberValue(text: string)
    | StringValue(chars: string)
    | ListValue(elements: seq<Value>)
    | RecordValue(fields: map<string, Value>)

  function Denote(j: Json): Value {
    match j
    case Null => NullValue
    case Bool(flag) => BoolValue(flag)
    case Number(text) => NumberValue(text)
    case Str(chars) => StringValue(chars)
    case Array(items) => ListValue(seq(|items|, i requires 0 <= i < |items| => Denote(items[i])))
    case Object(members) =>
      RecordValue(map key | key in Keys(members) :: Denote(members[IndexOf(members, key)].value))
  }

  lemma IndexOfDistinct(members: seq<Entry>, i: nat)
    requires i < |members| && Distinct(Keys(members))
    ensures members[i].key in Keys(members) && IndexOf(members, members[i].key) == i
  {
    assert Keys(members)[i] == members[i].key;
    var k := IndexOf(members, members[i].key);
    assert Keys(members)[k] == Keys(members)[i];
  }

  /** The members of a canonical object, for any way of treating the values. */
  function Rebuilt(members: seq<Entry>, f: Json -> Json): seq<Entry> {
    var keys := SortKeys(Keys(members));
    seq(|keys|, i requires 0 <= i < |keys| =>
      Entry(keys[i], f(members[IndexOf(members, keys[i])].value)))
  }

  lemma CanonicalIsRebuilt(members: seq<Entry>)
    ensures Canonicalize(Object(members)) == Object(Rebuilt(members, Canonicalize))
  {
    assert Canonicalize(Object(members)).members == Rebuilt(members, Canonicalize);
  }

  /** A record's fields, for any way of reading the values. */
  function Fields(members: seq<Entry>, g: Json -> Value): map<string, Value> {
    map key | key in Keys(members) :: g(members[IndexOf(members, key)].value)
  }

  lemma MeaningIsFields(members: seq<Entry>)
    ensures Denote(Object(members)) == RecordValue(Fields(members, Denote))
  {
    assert Denote(Object(members)).fields == Fields(members, Denote);
  }

  /** Rebuilding keeps the keys, in ascending order, and each key's value. */
  lemma RebuiltMembers(members: seq<Entry>, f: Json -> Json)
    requires Distinct(Keys(members))
    ensures var c := Rebuilt(members, f);
            && Keys(c) == SortKeys(Keys(members))
            && Ascending(Keys(c)) && Distinct(Keys(c))
            && (forall key :: key in Keys(c) <==> key in Keys(members))
            && forall key | key in Keys(members) ::
                 c[IndexOf(c, key)].value == f(members[IndexOf(members, key)].value)
  {
    var c := Rebuilt(members, f);
    SortedDistinctIsAscending(Keys(members));
    assert Keys(c) == SortKeys(Keys(members));
    AscendingIsDistinct(Keys(c));
  }

  lemma RebuiltKeepsFields(members: seq<Entry>, f: Json -> Json, g: Json -> Value)
    requires Distinct(Keys(members))
    requires forall key | key in Keys(members) ::
               var v := members[IndexOf(members, key)].value; g(f(v)) == g(v)
    ensures Fields(Rebuilt(members, f), g) == Fields(members, g)
  {
    RebuiltMembers(members, f);
    SameFieldsByKey(Rebuilt(members, f), members, g);
  }

  lemma SameFieldsByKey(a: seq<Entry>, b: seq<Entry>, g: Json -> Value)
    requires forall key :: key in Keys(a) <==> key in Keys(b)
    requires forall key | key in Keys(a) ::
               g(a[IndexOf(a, key)].value) == g(b[IndexOf(b, key)].value)
    ensures Fields(a, g) == Fields(b, g)
  {
  }

  lemma {:induction false} CanonicalIsWellFormed(j: Json)
    requires WellFormed(j)
    ensures WellFormed(Canonicalize(j))
  {
    match j
    case Array(items) =>
      forall i | 0 <= i < |items| ensures WellFormed(Canonicalize(items[i])) {
        CanonicalIsWellFormed(items[i]);
      }
    case Object(members) =>
      CanonicalIsRebuilt(members);
      RebuiltMembers(members, Canonicalize);
      var c := Canonicalize(j).members;
      forall i | 0 <= i < |c| ensures WellFormed(c[i].value) {
        IndexOfDistinct(c, i);
        CanonicalIsWellFormed(members[IndexOf(members, c[i].key)].value);
      }
    case _ =>
  }

  /** At every depth an object's keys ascend by code point. */
  ghost predicate KeysInOrder(j: Json) {
    match j
    case Array(items) => forall i | 0 <= i < |items| :: KeysInOrder(items[i])
    case Object(members) =>
      && (forall i, k | 0 <= i < k < |members| :: Precedes(members[i].key, members[k].key))
      && forall i | 0 <= i < |members| :: KeysInOrder(members[i].value)
    case _ => true
  }

  lemma AscendingPrecedes(keys: seq<string>)
    requires Ascending(keys)
    ensures forall i, k | 0 <= i < k < |keys| :: Precedes(keys[i], keys[k])
  {
    forall i, k | 0 <= i < k < |keys| ensures Precedes(keys[i], keys[k]) {
      LessIsPrecedes(keys[i], keys[k]);
    }
  }

  lemma {:induction false} CanonicalKeysInOrder(j: Json)
    requires WellFormed(j)
    ensures KeysInOrder(Canonicalize(j))
  {
    match j
    case Array(items) =>
      forall i | 0 <= i < |items| ensures KeysInOrder(Canonicalize(items[i])) {
        CanonicalKeysInOrder(items[i]);
      }
    case Object(members) =>
      CanonicalIsRebuilt(members);
      RebuiltMembers(members, Canonicalize);
      var c := Canonicalize(j).members;
      AscendingPrecedes(Keys(c));
      forall i, k | 0 <= i < k < |c| ensures Precedes(c[i].key, c[k].key) {
        assert Precedes(Keys(c)[i], Keys(c)[k]);
      }
      forall i | 0 <= i < |c| ensures KeysInOrder(c[i].value) {
        IndexOfDistinct(c, i);
        CanonicalKeysInOrder(members[IndexOf(members, c[i].key)].value);
      }
    case _ =>
  }

  lemma ArrayKeepsMeaning(items: seq<Json>)
    requires forall i | 0 <= i < |items| :: Denote(Canonicalize(items[i])) == Denote(items[i])
    ensures Denote(Canonicalize(Array(items))) == Denote(Array(items))
  {
    var c := Canonicalize(Array(items)).items;
    assert forall i | 0 <= i < |items| :: c[i] == Canonicalize(items[i]);
  }

  lemma ObjectKeepsMeaning(members: seq<Entry>)
    requires Distinct(Keys(members))
    requires forall key | key in Keys(members) ::
               var v := members[IndexOf(members, key)].value; Denote(Canonicalize(v)) == Denote(v)
    ensures Denote(Canonicalize(Object(members))) == Denote(Object(members))
  {
    RebuiltKeepsFields(members, Canonicalize, Denote);
    CanonicalIsRebuilt(members);
    MeaningIsFields(members);
    MeaningIsFields(Rebuilt(members, Canonicalize));
  }

  lemma {:induction false} CanonicalKeepsMeaning(j: Json)
    requires WellFormed(j)
    ensures Denote(Canonicalize(j)) == Denote(j)
  {
    match j
    case Array(items) =>
      forall i | 0 <= i < |items| ensures Denote(Canonicalize(items[i])) == Denote(items[i]) {
        CanonicalKeepsMeaning(items[i]);
      }
      ArrayKeepsMeaning(items);
    case Object(members) =>
      forall key | key in Keys(members)
        ensures var v := members[IndexOf(members, key)].value; Denote(Canonicalize(v)) == Denote(v)
      {
        CanonicalKeepsMeaning(members[IndexOf(members, key)].value);
      }
      ObjectKeepsMeaning(members);
    case _ =>
  }

  /** Equal meanings have the same keys, in the same canonical order, with equal meanings. */
  lemma SameFields(a: seq<Entry>, b: seq<Entry>)
    requires Distinct(Keys(a)) && Distinct(Keys(b))
    requires Denote(Object(a)) == Denote(Object(b))
    ensures forall key :: key in Keys(a) <==> key in Keys(b)
    ensures SortKeys(Keys(a)) == SortKeys(Keys(b))
    ensures forall key | key in Keys(a) ::
              Denote(a[IndexOf(a, key)].value) == Denote(b[IndexOf(b, key)].value)
  {
    var fields := Denote(Object(a)).fields;
    forall key ensures key in Keys(a) <==> key in Keys(b) {
      assert key in fields <==> key in Keys(a);
      assert key in Denote(Object(b)).fields <==> key in Keys(b);
    }
    forall key | key in Keys(a)
      ensures Denote(a[IndexOf(a, key)].value) == Denote(b[IndexOf(b, key)].value)
    {
      assert fields[key] == Denote(a[IndexOf(a, key)].value);
      assert Denote(Object(b)).fields[key] == Denote(b[IndexOf(b, key)].value);
    }
    SortedDistinctIsAscending(Keys(a));
    SortedDistinctIsAscending(Keys(b));
    AscendingIsUnique(SortKeys(Keys(a)), SortKeys(Keys(b)));
  }

  lemma SameRebuilt(a: seq<Entry>, b: seq<Entry>, f: Json -> Json)
    requires SortKeys(Keys(a)) == SortKeys(Keys(b))
    requires forall key :: key in Keys(a) <==> key in Keys(b)
    requires forall key | key in Keys(a) ::
               f(a[IndexOf(a, key)].value) == f(b[IndexOf(b, key)].value)
    ensures Rebuilt(a, f) == Rebuilt(b, f)
  {
  }

  lemma SameMembers(a: seq<Entry>, b: seq<Entry>)
    requires SortKeys(Keys(a)) == SortKeys(Keys(b))
    requires forall key :: key in Keys(a) <==> key in Keys(b)
    requires forall key | key in Keys(a) ::
               Canonicalize(a[IndexOf(a, key)].value) == Canonicalize(b[IndexOf(b, key)].value)
    ensures Canonicalize(Object(a)) == Canonicalize(Object(b))
  {
    SameRebuilt(a, b, Canonicalize);
    CanonicalIsRebuilt(a);
    CanonicalIsRebuilt(b);
  }

  /** The same meaning always has the same canonical form. */
  lemma {:induction false} MeaningHasOneForm(a: Json, b: Json)
    requires WellFormed(a) && WellFormed(b) && Denote(a) == Denote(b)
    ensures Canonicalize(a) == Canonicalize(b)
  {
    match a
    case Array(items) =>
      forall i | 0 <= i < |items| ensures Canonicalize(items[i]) == Canonicalize(b.items[i]) {
        assert Denote(items[i]) == Denote(a).elements[i] == Denote(b).elements[i];
        MeaningHasOneForm(items[i], b.items[i]);
      }
    case Object(members) =>
      SameFields(members, b.members);
      forall key | key in Keys(members)
        ensures Canonicalize(members[IndexOf(members, key)].value)
             == Canonicalize(b.members[IndexOf(b.members, key)].value)
      {
        MeaningHasOneForm(members[IndexOf(members, key)].value,
                          b.members[IndexOf(b.members, key)].value);
      }
      SameMembers(members, b.members);
    case _ =>
  }

  /** Two trees have the same canonical form exactly when they denote the same value. */
  lemma CanonicalDecidesMeaning(a: Json, b: Json)
    requires WellFormed(a) && WellFormed(b)
    ensures Canonicalize(a) == Canonicalize(b) <==> Denote(a) == Denote(b)
  {
    CanonicalKeepsMeaning(a);
    CanonicalKeepsMeaning(b);
    if Denote(a) == Denote(b) {
      MeaningHasOneForm(a, b);
    }
  }

  lemma CanonicalizeIsIdempotent(j: Json)
    requires WellFormed(j)
    ensures Canonicalize(Canonicalize(j)) == Canonicalize(j)
  {
    CanonicalIsWellFormed(j);
    CanonicalKeepsMeaning(j);
    CanonicalDecidesMeaning(Canonicalize(j), j);
  }

  // ---------------------------------------------------------------- lookups

  datatype Selector = Field(key: string) | Item(index: nat)

  function Select(j: Json, s: Selector): Option<Json> {
    match s
    case Field(key) =>
      if j.Object? && key in Keys(j.members) then Some(j.members[IndexOf(j.members, key)].value)
      else None
    case Item(index) =>
      if j.Array? && index < |j.items| then Some(j.items[index]) else None
  }

  function Lookup(j: Json, path: seq<Selector>): Option<Json> {
    if path == [] then Some(j)
    else match Select(j, path[0])
      case None => None
      case Some(child) => Lookup(child, path[1..])
  }

  lemma SelectIsPreserved(j: Json, s: Selector)
    requires WellFormed(j)
    ensures Select(j, s).None? <==> Select(Canonicalize(j), s).None?
    ensures Select(j, s).Some? ==>
              && Select(Canonicalize(j), s) == Some(Canonicalize(Select(j, s).value))
              && WellFormed(Select(j, s).value)
  {
    if j.Object? {
      CanonicalIsRebuilt(j.members);
      RebuiltMembers(j.members, Canonicalize);
    }
  }

  /** Every path leads to the canonical form of what it led to before, or to nothing as before. */
  lemma {:induction false} LookupIsPreserved(j: Json, path: seq<Selector>)
    requires WellFormed(j)
    ensures Lookup(Canonicalize(j), path) ==
            match Lookup(j, path) case None => None case Some(found) => Some(Canonicalize(found))
  {
    if path != [] {
      SelectIsPreserved(j, path[0]);
      if Select(j, path[0]).Some? {
        LookupIsPreserved(Select(j, path[0]).value, path[1..]);
      }
    }
  }
}
