/** The canonical text of a JSON value and what equality of canonical texts decides.

    `leq` stands for the collation behind `localeCompare`: `leq(x, y)` when x does not sort after
    y. A collation is a total preorder; two different keys may compare as equal ("tied"), and the
    sort is stable, so tied keys keep the order `Object.entries` gives them: array indices first, in
    ascending order, and then the other keys in insertion order. */
module Canonical {
  import opened Json

  type Collation = (string, string) -> bool

  ghost predicate TotalPreorder(leq: Collation) {
    && (forall x, y :: leq(x, y) || leq(y, x))
    && (forall x, y, z :: leq(x, y) && leq(y, z) ==> leq(x, z))
  }

  predicate Tied(leq: Collation, x: string, y: string) {
    leq(x, y) && leq(y, x)
  }

  // ---------------------------------------------------------------- the stable sort

  function Insert<T>(leq: Collation, e: Keyed<T>, sorted: List<Keyed<T>>): List<Keyed<T>> {
    match sorted
    case Nil => Cons(e, Nil)
    case Cons(f, rest) => if leq(e.key, f.key) then Cons(e, sorted) else Cons(f, Insert(leq, e, rest))
  }

  function SortByKey<T>(leq: Collation, entries: List<Keyed<T>>): List<Keyed<T>> {
    match entries
    case Nil => Nil
    case Cons(e, rest) => Insert(leq, e, SortByKey(leq, rest))
  }

  ghost predicate Sorted<T>(leq: Collation, entries: List<Keyed<T>>) {
    match entries
    case Nil => true
    case Cons(e, rest) => (forall k :: k in Keys(rest) ==> leq(e.key, k)) && Sorted(leq, rest)
  }

  /** The entries whose key is tied with `key`, in list order. */
  function Class<T>(leq: Collation, key: string, entries: List<Keyed<T>>): List<Keyed<T>> {
    match entries
    case Nil => Nil
    case Cons(e, rest) =>
      if Tied(leq, key, e.key) then Cons(e, Class(leq, key, rest)) else Class(leq, key, rest)
  }

  lemma {:induction false} InsertSorts<T>(leq: Collation, e: Keyed<T>, sorted: List<Keyed<T>>)
    requires TotalPreorder(leq) && Sorted(leq, sorted)
    ensures Sorted(leq, Insert(leq, e, sorted))
    ensures Keys(Insert(leq, e, sorted)) == {e.key} + Keys(sorted)
  {
    if sorted.Cons? && !leq(e.key, sorted.head.key) {
      InsertSorts(leq, e, sorted.tail);
    }
  }

  lemma {:induction false} InsertClass<T>(leq: Collation, key: string, e: Keyed<T>, sorted: List<Keyed<T>>)
    requires TotalPreorder(leq)
    ensures Class(leq, key, Insert(leq, e, sorted)) == Class(leq, key, Cons(e, sorted))
  {
    if sorted.Cons? && !leq(e.key, sorted.head.key) {
      InsertClass(leq, key, e, sorted.tail);
    }
  }

  /** The sort orders the keys, keeps every entry, and keeps tied entries in their old order. */
  lemma {:induction false} SortIsStable<T>(leq: Collation, entries: List<Keyed<T>>)
    requires TotalPreorder(leq)
    ensures Sorted(leq, SortByKey(leq, entries))
    ensures Keys(SortByKey(leq, entries)) == Keys(entries)
    ensures forall key :: Class(leq, key, SortByKey(leq, entries)) == Class(leq, key, entries)
  {
    if entries.Cons? {
      var rest := SortByKey(leq, entries.tail);
      SortIsStable(leq, entries.tail);
      InsertSorts(leq, entries.head, rest);
      forall key
        ensures Class(leq, key, SortByKey(leq, entries)) == Class(leq, key, entries)
      {
        InsertClass(leq, key, entries.head, rest);
      }
    }
  }

  /** An entry list is determined by being sorted and by its classes of tied keys, so the result
      above is the only one a stable sort can give. */
  lemma {:induction false} StableSortUnique<T>(leq: Collation, xs: List<Keyed<T>>, ys: List<Keyed<T>>)
    requires TotalPreorder(leq) && Sorted(leq, xs) && Sorted(leq, ys)
    requires forall key :: Class(leq, key, xs) == Class(leq, key, ys)
    ensures xs == ys
  {
    if xs.Nil? {
      if ys.Cons? {
        var c := Class(leq, ys.head.key, ys);
        assert false;
      }
    } else {
      assert Class(leq, xs.head.key, ys) == Class(leq, xs.head.key, xs) && Class(leq, xs.head.key, xs).Cons?;
      ClassKeys(leq, xs.head.key, ys);
      assert Class(leq, ys.head.key, xs) == Class(leq, ys.head.key, ys) && Class(leq, ys.head.key, ys).Cons?;
      ClassKeys(leq, ys.head.key, xs);
      assert Tied(leq, xs.head.key, ys.head.key);
      assert xs.head == Class(leq, xs.head.key, xs).head == Class(leq, xs.head.key, ys).head == ys.head;
      forall key
        ensures Class(leq, key, xs.tail) == Class(leq, key, ys.tail)
      {
        assert Class(leq, key, xs) == Class(leq, key, ys);
      }
      StableSortUnique(leq, xs.tail, ys.tail);
    }
  }

  lemma {:induction false} ClassKeys<T>(leq: Collation, key: string, entries: List<Keyed<T>>)
    requires Class(leq, key, entries).Cons?
    ensures Class(leq, key, entries).head.key in Keys(entries)
    ensures Tied(leq, key, Class(leq, key, entries).head.key)
  {
    if !Tied(leq, key, entries.head.key) {
      ClassKeys(leq, key, entries.tail);
    }
  }

  // ---------------------------------------------------------------- the order of Object.entries

  predicate Digits(s: string) {
    forall i :: 0 <= i < |s| ==> '0' <= s[i] <= '9'
  }

  function NumberOf(s: string): (n: int)
    ensures Digits(s) ==> 0 <= n
  {
    if s == "" then 0 else 10 * NumberOf(s[..|s| - 1]) + (s[|s| - 1] as int - '0' as int)
  }

  /** An array index (section 6.1.7 of ECMA-262): a decimal below 2^32 - 1 without leading zeros. */
  predicate IsIndex(key: string) {
    key != "" && Digits(key) && (key[0] == '0' ==> |key| == 1) && NumberOf(key) < 0xFFFF_FFFF
  }

  /** Own property keys (section 10.1.11 of ECMA-262): indices come before other keys, in ascending
      numeric order; the others are left as they are. */
  predicate OwnLeq(x: string, y: string) {
    if IsIndex(x) then IsIndex(y) ==> NumberOf(x) <= NumberOf(y) else !IsIndex(y)
  }

  function Entries<T>(members: List<Keyed<T>>): List<Keyed<T>> {
    SortByKey(OwnLeq, members)
  }

  /** The collation, with what it ties in the order of `Object.entries`. */
  function Refined(leq: Collation): Collation {
    (x, y) => leq(x, y) && (leq(y, x) ==> OwnLeq(x, y))
  }

  lemma {:induction false} NumberPositive(s: string)
    requires s != "" && Digits(s) && s[0] != '0'
    ensures NumberOf(s) > 0
  {
    if |s| > 1 {
      NumberPositive(s[..|s| - 1]);
    }
  }

  lemma {:induction false} NumberInjective(x: string, y: string)
    requires Digits(x) && Digits(y) && (x != "" ==> x[0] != '0') && (y != "" ==> y[0] != '0')
    requires NumberOf(x) == NumberOf(y)
    ensures x == y
  {
    if x == "" {
      if y != "" {
        NumberPositive(y);
      }
    } else if y == "" {
      NumberPositive(x);
    } else {
      NumberInjective(x[..|x| - 1], y[..|y| - 1]);
      assert x == x[..|x| - 1] + [x[|x| - 1]] && y == y[..|y| - 1] + [y[|y| - 1]];
    }
  }

  lemma IndexInjective(x: string, y: string)
    requires IsIndex(x) && IsIndex(y) && NumberOf(x) == NumberOf(y)
    ensures x == y
  {
    if x[0] == '0' {
      assert x == "0" && NumberOf(x) == 0;
      if y[0] != '0' {
        NumberPositive(y);
      }
    } else if y[0] == '0' {
      assert y == "0" && NumberOf(y) == 0;
      NumberPositive(x);
    } else {
      NumberInjective(x, y);
    }
  }

  /** The usual text of a number. */
  function Decimal(n: nat): string {
    if n < 10 then [Digit(n)] else Decimal(n / 10) + [Digit(n % 10)]
  }

  function Digit(n: nat): char
    requires n < 10
  {
    "0123456789"[n]
  }

  lemma DigitIs(n: nat)
    requires n < 10
    ensures '0' <= Digit(n) <= '9' && Digit(n) as int - '0' as int == n
  {
  }

  lemma {:induction false} DecimalReads(n: nat)
    ensures Decimal(n) != "" && Digits(Decimal(n)) && NumberOf(Decimal(n)) == n
    ensures Decimal(n)[0] == '0' ==> |Decimal(n)| == 1
  {
    DigitIs(n % 10);
    if n < 10 {
      assert Decimal(n)[..0] == "" && NumberOf("") == 0;
    } else {
      var front := Decimal(n / 10);
      DecimalReads(n / 10);
      assert (front + [Digit(n % 10)])[..|front|] == front;
    }
  }

  /** The indices are the texts of the numbers below 2^32 - 1. */
  lemma IsIndexIff(key: string)
    ensures IsIndex(key) <==> exists n: nat :: n < 0xFFFF_FFFF && key == Decimal(n)
  {
    if IsIndex(key) {
      var n := NumberOf(key);
      DecimalReads(n);
      IndexInjective(key, Decimal(n));
    }
    if n: nat :| n < 0xFFFF_FFFF && key == Decimal(n) {
      DecimalReads(n);
    }
  }

  /** No entry comes before an index unless it is an index that is not greater. */
  ghost predicate IndicesFirst<T>(entries: List<Keyed<T>>) {
    match entries
    case Nil => true
    case Cons(e, rest) =>
      && IndicesFirst(rest)
      && forall k :: k in Keys(rest) && IsIndex(k) ==> IsIndex(e.key) && NumberOf(e.key) <= NumberOf(k)
  }

  /** The entries whose keys are no indices, in list order. */
  function Others<T>(entries: List<Keyed<T>>): List<Keyed<T>> {
    match entries
    case Nil => Nil
    case Cons(e, rest) => if IsIndex(e.key) then Others(rest) else Cons(e, Others(rest))
  }

  lemma {:induction false} OthersAreClass<T>(entries: List<Keyed<T>>)
    ensures Others(entries) == Class(OwnLeq, "", entries)
  {
    if entries.Cons? {
      OthersAreClass(entries.tail);
    }
  }

  lemma {:induction false} SortedIndicesFirst<T>(entries: List<Keyed<T>>)
    requires Sorted(OwnLeq, entries)
    ensures IndicesFirst(entries)
  {
    if entries.Cons? {
      SortedIndicesFirst(entries.tail);
    }
  }

  /** The entries come indices first, in ascending order, and the others as they were inserted. */
  lemma EntriesInOrder<T>(members: List<Keyed<T>>)
    ensures IndicesFirst(Entries(members)) && Others(Entries(members)) == Others(members)
    ensures Keys(Entries(members)) == Keys(members)
  {
    assert TotalPreorder(OwnLeq);
    SortIsStable(OwnLeq, members);
    SortedIndicesFirst(Entries(members));
    OthersAreClass(Entries(members));
    OthersAreClass(members);
  }

  lemma RefinedPreorder(leq: Collation)
    requires TotalPreorder(leq)
    ensures TotalPreorder(OwnLeq) && TotalPreorder(Refined(leq))
  {
  }

  /** The keys whose order is up to insertion: tied ones that are no indices. */
  lemma RefinedTies(leq: Collation, x: string, y: string)
    ensures Tied(Refined(leq), x, y) <==> Tied(leq, x, y) && (x == y || (!IsIndex(x) && !IsIndex(y)))
  {
    assert Tied(Refined(leq), x, y) <==> Tied(leq, x, y) && Tied(OwnLeq, x, y);
    if IsIndex(x) && IsIndex(y) && NumberOf(x) == NumberOf(y) {
      IndexInjective(x, y);
    }
  }

  lemma {:induction false} InsertRefined<T>(leq: Collation, e: Keyed<T>, sorted: List<Keyed<T>>)
    requires TotalPreorder(leq) && Sorted(leq, sorted) && Sorted(Refined(leq), sorted)
    requires forall k :: k in Keys(sorted) ==> OwnLeq(e.key, k)
    ensures Sorted(Refined(leq), Insert(leq, e, sorted))
  {
    if sorted.Cons? && !leq(e.key, sorted.head.key) {
      InsertRefined(leq, e, sorted.tail);
      InsertSorts(leq, e, sorted.tail);
    }
  }

  lemma {:induction false} SortRefines<T>(leq: Collation, entries: List<Keyed<T>>)
    requires TotalPreorder(leq) && Sorted(OwnLeq, entries)
    ensures Sorted(Refined(leq), SortByKey(leq, entries))
  {
    if entries.Cons? {
      SortRefines(leq, entries.tail);
      SortIsStable(leq, entries.tail);
      InsertRefined(leq, entries.head, SortByKey(leq, entries.tail));
    }
  }

  lemma {:induction false} RefinedClass<T>(leq: Collation, key: string, entries: List<Keyed<T>>)
    ensures Class(Refined(leq), key, entries) == Class(OwnLeq, key, Class(leq, key, entries))
    ensures Class(Refined(leq), key, entries) == Class(leq, key, Class(OwnLeq, key, entries))
  {
    if entries.Cons? {
      RefinedClass(leq, key, entries.tail);
    }
  }

  /** Sorting what `Object.entries` lists is one stable sort of the members as they were inserted. */
  lemma SortOfEntries<T>(leq: Collation, members: List<Keyed<T>>)
    requires TotalPreorder(leq)
    ensures SortByKey(leq, Entries(members)) == SortByKey(Refined(leq), members)
  {
    RefinedPreorder(leq);
    var own := Entries(members);
    SortIsStable(OwnLeq, members);
    SortIsStable(leq, own);
    SortIsStable(Refined(leq), members);
    SortRefines(leq, own);
    forall key
      ensures Class(Refined(leq), key, SortByKey(leq, own)) == Class(Refined(leq), key, SortByKey(Refined(leq), members))
    {
      RefinedClass(leq, key, SortByKey(leq, own));
      RefinedClass(leq, key, own);
      RefinedClass(leq, key, members);
      assert Class(leq, key, SortByKey(leq, own)) == Class(leq, key, own);
      assert Class(OwnLeq, key, own) == Class(OwnLeq, key, members);
    }
    StableSortUnique(Refined(leq), SortByKey(leq, own), SortByKey(Refined(leq), members));
  }

  // ---------------------------------------------------------------- canonical text

  function CanonicalJson(leq: Collation, j: Json): string {
    match j
    case Arr(items) => "[" + Join(CanonicalItems(leq, items)) + "]"
    case Obj(members) => "{" + Join(Texts(SortByKey(leq, Entries(CanonicalEntries(leq, members))))) + "}"
    case _ => Print(j)
  }

  function CanonicalItems(leq: Collation, items: List<Json>): List<string> {
    match items
    case Nil => Nil
    case Cons(j, rest) => Cons(CanonicalJson(leq, j), CanonicalItems(leq, rest))
  }

  function CanonicalEntries(leq: Collation, members: List<Keyed<Json>>): List<Keyed<string>> {
    match members
    case Nil => Nil
    case Cons(m, rest) =>
      Cons(Keyed(m.key, Quote(m.key) + ":" + CanonicalJson(leq, m.value)), CanonicalEntries(leq, rest))
  }

  /** The value whose plain printing is the canonical text: every object sorted. */
  function Normal(leq: Collation, j: Json): Json {
    match j
    case Arr(items) => Arr(NormalItems(leq, items))
    case Obj(members) => Obj(SortByKey(leq, NormalMembers(leq, members)))
    case _ => j
  }

  function NormalItems(leq: Collation, items: List<Json>): List<Json> {
    match items
    case Nil => Nil
    case Cons(j, rest) => Cons(Normal(leq, j), NormalItems(leq, rest))
  }

  function NormalMembers(leq: Collation, members: List<Keyed<Json>>): (r: List<Keyed<Json>>)
    ensures Keys(r) == Keys(members)
  {
    match members
    case Nil => Nil
    case Cons(m, rest) => Cons(Keyed(m.key, Normal(leq, m.value)), NormalMembers(leq, rest))
  }

  lemma {:induction false} InsertTexts(leq: Collation, e: Keyed<Json>, sorted: List<Keyed<Json>>)
    ensures Insert(leq, Keyed(e.key, Quote(e.key) + ":" + Print(e.value)), MemberTexts(sorted))
         == MemberTexts(Insert(leq, e, sorted))
  {
    if sorted.Cons? {
      InsertTexts(leq, e, sorted.tail);
    }
  }

  lemma {:induction false} SortTexts(leq: Collation, members: List<Keyed<Json>>)
    ensures SortByKey(leq, MemberTexts(members)) == MemberTexts(SortByKey(leq, members))
  {
    if members.Cons? {
      SortTexts(leq, members.tail);
      InsertTexts(leq, members.head, SortByKey(leq, members.tail));
    }
  }

  lemma {:induction false} CanonicalIsNormalPrint(leq: Collation, j: Json)
    requires TotalPreorder(leq)
    ensures CanonicalJson(leq, j) == Print(Normal(Refined(leq), j))
    decreases Size(j), 1
  {
    match j
    case Arr(items) => CanonicalItemTexts(leq, items);
    case Obj(members) =>
      CanonicalMemberTexts(leq, members);
      SortOfEntries(leq, CanonicalEntries(leq, members));
      SortTexts(Refined(leq), NormalMembers(Refined(leq), members));
    case _ =>
  }

  lemma {:induction false} CanonicalItemTexts(leq: Collation, items: List<Json>)
    requires TotalPreorder(leq)
    ensures CanonicalItems(leq, items) == ItemTexts(NormalItems(Refined(leq), items))
    decreases ItemsSize(items), 0
  {
    if items.Cons? {
      CanonicalIsNormalPrint(leq, items.head);
      CanonicalItemTexts(leq, items.tail);
    }
  }

  lemma {:induction false} CanonicalMemberTexts(leq: Collation, members: List<Keyed<Json>>)
    requires TotalPreorder(leq)
    ensures CanonicalEntries(leq, members) == MemberTexts(NormalMembers(Refined(leq), members))
    decreases MembersSize(members), 0
  {
    if members.Cons? {
      CanonicalIsNormalPrint(leq, members.head.value);
      CanonicalMemberTexts(leq, members.tail);
    }
  }

  lemma CanonicalIffNormal(leq: Collation, a: Json, b: Json)
    requires TotalPreorder(leq)
    ensures CanonicalJson(leq, a) == CanonicalJson(leq, b) <==> Normal(Refined(leq), a) == Normal(Refined(leq), b)
  {
    CanonicalIsNormalPrint(leq, a);
    CanonicalIsNormalPrint(leq, b);
    if CanonicalJson(leq, a) == CanonicalJson(leq, b) {
      PrintInjective(Normal(Refined(leq), a), Normal(Refined(leq), b));
    }
  }

  // ---------------------------------------------------------------- equal texts mean equal values

  lemma {:induction false} InsertMeaning(leq: Collation, e: Keyed<Json>, sorted: List<Keyed<Json>>)
    requires e.key !in Keys(sorted)
    ensures MembersMeaning(Insert(leq, e, sorted)) == MembersMeaning(Cons(e, sorted))
  {
    if sorted.Cons? && !leq(e.key, sorted.head.key) {
      InsertMeaning(leq, e, sorted.tail);
    }
  }

  lemma {:induction false} SortMeaning(leq: Collation, members: List<Keyed<Json>>)
    requires TotalPreorder(leq) && DistinctKeys(members)
    ensures MembersMeaning(SortByKey(leq, members)) == MembersMeaning(members)
  {
    if members.Cons? {
      SortIsStable(leq, members.tail);
      SortMeaning(leq, members.tail);
      InsertMeaning(leq, members.head, SortByKey(leq, members.tail));
    }
  }

  lemma {:induction false} NormalMeaning(leq: Collation, j: Json)
    requires TotalPreorder(leq) && WellFormed(j)
    ensures Meaning(Normal(leq, j)) == Meaning(j)
    decreases Size(j), 1
  {
    match j
    case Arr(items) => NormalItemsMeaning(leq, items);
    case Obj(members) =>
      NormalMembersMeaning(leq, members);
      SortMeaning(leq, NormalMembers(leq, members));
    case _ =>
  }

  lemma {:induction false} NormalItemsMeaning(leq: Collation, items: List<Json>)
    requires TotalPreorder(leq) && WellFormedItems(items)
    ensures ItemsMeaning(NormalItems(leq, items)) == ItemsMeaning(items)
    decreases ItemsSize(items), 0
  {
    if items.Cons? {
      NormalMeaning(leq, items.head);
      NormalItemsMeaning(leq, items.tail);
    }
  }

  lemma {:induction false} NormalMembersMeaning(leq: Collation, members: List<Keyed<Json>>)
    requires TotalPreorder(leq) && DistinctKeys(members) && WellFormedMembers(members)
    ensures MembersMeaning(NormalMembers(leq, members)) == MembersMeaning(members)
    ensures DistinctKeys(NormalMembers(leq, members))
    decreases MembersSize(members), 0
  {
    if members.Cons? {
      NormalMeaning(leq, members.head.value);
      NormalMembersMeaning(leq, members.tail);
    }
  }

  /** Equal canonical texts never identify values that differ by more than object key order,
      whatever the collation ties. */
  lemma CanonicalSound(leq: Collation, a: Json, b: Json)
    requires TotalPreorder(leq) && WellFormed(a) && WellFormed(b)
    ensures CanonicalJson(leq, a) == CanonicalJson(leq, b) ==> Meaning(a) == Meaning(b)
  {
    RefinedPreorder(leq);
    CanonicalIffNormal(leq, a, b);
    NormalMeaning(Refined(leq), a);
    NormalMeaning(Refined(leq), b);
  }

  // ---------------------------------------------------------------- equal values, equal texts

  ghost predicate Apart(leq: Collation, j: Json) {
    match j
    case Arr(items) => ApartItems(leq, items)
    case Obj(members) => Separated(leq, Keys(members)) && ApartMembers(leq, members)
    case _ => true
  }

  ghost predicate ApartItems(leq: Collation, items: List<Json>) {
    match items
    case Nil => true
    case Cons(j, rest) => Apart(leq, j) && ApartItems(leq, rest)
  }

  ghost predicate ApartMembers(leq: Collation, members: List<Keyed<Json>>) {
    match members
    case Nil => true
    case Cons(m, rest) => Apart(leq, m.value) && ApartMembers(leq, rest)
  }

  ghost predicate Separated(leq: Collation, keys: set<string>) {
    forall x, y :: x in keys && y in keys && Tied(leq, x, y) ==> x == y
  }

  /** No object in `j` has two keys that the collation ties, unless one of them is an array index, which
      has a fixed place. */
  ghost predicate NoTies(leq: Collation, j: Json) {
    Apart(Refined(leq), j)
  }

  /** What that says of one object. */
  lemma NoTiesInObject(leq: Collation, members: List<Keyed<Json>>)
    ensures NoTies(leq, Obj(members)) <==>
      && ApartMembers(Refined(leq), members)
      && forall x, y :: x in Keys(members) && y in Keys(members) && Tied(leq, x, y) ==> x == y || IsIndex(x) || IsIndex(y)
  {
    forall x, y | x in Keys(members) && y in Keys(members)
      ensures Tied(Refined(leq), x, y) <==> Tied(leq, x, y) && (x == y || (!IsIndex(x) && !IsIndex(y)))
    {
      RefinedTies(leq, x, y);
    }
  }

  lemma {:induction false} LookupApart(leq: Collation, members: List<Keyed<Json>>, key: string)
    requires key in Keys(members) && ApartMembers(leq, members)
    ensures Apart(leq, Lookup(members, key))
  {
    if members.head.key != key {
      LookupApart(leq, members.tail, key);
    }
  }

  lemma {:induction false} LookupNormal(leq: Collation, members: List<Keyed<Json>>, key: string)
    requires key in Keys(members)
    ensures Lookup(NormalMembers(leq, members), key) == Normal(leq, Lookup(members, key))
  {
    if members.head.key != key {
      LookupNormal(leq, members.tail, key);
    }
  }

  /** Without ties, a class is one entry or none. */
  lemma {:induction false} SeparatedClass<T>(leq: Collation, key: string, entries: List<Keyed<T>>)
    requires TotalPreorder(leq) && DistinctKeys(entries) && Separated(leq, Keys(entries))
    ensures forall k :: k in Keys(entries) && Tied(leq, key, k) ==>
      Class(leq, key, entries) == Cons(Keyed(k, Lookup(entries, k)), Nil)
    ensures (forall k :: k in Keys(entries) ==> !Tied(leq, key, k)) ==> Class(leq, key, entries) == Nil
  {
    if entries.Cons? {
      SeparatedClass(leq, key, entries.tail);
      if Tied(leq, key, entries.head.key) {
        forall k | k in Keys(entries.tail)
          ensures !Tied(leq, key, k)
        {
          if Tied(leq, key, k) {
            assert Tied(leq, entries.head.key, k);
          }
        }
      }
    }
  }

  lemma SameClasses<T>(leq: Collation, xs: List<Keyed<T>>, ys: List<Keyed<T>>)
    requires TotalPreorder(leq) && DistinctKeys(xs) && DistinctKeys(ys)
    requires Keys(xs) == Keys(ys) && Separated(leq, Keys(xs))
    requires forall k :: k in Keys(xs) ==> Lookup(xs, k) == Lookup(ys, k)
    ensures SortByKey(leq, xs) == SortByKey(leq, ys)
  {
    SortIsStable(leq, xs);
    SortIsStable(leq, ys);
    forall key
      ensures Class(leq, key, SortByKey(leq, xs)) == Class(leq, key, SortByKey(leq, ys))
    {
      SeparatedClass(leq, key, xs);
      SeparatedClass(leq, key, ys);
    }
    StableSortUnique(leq, SortByKey(leq, xs), SortByKey(leq, ys));
  }

  lemma {:induction false} NormalComplete(leq: Collation, a: Json, b: Json)
    requires TotalPreorder(leq) && WellFormed(a) && WellFormed(b)
    requires Apart(leq, a) && Meaning(a) == Meaning(b)
    ensures Normal(leq, a) == Normal(leq, b)
    decreases Size(a), 1
  {
    match a
    case Arr(items) => NormalItemsComplete(leq, items, b.items);
    case Obj(xs) =>
      var ys := b.members;
      assert Keys(xs) == MembersMeaning(xs).Keys == MembersMeaning(ys).Keys == Keys(ys);
      forall k | k in Keys(xs)
        ensures Lookup(NormalMembers(leq, xs), k) == Lookup(NormalMembers(leq, ys), k)
      {
        LookupMeaning(xs, k);
        LookupMeaning(ys, k);
        LookupApart(leq, xs, k);
        LookupNormal(leq, xs, k);
        LookupNormal(leq, ys, k);
        NormalComplete(leq, Lookup(xs, k), Lookup(ys, k));
      }
      NormalMembersMeaning(leq, xs);
      NormalMembersMeaning(leq, ys);
      SameClasses(leq, NormalMembers(leq, xs), NormalMembers(leq, ys));
    case _ =>
  }

  lemma {:induction false} NormalItemsComplete(leq: Collation, a: List<Json>, b: List<Json>)
    requires TotalPreorder(leq) && WellFormedItems(a) && WellFormedItems(b)
    requires ApartItems(leq, a) && ItemsMeaning(a) == ItemsMeaning(b)
    ensures NormalItems(leq, a) == NormalItems(leq, b)
    decreases ItemsSize(a), 0
  {
    assert |ItemsMeaning(a)| == 0 <==> a.Nil?;
    assert |ItemsMeaning(b)| == 0 <==> b.Nil?;
    if a.Cons? {
      assert Meaning(a.head) == ItemsMeaning(a)[0] == ItemsMeaning(b)[0] == Meaning(b.head);
      assert ItemsMeaning(a.tail) == ItemsMeaning(a)[1..] == ItemsMeaning(b)[1..] == ItemsMeaning(b.tail);
      NormalComplete(leq, a.head, b.head);
      NormalItemsComplete(leq, a.tail, b.tail);
    }
  }

  /** When no object of `a` has two keys that the collation ties, canonical texts decide equality
      up to object key order. */
  lemma CanonicalDecides(leq: Collation, a: Json, b: Json)
    requires TotalPreorder(leq) && WellFormed(a) && WellFormed(b) && NoTies(leq, a)
    ensures CanonicalJson(leq, a) == CanonicalJson(leq, b) <==> Meaning(a) == Meaning(b)
  {
    RefinedPreorder(leq);
    CanonicalSound(leq, a, b);
    CanonicalIffNormal(leq, a, b);
    if Meaning(a) == Meaning(b) {
      NormalComplete(Refined(leq), a, b);
    }
  }

  // ---------------------------------------------------------------- tied keys

  function Snoc<T>(entries: List<Keyed<T>>, e: Keyed<T>): List<Keyed<T>> {
    match entries
    case Nil => Cons(e, Nil)
    case Cons(f, rest) => Cons(f, Snoc(rest, e))
  }

  function Backwards<T>(entries: List<Keyed<T>>): List<Keyed<T>> {
    match entries
    case Nil => Nil
    case Cons(e, rest) => Snoc(Backwards(rest), e)
  }

  /** The same value with the members of every object listed in the opposite order. */
  function Reversed(j: Json): Json {
    match j
    case Arr(items) => Arr(ReversedItems(items))
    case Obj(members) => Obj(Backwards(ReversedValues(members)))
    case _ => j
  }

  function ReversedItems(items: List<Json>): List<Json> {
    match items
    case Nil => Nil
    case Cons(j, rest) => Cons(Reversed(j), ReversedItems(rest))
  }

  function ReversedValues(members: List<Keyed<Json>>): (r: List<Keyed<Json>>)
    ensures Keys(r) == Keys(members)
  {
    match members
    case Nil => Nil
    case Cons(m, rest) => Cons(Keyed(m.key, Reversed(m.value)), ReversedValues(rest))
  }

  lemma {:induction false} SnocKeys<T>(entries: List<Keyed<T>>, e: Keyed<T>)
    ensures Keys(Snoc(entries, e)) == Keys(entries) + {e.key}
    ensures DistinctKeys(entries) && e.key !in Keys(entries) ==> DistinctKeys(Snoc(entries, e))
  {
    if entries.Cons? {
      SnocKeys(entries.tail, e);
    }
  }

  lemma {:induction false} BackwardsKeys<T>(entries: List<Keyed<T>>)
    ensures Keys(Backwards(entries)) == Keys(entries)
    ensures DistinctKeys(entries) ==> DistinctKeys(Backwards(entries))
  {
    if entries.Cons? {
      BackwardsKeys(entries.tail);
      SnocKeys(Backwards(entries.tail), entries.head);
    }
  }

  lemma {:induction false} SnocMeaning(members: List<Keyed<Json>>, e: Keyed<Json>)
    requires e.key !in Keys(members)
    ensures MembersMeaning(Snoc(members, e)) == MembersMeaning(members)[e.key := Meaning(e.value)]
    ensures WellFormedMembers(Snoc(members, e)) <==> WellFormedMembers(members) && WellFormed(e.value)
  {
    if members.Cons? {
      var m, f := MembersMeaning(members.tail), members.head;
      SnocMeaning(members.tail, e);
      assert m[e.key := Meaning(e.value)][f.key := Meaning(f.value)] == m[f.key := Meaning(f.value)][e.key := Meaning(e.value)];
    }
  }

  lemma {:induction false} BackwardsMeaning(members: List<Keyed<Json>>)
    requires DistinctKeys(members)
    ensures MembersMeaning(Backwards(members)) == MembersMeaning(members)
    ensures WellFormedMembers(Backwards(members)) <==> WellFormedMembers(members)
  {
    if members.Cons? {
      BackwardsMeaning(members.tail);
      BackwardsKeys(members.tail);
      SnocMeaning(Backwards(members.tail), members.head);
    }
  }

  lemma {:induction false} ReversedMeaning(j: Json)
    requires WellFormed(j)
    ensures WellFormed(Reversed(j)) && Meaning(Reversed(j)) == Meaning(j)
    decreases Size(j), 1
  {
    match j
    case Arr(items) => ReversedItemsMeaning(items);
    case Obj(members) =>
      ReversedValuesMeaning(members);
      BackwardsKeys(ReversedValues(members));
      BackwardsMeaning(ReversedValues(members));
    case _ =>
  }

  lemma {:induction false} ReversedItemsMeaning(items: List<Json>)
    requires WellFormedItems(items)
    ensures WellFormedItems(ReversedItems(items)) && ItemsMeaning(ReversedItems(items)) == ItemsMeaning(items)
    decreases ItemsSize(items), 0
  {
    if items.Cons? {
      ReversedMeaning(items.head);
      ReversedItemsMeaning(items.tail);
    }
  }

  lemma {:induction false} ReversedValuesMeaning(members: List<Keyed<Json>>)
    requires DistinctKeys(members) && WellFormedMembers(members)
    ensures DistinctKeys(ReversedValues(members)) && WellFormedMembers(ReversedValues(members))
    ensures MembersMeaning(ReversedValues(members)) == MembersMeaning(members)
    decreases MembersSize(members), 0
  {
    if members.Cons? {
      ReversedMeaning(members.head.value);
      ReversedValuesMeaning(members.tail);
    }
  }

  lemma {:induction false} LookupReversed(members: List<Keyed<Json>>, key: string)
    requires key in Keys(members)
    ensures Lookup(ReversedValues(members), key) == Reversed(Lookup(members, key))
  {
    if members.head.key != key {
      LookupReversed(members.tail, key);
    }
  }

  lemma {:induction false} NormalSnoc(leq: Collation, members: List<Keyed<Json>>, e: Keyed<Json>)
    ensures NormalMembers(leq, Snoc(members, e))
         == Snoc(NormalMembers(leq, members), Keyed(e.key, Normal(leq, e.value)))
  {
    if members.Cons? {
      NormalSnoc(leq, members.tail, e);
    }
  }

  lemma {:induction false} NormalBackwards(leq: Collation, members: List<Keyed<Json>>)
    ensures NormalMembers(leq, Backwards(members)) == Backwards(NormalMembers(leq, members))
  {
    if members.Cons? {
      NormalBackwards(leq, members.tail);
      NormalSnoc(leq, Backwards(members.tail), members.head);
    }
  }

  lemma {:induction false} ClassSnoc<T>(leq: Collation, key: string, entries: List<Keyed<T>>, e: Keyed<T>)
    ensures Class(leq, key, Snoc(entries, e))
         == if Tied(leq, key, e.key) then Snoc(Class(leq, key, entries), e) else Class(leq, key, entries)
  {
    if entries.Cons? {
      ClassSnoc(leq, key, entries.tail, e);
    }
  }

  lemma {:induction false} ClassBackwards<T>(leq: Collation, key: string, entries: List<Keyed<T>>)
    ensures Class(leq, key, Backwards(entries)) == Backwards(Class(leq, key, entries))
  {
    if entries.Cons? {
      ClassBackwards(leq, key, entries.tail);
      ClassSnoc(leq, key, Backwards(entries.tail), entries.head);
    }
  }

  lemma {:induction false} ClassContents<T>(leq: Collation, key: string, entries: List<Keyed<T>>)
    requires DistinctKeys(entries)
    ensures Keys(Class(leq, key, entries)) <= Keys(entries) && DistinctKeys(Class(leq, key, entries))
    ensures forall k :: k in Keys(entries) && Tied(leq, key, k) ==> k in Keys(Class(leq, key, entries))
  {
    if entries.Cons? {
      ClassContents(leq, key, entries.tail);
    }
  }

  /** Classes see only keys. */
  lemma {:induction false} SameClassKeys(leq: Collation, key: string, members: List<Keyed<Json>>)
    ensures var p := Class(leq, key, NormalMembers(leq, members));
            var q := Class(leq, key, NormalMembers(leq, ReversedValues(members)));
            Keys(p) == Keys(q) && (p.Nil? <==> q.Nil?) && (p.Cons? ==> p.head.key == q.head.key)
  {
    if members.Cons? {
      SameClassKeys(leq, key, members.tail);
    }
  }

  lemma BackwardsHead<T>(entries: List<Keyed<T>>)
    requires entries.Cons? && entries.tail.Cons?
    ensures Backwards(entries).Cons? && Backwards(entries).head.key in Keys(entries.tail)
  {
    BackwardsKeys(entries.tail);
    assert entries.tail.head.key in Keys(Backwards(entries.tail));
  }

  /** If sorting gives the same list for a value and its reversal, no class has two entries. */
  lemma ReversalSeparates(leq: Collation, members: List<Keyed<Json>>, x: string, y: string)
    requires TotalPreorder(leq) && DistinctKeys(members) && WellFormedMembers(members)
    requires SortByKey(leq, NormalMembers(leq, members))
          == SortByKey(leq, Backwards(NormalMembers(leq, ReversedValues(members))))
    requires x in Keys(members) && y in Keys(members) && Tied(leq, x, y)
    ensures x == y
  {
    var p, q := NormalMembers(leq, members), NormalMembers(leq, ReversedValues(members));
    SortIsStable(leq, p);
    SortIsStable(leq, Backwards(q));
    var cp, cq := Class(leq, x, p), Class(leq, x, q);
    assert cp == Backwards(cq) by {
      assert Class(leq, x, SortByKey(leq, p)) == cp;
      assert Class(leq, x, SortByKey(leq, Backwards(q))) == Class(leq, x, Backwards(q));
      ClassBackwards(leq, x, q);
    }
    SameClassKeys(leq, x, members);
    ReversedValuesMeaning(members);
    NormalMembersMeaning(leq, ReversedValues(members));
    ClassContents(leq, x, q);
    assert {x, y} <= Keys(cq);
    if cq.tail.Cons? {
      BackwardsHead(cq);
      assert false;
    }
  }

  lemma {:induction false} TiesShow(leq: Collation, a: Json)
    requires TotalPreorder(leq) && WellFormed(a)
    requires Normal(leq, a) == Normal(leq, Reversed(a))
    ensures Apart(leq, a)
    decreases Size(a), 1
  {
    match a
    case Arr(items) => TiesShowItems(leq, items);
    case Obj(members) =>
      NormalBackwards(leq, ReversedValues(members));
      forall x, y | x in Keys(members) && y in Keys(members) && Tied(leq, x, y)
        ensures x == y
      {
        ReversalSeparates(leq, members, x, y);
      }
      forall k | k in Keys(members)
        ensures Apart(leq, Lookup(members, k))
      {
        SameChild(leq, members, k);
        LookupMeaning(members, k);
        TiesShow(leq, Lookup(members, k));
      }
      CollectApart(leq, members);
    case _ =>
  }

  lemma SameChild(leq: Collation, members: List<Keyed<Json>>, k: string)
    requires TotalPreorder(leq) && DistinctKeys(members) && WellFormedMembers(members)
    requires Separated(leq, Keys(members)) && k in Keys(members)
    requires SortByKey(leq, NormalMembers(leq, members))
          == SortByKey(leq, Backwards(NormalMembers(leq, ReversedValues(members))))
    ensures Normal(leq, Lookup(members, k)) == Normal(leq, Reversed(Lookup(members, k)))
  {
    var p, q := NormalMembers(leq, members), NormalMembers(leq, ReversedValues(members));
    NormalMembersMeaning(leq, members);
    ReversedValuesMeaning(members);
    NormalMembersMeaning(leq, ReversedValues(members));
    SortIsStable(leq, p);
    SortIsStable(leq, Backwards(q));
    assert Class(leq, k, SortByKey(leq, p)) == Class(leq, k, p);
    assert Class(leq, k, SortByKey(leq, Backwards(q))) == Class(leq, k, Backwards(q));
    ClassBackwards(leq, k, q);
    SeparatedClass(leq, k, p);
    SeparatedClass(leq, k, q);
    LookupNormal(leq, members, k);
    LookupNormal(leq, ReversedValues(members), k);
    LookupReversed(members, k);
  }

  lemma {:induction false} CollectApart(leq: Collation, members: List<Keyed<Json>>)
    requires DistinctKeys(members)
    requires forall k :: k in Keys(members) ==> Apart(leq, Lookup(members, k))
    ensures ApartMembers(leq, members)
  {
    if members.Cons? {
      assert Apart(leq, Lookup(members, members.head.key));
      forall k | k in Keys(members.tail)
        ensures Apart(leq, Lookup(members.tail, k))
      {
        assert Lookup(members, k) == Lookup(members.tail, k);
      }
      CollectApart(leq, members.tail);
    }
  }

  lemma {:induction false} TiesShowItems(leq: Collation, items: List<Json>)
    requires TotalPreorder(leq) && WellFormedItems(items)
    requires NormalItems(leq, items) == NormalItems(leq, ReversedItems(items))
    ensures ApartItems(leq, items)
    decreases ItemsSize(items), 0
  {
    if items.Cons? {
      TiesShow(leq, items.head);
      TiesShowItems(leq, items.tail);
    }
  }

  /** The exact condition: canonical text is invariant under inserting the keys of `a` in another order
      if and only if no object inside `a` holds two keys that the collation ties, indices apart. */
  lemma CanonicalInvariantIffNoTies(leq: Collation, a: Json)
    requires TotalPreorder(leq) && WellFormed(a)
    ensures NoTies(leq, a) <==>
      forall b :: WellFormed(b) && Meaning(b) == Meaning(a) ==> CanonicalJson(leq, b) == CanonicalJson(leq, a)
  {
    if NoTies(leq, a) {
      forall b | WellFormed(b) && Meaning(b) == Meaning(a)
        ensures CanonicalJson(leq, b) == CanonicalJson(leq, a)
      {
        CanonicalDecides(leq, a, b);
      }
    } else {
      RefinedPreorder(leq);
      ReversedMeaning(a);
      CanonicalIffNormal(leq, a, Reversed(a));
      if CanonicalJson(leq, Reversed(a)) == CanonicalJson(leq, a) {
        TiesShow(Refined(leq), a);
        assert false;
      }
    }
  }

  /** The smallest failure: one object with two tied keys, made in its two orders, has two texts, unless
      one of the keys is an index. */
  lemma TiedKeysDiffer(leq: Collation, x: string, y: string)
    requires TotalPreorder(leq) && x != y && Tied(leq, x, y)
    ensures var p, q := Keyed(x, Null), Keyed(y, Null);
            var a, b := Obj(Cons(p, Cons(q, Nil))), Obj(Cons(q, Cons(p, Nil)));
            && Meaning(a) == Meaning(b)
            && (CanonicalJson(leq, a) == CanonicalJson(leq, b) <==> IsIndex(x) || IsIndex(y))
  {
    var p, q := Keyed(x, Null), Keyed(y, Null);
    var ps, qs := Cons(p, Cons(q, Nil)), Cons(q, Cons(p, Nil));
    RefinedPreorder(leq);
    RefinedTies(leq, x, y);
    PairMeaning(p, q);
    PairMeaning(q, p);
    CanonicalIffNormal(leq, Obj(ps), Obj(qs));
    if IsIndex(x) || IsIndex(y) {
      PairApart(leq, p, q);
      CanonicalDecides(leq, Obj(ps), Obj(qs));
    } else {
      PairNormal(Refined(leq), p, q);
      PairNormal(Refined(leq), q, p);
    }
  }

  lemma PairApart(leq: Collation, p: Keyed<Json>, q: Keyed<Json>)
    requires p.value == q.value == Null && p.key != q.key && (IsIndex(p.key) || IsIndex(q.key))
    ensures NoTies(leq, Obj(Cons(p, Cons(q, Nil)))) && WellFormed(Obj(Cons(p, Cons(q, Nil))))
    ensures WellFormed(Obj(Cons(q, Cons(p, Nil))))
  {
    NullMember(Refined(leq), p);
    NullMember(Refined(leq), q);
    NoTiesInObject(leq, Cons(p, Cons(q, Nil)));
  }

  lemma NullMember(leq: Collation, p: Keyed<Json>)
    requires p.value == Null
    ensures Keys(Cons(p, Nil)) == {p.key} && DistinctKeys(Cons(p, Nil))
    ensures WellFormedMembers(Cons(p, Nil)) && ApartMembers(leq, Cons(p, Nil))
  {
    var none: List<Keyed<Json>> := Nil;
    assert Keys(none) == {} && DistinctKeys(none) && WellFormedMembers(none) && ApartMembers(leq, none);
    assert Apart(leq, Null) && WellFormed(Null);
  }

  lemma PairMeaning(p: Keyed<Json>, q: Keyed<Json>)
    requires p.value == q.value == Null
    ensures MembersMeaning(Cons(p, Cons(q, Nil))) == map[p.key := NullValue, q.key := NullValue]
  {
    assert MembersMeaning(Cons(q, Nil)) == map[q.key := NullValue];
  }

  lemma PairNormal(leq: Collation, p: Keyed<Json>, q: Keyed<Json>)
    requires p.value == q.value == Null && leq(p.key, q.key)
    ensures Normal(leq, Obj(Cons(p, Cons(q, Nil)))) == Obj(Cons(p, Cons(q, Nil)))
  {
    assert NormalMembers(leq, Cons(q, Nil)) == Cons(q, Nil);
    assert SortByKey(leq, Cons(q, Nil)) == Insert(leq, q, Nil) == Cons(q, Nil);
  }
}
