// The class catalog of a workspace, composed from the extractions of its files under
// budgets that act on each other.
module ClassCatalog {
  import opened Options
  import opened Sorting

  datatype Place = Place(path: string, start: nat, id: string)

  datatype Class = Class(place: Place, fields: seq<string>, methods: seq<string>, truncated: bool)
  datatype Relation = Relation(place: Place, owner: string)

  datatype Value = Field(name: string) | Method(name: string) | Related(relation: Relation) | ScopeText
  datatype Item = Item(classIndex: nat, records: nat, text: nat, value: Value)

  datatype Extraction = Extraction(
    path: string, sourceBytes: nat, registryBytes: nat, truncated: bool, registryIncomplete: bool,
    classes: seq<Class>, items: seq<Item>)

  datatype Limits = Limits(
    totalBytes: nat, registryText: nat, classes: nat, records: nat, outputText: nat, files: nat, symbols: nat)

  // incomplete: the catalog warns that declarations may be absent.
  datatype Catalog = Catalog(classes: seq<Class>, relations: seq<Relation>, truncated: bool, incomplete: bool)

  // ---- the streams ----

  // A declaration with the details that were extracted for it.
  datatype Slot = Slot(class_: Class, items: seq<Item>)

  function ItemsOf(items: seq<Item>, index: nat): seq<Item> {
    if items == [] then []
    else (if items[0].classIndex == index then [items[0]] else []) + ItemsOf(items[1..], index)
  }

  function FileSlots(f: Extraction, index: nat): (r: seq<Slot>)
    ensures index <= |f.classes| ==> |r| == |f.classes| - index
    decreases |f.classes| - index
  {
    if index >= |f.classes| then []
    else [Slot(f.classes[index], ItemsOf(f.items, index))] + FileSlots(f, index + 1)
  }

  function Slots(files: seq<Extraction>): seq<Slot> {
    if files == [] then [] else FileSlots(files[0], 0) + Slots(files[1..])
  }

  function Stream(slots: seq<Slot>): seq<Item> {
    if slots == [] then [] else slots[0].items + Stream(slots[1..])
  }

  // ---- the budgets ----

  predicate Affordable(f: Extraction, limits: Limits, source: nat, registry: nat) {
    source + f.sourceBytes <= limits.totalBytes && registry + f.registryBytes <= limits.registryText
  }

  // How many files are admitted: the first one over a budget ends the catalog.
  function Admitted(files: seq<Extraction>, limits: Limits, source: nat, registry: nat): (n: nat)
    ensures n <= |files|
  {
    if files == [] || !Affordable(files[0], limits, source, registry) then 0
    else 1 + Admitted(files[1..], limits, source + files[0].sourceBytes, registry + files[0].registryBytes)
  }

  // How many details are kept: the first one over a budget closes them for good.
  function Kept(items: seq<Item>, limits: Limits, records: nat, text: nat): (n: nat)
    ensures n <= |items|
  {
    if items == [] || records + items[0].records > limits.records || text + items[0].text > limits.outputText then 0
    else 1 + Kept(items[1..], limits, records + items[0].records, text + items[0].text)
  }

  function Least(a: nat, b: nat): nat {
    if a <= b then a else b
  }

  // ---- the result ----

  // The values of one kind among the details.
  function Pick<T>(items: seq<Item>, f: Item -> Option<T>): seq<T> {
    if items == [] then []
    else
      var rest := Pick(items[1..], f);
      if f(items[0]).Some? then [f(items[0]).value] + rest else rest
  }

  function FieldOf(): Item -> Option<string> {
    (i: Item) => if i.value.Field? then Some(i.value.name) else None
  }

  function MethodOf(): Item -> Option<string> {
    (i: Item) => if i.value.Method? then Some(i.value.name) else None
  }

  function RelationOf(): Item -> Option<Relation> {
    (i: Item) => if i.value.Related? then Some(i.value.relation) else None
  }

  function FieldsIn(items: seq<Item>): seq<string> {
    Pick(items, FieldOf())
  }

  function MethodsIn(items: seq<Item>): seq<string> {
    Pick(items, MethodOf())
  }

  function RelationsIn(items: seq<Item>): seq<Relation> {
    Pick(items, RelationOf())
  }

  // The declaration with the first n of its details.
  function Filled(slot: Slot, n: nat): Class
    requires n <= |slot.items|
  {
    slot.class_.(fields := FieldsIn(slot.items[..n]), methods := MethodsIn(slot.items[..n]),
                 truncated := slot.class_.truncated || n < |slot.items|)
  }

  // The declarations when n details of their stream are kept.
  function Fill(slots: seq<Slot>, n: nat): (r: seq<Class>)
    ensures |r| == |slots|
  {
    if slots == [] then []
    else
      var here := Least(n, |slots[0].items|);
      [Filled(slots[0], here)] + Fill(slots[1..], n - here)
  }

  predicate PlaceLe(a: Place, b: Place) {
    if a.path != b.path then StringLe(a.path, b.path)
    else if a.start != b.start then a.start < b.start
    else StringLe(a.id, b.id)
  }

  function ByPath(): Le<Extraction> {
    (a: Extraction, b: Extraction) => StringLe(a.path, b.path)
  }

  function ClassOrder(): Le<Class> {
    (a: Class, b: Class) => PlaceLe(a.place, b.place)
  }

  function RelationOrder(): Le<Relation> {
    (a: Relation, b: Relation) => PlaceLe(a.place, b.place)
  }

  // Neighbours with the same id count once.
  function Dedup(rs: seq<Relation>): seq<Relation>
    decreases |rs|
  {
    if |rs| < 2 then rs
    else if rs[0].place.id == rs[1].place.id then Dedup([rs[0]] + rs[2..])
    else [rs[0]] + Dedup(rs[1..])
  }

  predicate AnyTruncated(files: seq<Extraction>) {
    exists i | 0 <= i < |files| :: files[i].truncated
  }

  predicate AnyIncomplete(files: seq<Extraction>) {
    exists i | 0 <= i < |files| :: files[i].registryIncomplete
  }

  // What is taken of the path-ordered streams.
  datatype Cut = Cut(files: seq<Extraction>, slots: seq<Slot>, details: nat)

  function Taken(extracts: seq<Extraction>, limits: Limits): Cut {
    TakenOf(Sort(ByPath(), extracts), limits)
  }

  function TakenOf(ordered: seq<Extraction>, limits: Limits): Cut {
    var files := ordered[..Admitted(ordered, limits, 0, 0)];
    var slots := Slots(files)[..Least(|Slots(files)|, limits.classes)];
    Cut(files, slots, Kept(Stream(slots), limits, 0, 0))
  }

  function Composed(extracts: seq<Extraction>, fileCount: nat, symbolCount: nat, limits: Limits): Catalog {
    if fileCount > limits.files || symbolCount > limits.symbols then Catalog([], [], true, false)
    else
      var cut := Taken(extracts, limits);
      var whole := |cut.files| == |extracts| && |cut.slots| == |Slots(cut.files)|;
      Catalog(
        Sort(ClassOrder(), Fill(cut.slots, cut.details)),
        Dedup(Sort(RelationOrder(), RelationsIn(Stream(cut.slots)[..cut.details]))),
        !whole || AnyTruncated(cut.files) || cut.details < |Stream(cut.slots)|,
        !whole || AnyIncomplete(cut.files))
  }

  // ---- laws of the streams ----

  lemma {:induction false} SlotsConcat(xs: seq<Extraction>, ys: seq<Extraction>)
    ensures Slots(xs + ys) == Slots(xs) + Slots(ys)
  {
    if xs == [] {
      assert xs + ys == ys;
    } else {
      assert (xs + ys)[1..] == xs[1..] + ys;
      SlotsConcat(xs[1..], ys);
    }
  }

  lemma {:induction false} StreamConcat(xs: seq<Slot>, ys: seq<Slot>)
    ensures Stream(xs + ys) == Stream(xs) + Stream(ys)
  {
    if xs == [] {
      assert xs + ys == ys;
    } else {
      assert (xs + ys)[1..] == xs[1..] + ys;
      StreamConcat(xs[1..], ys);
    }
  }

  function Records(items: seq<Item>): nat {
    if items == [] then 0 else items[0].records + Records(items[1..])
  }

  function Texts(items: seq<Item>): nat {
    if items == [] then 0 else items[0].text + Texts(items[1..])
  }

  // Going on from a part that was kept as a whole, or not going on at all.
  lemma {:induction false} KeptConcat(xs: seq<Item>, ys: seq<Item>, limits: Limits, records: nat, text: nat)
    ensures Kept(xs + ys, limits, records, text)
         == if Kept(xs, limits, records, text) < |xs| then Kept(xs, limits, records, text)
            else |xs| + Kept(ys, limits, records + Records(xs), text + Texts(xs))
  {
    if xs == [] {
      assert xs + ys == ys;
    } else {
      assert (xs + ys)[1..] == xs[1..] + ys && (xs + ys)[0] == xs[0];
      KeptConcat(xs[1..], ys, limits, records + xs[0].records, text + xs[0].text);
    }
  }

  // The kept details are within both budgets, and the next one is not.
  lemma {:induction false} KeptFits(items: seq<Item>, limits: Limits, records: nat, text: nat)
    requires records <= limits.records && text <= limits.outputText
    ensures var n := Kept(items, limits, records, text);
            && records + Records(items[..n]) <= limits.records && text + Texts(items[..n]) <= limits.outputText
            && (n < |items| ==> records + Records(items[..n + 1]) > limits.records || text + Texts(items[..n + 1]) > limits.outputText)
  {
    var n := Kept(items, limits, records, text);
    if n > 0 {
      KeptFits(items[1..], limits, records + items[0].records, text + items[0].text);
      assert items[..n][1..] == items[1..][..n - 1];
      if n < |items| {
        assert items[..n + 1][1..] == items[1..][..n];
      }
    } else if items != [] {
      assert items[..1][1..] == [];
    }
  }

  function SourceBytes(files: seq<Extraction>): nat {
    if files == [] then 0 else files[0].sourceBytes + SourceBytes(files[1..])
  }

  function RegistryBytes(files: seq<Extraction>): nat {
    if files == [] then 0 else files[0].registryBytes + RegistryBytes(files[1..])
  }

  // So are the admitted files, and the next one is not.
  lemma {:induction false} AdmittedFits(files: seq<Extraction>, limits: Limits, source: nat, registry: nat)
    requires source <= limits.totalBytes && registry <= limits.registryText
    ensures var n := Admitted(files, limits, source, registry);
            && source + SourceBytes(files[..n]) <= limits.totalBytes && registry + RegistryBytes(files[..n]) <= limits.registryText
            && (n < |files| ==> source + SourceBytes(files[..n + 1]) > limits.totalBytes
                                || registry + RegistryBytes(files[..n + 1]) > limits.registryText)
  {
    var n := Admitted(files, limits, source, registry);
    if n > 0 {
      AdmittedFits(files[1..], limits, source + files[0].sourceBytes, registry + files[0].registryBytes);
      assert files[..n][1..] == files[1..][..n - 1];
      if n < |files| {
        assert files[..n + 1][1..] == files[1..][..n];
      }
    } else if files != [] {
      assert files[..1][1..] == [];
    }
  }

  // Raising budgets keeps at least as many details, also of a longer stream.
  lemma {:induction false} KeptGrows(xs: seq<Item>, ys: seq<Item>, limits: Limits, more: Limits, records: nat, text: nat)
    requires xs <= ys && Within(limits, more)
    ensures Kept(xs, limits, records, text) <= Kept(ys, more, records, text)
  {
    if xs != [] {
      KeptGrows(xs[1..], ys[1..], limits, more, records + xs[0].records, text + xs[0].text);
    }
  }

  lemma {:induction false} AdmittedGrows(files: seq<Extraction>, limits: Limits, more: Limits, source: nat, registry: nat)
    requires Within(limits, more)
    ensures Admitted(files, limits, source, registry) <= Admitted(files, more, source, registry)
  {
    if files != [] {
      AdmittedGrows(files[1..], limits, more, source + files[0].sourceBytes, registry + files[0].registryBytes);
    }
  }

  predicate Within(limits: Limits, more: Limits) {
    && limits.totalBytes <= more.totalBytes && limits.registryText <= more.registryText && limits.classes <= more.classes
    && limits.records <= more.records && limits.outputText <= more.outputText
    && limits.files <= more.files && limits.symbols <= more.symbols
  }

  // ---- composition keeps prefixes ----

  // Raising any budget only extends what is taken of every stream.
  lemma TakenGrows(extracts: seq<Extraction>, limits: Limits, more: Limits)
    requires Within(limits, more)
    ensures var a, b := Taken(extracts, limits), Taken(extracts, more);
            && a.files <= b.files && a.slots <= b.slots
            && Stream(a.slots)[..a.details] <= Stream(b.slots)[..b.details]
  {
    var ordered := Sort(ByPath(), extracts);
    AdmittedGrows(ordered, limits, more, 0, 0);
    var a, b := Taken(extracts, limits), Taken(extracts, more);
    SlotsGrow(a.files, b.files);
    StreamGrows(a.slots, b.slots);
    KeptGrows(Stream(a.slots), Stream(b.slots), limits, more, 0, 0);
  }

  lemma SlotsGrow(xs: seq<Extraction>, ys: seq<Extraction>)
    requires xs <= ys
    ensures Slots(xs) <= Slots(ys)
  {
    assert ys == xs + ys[|xs|..];
    SlotsConcat(xs, ys[|xs|..]);
  }

  lemma StreamGrows(xs: seq<Slot>, ys: seq<Slot>)
    requires xs <= ys
    ensures Stream(xs) <= Stream(ys)
  {
    assert ys == xs + ys[|xs|..];
    StreamConcat(xs, ys[|xs|..]);
  }

  lemma PlaceOrder()
    ensures forall a, b :: PlaceLe(a, b) || PlaceLe(b, a)
    ensures forall a, b, c :: PlaceLe(a, b) && PlaceLe(b, c) ==> PlaceLe(a, c)
    ensures forall a, b :: PlaceLe(a, b) && PlaceLe(b, a) ==> a == b
  {
    forall a: string, b: string ensures StringLe(a, b) || StringLe(b, a)
      ensures StringLe(a, b) && StringLe(b, a) ==> a == b
    {
      StringTotal(a, b);
    }
    forall a: string, b: string, c: string | StringLe(a, b) && StringLe(b, c) ensures StringLe(a, c) {
      StringTransitive(a, b, c);
    }
  }

  lemma PathOrder()
    ensures Order(ByPath())
  {
    forall a: Extraction, b: Extraction ensures ByPath()(a, b) || ByPath()(b, a) {
      StringTotal(a.path, b.path);
    }
    forall a: Extraction, b: Extraction, c: Extraction | ByPath()(a, b) && ByPath()(b, c) ensures ByPath()(a, c) {
      StringTransitive(a.path, b.path, c.path);
    }
  }

  // The order in which the extractions are handed over does not matter.
  lemma OrderIrrelevant(extracts: seq<Extraction>, others: seq<Extraction>, fileCount: nat, symbolCount: nat, limits: Limits)
    requires multiset(extracts) == multiset(others)
    requires forall i, j | 0 <= i < j < |extracts| :: extracts[i].path != extracts[j].path
    ensures Composed(extracts, fileCount, symbolCount, limits) == Composed(others, fileCount, symbolCount, limits)
  {
    PathOrder();
    forall i, j | 0 <= i < |extracts| && 0 <= j < |extracts|
      && ByPath()(extracts[i], extracts[j]) && ByPath()(extracts[j], extracts[i])
      ensures extracts[i] == extracts[j]
    {
      StringTotal(extracts[i].path, extracts[j].path);
    }
    SortPermuted(ByPath(), extracts, others);
    assert |multiset(extracts)| == |extracts| && |multiset(others)| == |others|;
  }

  // ---- composition is honest about what it left out ----

  lemma {:induction false} FillAt(slots: seq<Slot>, n: nat, k: nat)
    requires k < |slots|
    ensures var before := |Stream(slots[..k])|;
            Fill(slots, n)[k] == Filled(slots[k], if n <= before then 0 else Least(n - before, |slots[k].items|))
  {
    if k == 0 {
      assert slots[..0] == [];
    } else {
      FillAt(slots[1..], n - Least(n, |slots[0].items|), k - 1);
      assert slots[..k][1..] == slots[1..][..k - 1];
    }
  }

  lemma {:induction false} StreamAt(slots: seq<Slot>, k: nat)
    requires k < |slots|
    ensures |Stream(slots[..k])| + |slots[k].items| <= |Stream(slots)|
    ensures Stream(slots)[|Stream(slots[..k])|..][..|slots[k].items|] == slots[k].items
  {
    assert slots == slots[..k] + ([slots[k]] + slots[k + 1..]);
    StreamConcat(slots[..k], [slots[k]] + slots[k + 1..]);
    StreamConcat([slots[k]], slots[k + 1..]);
    assert [slots[k]][1..] == [];
    assert Stream([slots[k]]) == slots[k].items;
  }

  // A declaration that is not called truncated shows every detail it was extracted with,
  // and all of them are among the kept ones.
  lemma ClassHonest(slots: seq<Slot>, n: nat, k: nat)
    requires k < |slots| && n <= |Stream(slots)| && !Fill(slots, n)[k].truncated
    ensures var c := Fill(slots, n)[k];
            && c == slots[k].class_.(fields := FieldsIn(slots[k].items), methods := MethodsIn(slots[k].items))
            && forall i | i in slots[k].items :: i in Stream(slots)[..n]
  {
    var items, before := slots[k].items, |Stream(slots[..k])|;
    FillAt(slots, n, k);
    StreamAt(slots, k);
    assert items[..|items|] == items;
    forall i | i in items ensures i in Stream(slots)[..n] {
      var j :| 0 <= j < |items| && items[j] == i;
      assert Stream(slots)[before..][..|items|][j] == Stream(slots)[before + j];
      assert Stream(slots)[..n][before + j] == i;
    }
  }

  lemma {:induction false} FileSlotAt(f: Extraction, from: nat, k: nat)
    requires from <= k < |f.classes|
    ensures FileSlots(f, from)[k - from] == Slot(f.classes[k], ItemsOf(f.items, k))
    decreases k - from
  {
    if from < k {
      FileSlotAt(f, from + 1, k);
    }
  }

  lemma {:induction false} SlotsHold(files: seq<Extraction>, f: Extraction, k: nat)
    requires f in files && k < |f.classes|
    ensures Slot(f.classes[k], ItemsOf(f.items, k)) in Slots(files)
  {
    if f == files[0] {
      FileSlotAt(f, 0, k);
      assert FileSlots(f, 0)[k] in FileSlots(f, 0);
    } else {
      SlotsHold(files[1..], f, k);
    }
  }

  // A catalog that is not called truncated has lost nothing: no declaration of any file,
  // and no detail that belongs to one of the declarations of its file.
  lemma NothingLost(extracts: seq<Extraction>, fileCount: nat, symbolCount: nat, limits: Limits, f: Extraction, k: nat)
    requires !Composed(extracts, fileCount, symbolCount, limits).truncated && f in extracts && k < |f.classes|
    ensures !f.truncated
    ensures f.classes[k].(fields := FieldsIn(ItemsOf(f.items, k)), methods := MethodsIn(ItemsOf(f.items, k)))
            in Composed(extracts, fileCount, symbolCount, limits).classes
    ensures forall i | i in ItemsOf(f.items, k) && i.value.Related? ::
              HasId(Composed(extracts, fileCount, symbolCount, limits).relations, i.value.relation.place.id)
  {
    var slots := Taken(extracts, limits).slots;
    AllTaken(extracts, fileCount, symbolCount, limits);
    SortHolds(ByPath(), extracts);
    assert f in multiset(Sort(ByPath(), extracts));
    SlotsHold(Sort(ByPath(), extracts), f, k);
    var s :| 0 <= s < |slots| && slots[s] == Slot(f.classes[k], ItemsOf(f.items, k));
    WholeClass(slots, s);
    ClassSorted(Fill(slots, |Stream(slots)|), Fill(slots, |Stream(slots)|)[s]);
    forall i | i in ItemsOf(f.items, k) && i.value.Related?
      ensures HasId(Dedup(Sort(RelationOrder(), RelationsIn(Stream(slots)))), i.value.relation.place.id)
    {
      WholeStream(slots, s, i);
      RelationKept(Stream(slots), i);
    }
  }

  // c is declaration k of a file, with all of its details.
  ghost predicate Shown(f: Extraction, k: nat, c: Class, relations: seq<Relation>) {
    && k < |f.classes|
    && c == f.classes[k].(fields := FieldsIn(ItemsOf(f.items, k)), methods := MethodsIn(ItemsOf(f.items, k)))
    && forall i | i in ItemsOf(f.items, k) && i.value.Related? :: HasId(relations, i.value.relation.place.id)
  }

  // The same of a whole catalog, cut or not: a declaration in it that is not called
  // truncated is one of a file with every detail, its relations included.
  lemma CatalogHonest(extracts: seq<Extraction>, fileCount: nat, symbolCount: nat, limits: Limits, c: Class)
    requires c in Composed(extracts, fileCount, symbolCount, limits).classes && !c.truncated
    ensures exists f, k :: f in extracts && Shown(f, k, c, Composed(extracts, fileCount, symbolCount, limits).relations)
  {
    var cut := Taken(extracts, limits);
    var classes, kept := Fill(cut.slots, cut.details), Stream(cut.slots)[..cut.details];
    SortHolds(ClassOrder(), classes);
    assert c in multiset(classes);
    var s :| 0 <= s < |classes| && classes[s] == c;
    ClassHonest(cut.slots, cut.details, s);
    var f, k := SlotFrom(cut.files, cut.slots[s]);
    SortHolds(ByPath(), extracts);
    assert f in multiset(Sort(ByPath(), extracts));
    forall i | i in ItemsOf(f.items, k) && i.value.Related?
      ensures HasId(Dedup(Sort(RelationOrder(), RelationsIn(kept))), i.value.relation.place.id)
    {
      RelationKept(kept, i);
    }
    assert Shown(f, k, c, Dedup(Sort(RelationOrder(), RelationsIn(kept))));
  }

  lemma {:induction false} SlotFrom(files: seq<Extraction>, slot: Slot) returns (f: Extraction, k: nat)
    requires slot in Slots(files)
    ensures f in files && k < |f.classes| && slot == Slot(f.classes[k], ItemsOf(f.items, k))
  {
    if slot in FileSlots(files[0], 0) {
      f := files[0];
      k :| 0 <= k < |FileSlots(f, 0)| && FileSlots(f, 0)[k] == slot;
      FileSlotAt(f, 0, k);
    } else {
      f, k := SlotFrom(files[1..], slot);
    }
  }

  lemma AllTaken(extracts: seq<Extraction>, fileCount: nat, symbolCount: nat, limits: Limits)
    requires !Composed(extracts, fileCount, symbolCount, limits).truncated
    ensures var slots := Slots(Sort(ByPath(), extracts));
            && Taken(extracts, limits).slots == slots
            && (forall f | f in extracts :: !f.truncated)
            && var c := Composed(extracts, fileCount, symbolCount, limits);
               && c.classes == Sort(ClassOrder(), Fill(slots, |Stream(slots)|))
               && c.relations == Dedup(Sort(RelationOrder(), RelationsIn(Stream(slots))))
  {
    var cut, ordered := Taken(extracts, limits), Sort(ByPath(), extracts);
    SortHolds(ByPath(), extracts);
    SortLength(ByPath(), extracts);
    assert cut.files == ordered && cut.slots == Slots(ordered);
    assert Stream(cut.slots)[..cut.details] == Stream(cut.slots);
    forall f | f in extracts ensures !f.truncated {
      assert f in multiset(ordered);
    }
  }

  lemma WholeClass(slots: seq<Slot>, k: nat)
    requires k < |slots|
    ensures Fill(slots, |Stream(slots)|)[k] == Filled(slots[k], |slots[k].items|)
    ensures slots[k].items[..|slots[k].items|] == slots[k].items
  {
    FillAt(slots, |Stream(slots)|, k);
    StreamAt(slots, k);
  }

  lemma WholeStream(slots: seq<Slot>, k: nat, i: Item)
    requires k < |slots| && i in slots[k].items
    ensures i in Stream(slots)
  {
    StreamAt(slots, k);
    var j :| 0 <= j < |slots[k].items| && slots[k].items[j] == i;
    assert Stream(slots)[|Stream(slots[..k])|..][..|slots[k].items|][j] == Stream(slots)[|Stream(slots[..k])| + j];
  }

  lemma ClassSorted(classes: seq<Class>, c: Class)
    requires c in classes
    ensures c in Sort(ClassOrder(), classes)
  {
    SortHolds(ClassOrder(), classes);
    assert c in multiset(classes);
  }

  lemma RelationKept(items: seq<Item>, i: Item)
    requires i in items && i.value.Related?
    ensures HasId(Dedup(Sort(RelationOrder(), RelationsIn(items))), i.value.relation.place.id)
  {
    var rs := RelationsIn(items);
    RelationListed(items, i);
    SortHolds(RelationOrder(), rs);
    assert i.value.relation in multiset(rs);
    DedupIds(Sort(RelationOrder(), rs), i.value.relation.place.id);
  }

  lemma {:induction false} RelationListed(items: seq<Item>, i: Item)
    requires i in items && i.value.Related?
    ensures i.value.relation in RelationsIn(items)
  {
    if items[0] != i {
      RelationListed(items[1..], i);
    }
  }

  // ---- relations ----

  ghost predicate HasId(rs: seq<Relation>, id: string) {
    exists r | r in rs :: r.place.id == id
  }

  lemma {:induction false} DedupIds(rs: seq<Relation>, id: string)
    ensures HasId(Dedup(rs), id) <==> HasId(rs, id)
    decreases |rs|
  {
    if |rs| >= 2 {
      if rs[0].place.id == rs[1].place.id {
        DedupIds([rs[0]] + rs[2..], id);
        assert rs == [rs[0], rs[1]] + rs[2..];
      } else {
        DedupIds(rs[1..], id);
        assert rs == [rs[0]] + rs[1..];
      }
    }
  }

  ghost predicate DistinctIds(rs: seq<Relation>) {
    forall i, j | 0 <= i < j < |rs| :: rs[i].place.id != rs[j].place.id
  }

  // An id that comes again later comes again at once.
  ghost predicate Contiguous(rs: seq<Relation>) {
    forall i, k | 0 <= i < k < |rs| && rs[i].place.id == rs[k].place.id :: rs[i + 1].place.id == rs[i].place.id
  }

  // Only neighbours are compared, so duplicates go exactly when equal ids are neighbours.
  lemma {:induction false} DedupDistinct(rs: seq<Relation>)
    ensures DistinctIds(Dedup(rs)) <==> Contiguous(rs)
    decreases |rs|
  {
    if |rs| >= 2 {
      if rs[0].place.id == rs[1].place.id {
        var less := [rs[0]] + rs[2..];
        DedupDistinct(less);
        ContiguousMerge(rs, less);
      } else {
        DedupDistinct(rs[1..]);
        DedupIds(rs[1..], rs[0].place.id);
        ContiguousSplit(rs);
        DistinctSplit(rs[0], Dedup(rs[1..]));
      }
    }
  }

  lemma DistinctSplit(r: Relation, rs: seq<Relation>)
    ensures DistinctIds([r] + rs) <==> DistinctIds(rs) && !HasId(rs, r.place.id)
  {
    var all := [r] + rs;
    if DistinctIds(all) {
      forall i, j | 0 <= i < j < |rs| ensures rs[i].place.id != rs[j].place.id {
        assert all[i + 1] == rs[i] && all[j + 1] == rs[j];
      }
    }
    if HasId(rs, r.place.id) {
      var j :| 0 <= j < |rs| && rs[j].place.id == r.place.id;
      assert all[0].place.id == all[j + 1].place.id;
    }
  }

  lemma ContiguousMerge(rs: seq<Relation>, less: seq<Relation>)
    requires |rs| >= 2 && rs[0].place.id == rs[1].place.id && less == [rs[0]] + rs[2..]
    ensures Contiguous(rs) <==> Contiguous(less)
  {
    if Contiguous(rs) {
      forall i, k | 0 <= i < k < |less| && less[i].place.id == less[k].place.id ensures less[i + 1].place.id == less[i].place.id {
        assert less[k] == rs[k + 1] && less[i + 1] == rs[i + 2] && less[i].place.id == rs[i + 1].place.id;
      }
    }
    if Contiguous(less) {
      forall i, k | 0 <= i < k < |rs| && rs[i].place.id == rs[k].place.id ensures rs[i + 1].place.id == rs[i].place.id {
        if i > 0 {
          assert less[k - 1] == rs[k] && less[i] == rs[i + 1] && less[i - 1].place.id == rs[i].place.id;
        }
      }
    }
  }

  lemma ContiguousSplit(rs: seq<Relation>)
    requires |rs| >= 2 && rs[0].place.id != rs[1].place.id
    ensures Contiguous(rs) <==> Contiguous(rs[1..]) && !HasId(rs[1..], rs[0].place.id)
  {
    var rest := rs[1..];
    if Contiguous(rs) {
      forall i, k | 0 <= i < k < |rest| && rest[i].place.id == rest[k].place.id ensures rest[i + 1].place.id == rest[i].place.id {
        assert rs[i + 1] == rest[i] && rs[i + 2] == rest[i + 1] && rs[k + 1] == rest[k];
      }
    }
    if Contiguous(rest) && !HasId(rest, rs[0].place.id) {
      forall i, k | 0 <= i < k < |rs| && rs[i].place.id == rs[k].place.id ensures rs[i + 1].place.id == rs[i].place.id {
        assert rest[k - 1] == rs[k] && rest[k - 1] in rest;
        if i > 0 {
          assert rest[i] == rs[i + 1] && rest[i - 1] == rs[i];
        }
      }
    }
    if HasId(rest, rs[0].place.id) {
      var k :| 0 <= k < |rest| && rest[k].place.id == rs[0].place.id;
      assert rs[0].place.id == rs[k + 1].place.id;
    }
  }

  // An id names one place.
  ghost predicate Placed(rs: seq<Relation>) {
    forall a, b | a in rs && b in rs && a.place.id == b.place.id :: a.place == b.place
  }

  // Relations whose ids name one place each come out sorted and without duplicates.
  lemma RelationsDistinct(rs: seq<Relation>)
    requires Placed(rs)
    ensures var r := Dedup(Sort(RelationOrder(), rs)); DistinctIds(r) && Sorted(RelationOrder(), r)
  {
    var sorted := Sort(RelationOrder(), rs);
    PlaceOrder();
    SortSorts(RelationOrder(), rs);
    SortHolds(RelationOrder(), rs);
    forall i, k | 0 <= i < k < |sorted| && sorted[i].place.id == sorted[k].place.id
      ensures sorted[i + 1].place.id == sorted[i].place.id
    {
      assert sorted[i] in multiset(rs) && sorted[k] in multiset(rs);
      assert RelationOrder()(sorted[i], sorted[i + 1]);
      if i + 1 < k {
        assert RelationOrder()(sorted[i + 1], sorted[k]);
      }
    }
    DedupDistinct(sorted);
    DedupSorted(RelationOrder(), sorted);
  }

  lemma {:induction false} DedupSorted(le: Le<Relation>, rs: seq<Relation>)
    requires Sorted(le, rs)
    ensures Sorted(le, Dedup(rs)) && forall r | r in Dedup(rs) :: r in rs
    decreases |rs|
  {
    if |rs| >= 2 {
      if rs[0].place.id == rs[1].place.id {
        var less := [rs[0]] + rs[2..];
        forall i, j | 0 <= i < j < |less| ensures le(less[i], less[j]) {
          assert less[j] == rs[j + 1] && less[i] == (if i == 0 then rs[0] else rs[i + 1]);
        }
        DedupSorted(le, less);
      } else {
        DedupSorted(le, rs[1..]);
        var rest := Dedup(rs[1..]);
        forall j | 0 <= j < |rest| ensures le(rs[0], rest[j]) {
          assert rest[j] in rs[1..];
        }
      }
    }
  }

  // A relation that was extracted from one of the files.
  ghost predicate Extracted(extracts: seq<Extraction>, r: Relation) {
    exists f, i {:trigger f in extracts, i in f.items} :: f in extracts && i in f.items && i.value == Related(r)
  }

  // An id names one place in the whole workspace.
  ghost predicate PlacedIn(extracts: seq<Extraction>) {
    forall a, b {:trigger Extracted(extracts, a), Extracted(extracts, b)} ::
      Extracted(extracts, a) && Extracted(extracts, b) && a.place.id == b.place.id ==> a.place == b.place
  }

  // The relations of a catalog, cut or not, are sorted and without duplicates.
  lemma {:induction false} CatalogDistinct(extracts: seq<Extraction>, fileCount: nat, symbolCount: nat, limits: Limits)
    requires PlacedIn(extracts)
    ensures var r := Composed(extracts, fileCount, symbolCount, limits).relations; DistinctIds(r) && Sorted(RelationOrder(), r)
  {
    var cut := Taken(extracts, limits);
    var rs := RelationsIn(Stream(cut.slots)[..cut.details]);
    forall r | r in rs ensures Extracted(extracts, r) {
      TakenFrom(extracts, limits, r);
    }
    RelationsDistinct(rs);
  }

  lemma {:induction false} TakenFrom(extracts: seq<Extraction>, limits: Limits, r: Relation)
    requires var cut := Taken(extracts, limits); r in RelationsIn(Stream(cut.slots)[..cut.details])
    ensures Extracted(extracts, r)
  {
    var cut := Taken(extracts, limits);
    var f, i := RelationSource(cut.files, cut.slots, Stream(cut.slots)[..cut.details], r);
    SortHolds(ByPath(), extracts);
    assert f in multiset(Sort(ByPath(), extracts));
    assert f in extracts && i in f.items;
  }

  lemma {:induction false} RelationSource(files: seq<Extraction>, slots: seq<Slot>, kept: seq<Item>, r: Relation)
    returns (f: Extraction, i: Item)
    requires slots <= Slots(files) && kept <= Stream(slots) && r in RelationsIn(kept)
    ensures f in files && i in f.items && i.value == Related(r)
  {
    i := RelationFrom(kept, r);
    var slot := StreamFrom(slots, i);
    var k;
    f, k := SlotFrom(files, slot);
    ItemFrom(f.items, k, i);
  }

  lemma {:induction false} RelationFrom(items: seq<Item>, r: Relation) returns (i: Item)
    requires r in RelationsIn(items)
    ensures i in items && i.value == Related(r)
  {
    i := items[0];
    if i.value != Related(r) {
      i := RelationFrom(items[1..], r);
    }
  }

  lemma {:induction false} StreamFrom(slots: seq<Slot>, i: Item) returns (slot: Slot)
    requires i in Stream(slots)
    ensures slot in slots && i in slot.items
  {
    slot := slots[0];
    if i !in slot.items {
      slot := StreamFrom(slots[1..], i);
    }
  }

  lemma {:induction false} ItemFrom(items: seq<Item>, k: nat, i: Item)
    requires i in ItemsOf(items, k)
    ensures i in items
  {
    if i != items[0] {
      ItemFrom(items[1..], k, i);
    }
  }

  // ---- the composition as it runs ----

  // What the loops have built from some declarations. open: no detail was dropped yet.
  datatype Progress = Progress(classes: seq<Class>, relations: seq<Relation>, records: nat, text: nat, open: bool)

  ghost function Built(slots: seq<Slot>, limits: Limits): Progress {
    BuiltTo(slots, Kept(Stream(slots), limits, 0, 0))
  }

  ghost function BuiltTo(slots: seq<Slot>, n: nat): Progress
    requires n <= |Stream(slots)|
  {
    var stream := Stream(slots);
    Progress(Fill(slots, n), RelationsIn(stream[..n]), Records(stream[..n]), Texts(stream[..n]), n == |stream|)
  }

  lemma {:induction false} PickConcat<T>(xs: seq<Item>, ys: seq<Item>, f: Item -> Option<T>)
    ensures Pick(xs + ys, f) == Pick(xs, f) + Pick(ys, f)
  {
    if xs == [] {
      assert xs + ys == ys;
    } else {
      var rest := xs[1..];
      assert (xs + ys)[1..] == rest + ys && (xs + ys)[0] == xs[0];
      PickConcat(rest, ys, f);
      if f(xs[0]).Some? {
        assert [f(xs[0]).value] + (Pick(rest, f) + Pick(ys, f)) == [f(xs[0]).value] + Pick(rest, f) + Pick(ys, f);
      }
    }
  }

  lemma PickOne<T>(x: Item, f: Item -> Option<T>)
    ensures Pick([x], f) == if f(x).Some? then [f(x).value] else []
  {
    assert [x][1..] == [];
  }

  lemma {:induction false} SumsConcat(xs: seq<Item>, ys: seq<Item>)
    ensures Records(xs + ys) == Records(xs) + Records(ys) && Texts(xs + ys) == Texts(xs) + Texts(ys)
  {
    if xs == [] {
      assert xs + ys == ys;
    } else {
      assert (xs + ys)[1..] == xs[1..] + ys && (xs + ys)[0] == xs[0];
      SumsConcat(xs[1..], ys);
    }
  }

  lemma {:induction false} FillConcat(xs: seq<Slot>, ys: seq<Slot>, n: nat)
    ensures Fill(xs + ys, n) == Fill(xs, n) + Fill(ys, n - Least(n, |Stream(xs)|))
  {
    if xs == [] {
      assert xs + ys == ys;
    } else {
      assert (xs + ys)[1..] == xs[1..] + ys && (xs + ys)[0] == xs[0];
      FillConcat(xs[1..], ys, n - Least(n, |xs[0].items|));
    }
  }

  lemma {:induction false} FillFull(slots: seq<Slot>, n: nat)
    requires n >= |Stream(slots)|
    ensures Fill(slots, n) == Fill(slots, |Stream(slots)|)
  {
    if slots != [] {
      FillFull(slots[1..], n - |slots[0].items|);
    }
  }

  // One more declaration with the first m of its details.
  ghost function Added(b: Progress, slot: Slot, m: nat): Progress
    requires m <= |slot.items|
  {
    var now := slot.items[..m];
    Progress(b.classes + [Filled(slot, m)], b.relations + RelationsIn(now), b.records + Records(now), b.text + Texts(now),
             b.open && m == |slot.items|)
  }

  ghost function Room(b: Progress, items: seq<Item>, limits: Limits): (n: nat)
    ensures n <= |items|
  {
    if b.open then Kept(items, limits, b.records, b.text) else 0
  }

  lemma FillSnoc(slots: seq<Slot>, slot: Slot, n: nat, m: nat)
    requires m <= |slot.items| && n <= |Stream(slots)| && (m > 0 ==> n == |Stream(slots)|)
    ensures Fill(slots + [slot], n + m) == Fill(slots, n) + [Filled(slot, m)]
  {
    FillConcat(slots, [slot], n + m);
    if m > 0 {
      FillFull(slots, n + m);
    }
    assert [slot][1..] == [];
    assert Fill([slot], m) == [Filled(slot, m)];
  }

  lemma KeptSnoc(slots: seq<Slot>, slot: Slot, limits: Limits)
    ensures Stream(slots + [slot]) == Stream(slots) + slot.items
    ensures Kept(Stream(slots + [slot]), limits, 0, 0)
         == Kept(Stream(slots), limits, 0, 0) + Room(Built(slots, limits), slot.items, limits)
  {
    var stream := Stream(slots);
    StreamConcat(slots, [slot]);
    assert [slot][1..] == [];
    assert Stream([slot]) == slot.items;
    assert stream[..|stream|] == stream;
    KeptConcat(stream, slot.items, limits, 0, 0);
  }

  lemma StreamSnoc(stream: seq<Item>, items: seq<Item>, n: nat, m: nat)
    requires n <= |stream| && m <= |items| && (m > 0 ==> n == |stream|)
    ensures var now := (stream + items)[..n + m];
            && RelationsIn(now) == RelationsIn(stream[..n]) + RelationsIn(items[..m])
            && Records(now) == Records(stream[..n]) + Records(items[..m]) && Texts(now) == Texts(stream[..n]) + Texts(items[..m])
  {
    assert (stream + items)[..n + m] == stream[..n] + items[..m];
    PickConcat(stream[..n], items[..m], RelationOf());
    SumsConcat(stream[..n], items[..m]);
  }

  lemma BuiltSnoc(slots: seq<Slot>, slot: Slot, limits: Limits)
    ensures Built(slots + [slot], limits) == Added(Built(slots, limits), slot, Room(Built(slots, limits), slot.items, limits))
  {
    var n, m := Kept(Stream(slots), limits, 0, 0), Room(Built(slots, limits), slot.items, limits);
    KeptSnoc(slots, slot, limits);
    AddedAt(slots, slot, n, m, Built(slots, limits));
  }

  lemma AddedAt(slots: seq<Slot>, slot: Slot, n: nat, m: nat, b: Progress)
    requires n <= |Stream(slots)| && m <= |slot.items| && (m > 0 ==> n == |Stream(slots)|)
    requires b == BuiltTo(slots, n) && Stream(slots + [slot]) == Stream(slots) + slot.items
    ensures BuiltTo(slots + [slot], n + m) == Added(b, slot, m)
  {
    FillSnoc(slots, slot, n, m);
    StreamSnoc(Stream(slots), slot.items, n, m);
  }

  // Whether detail i is kept, after those before it.
  ghost function Next(b: Progress, items: seq<Item>, i: nat, limits: Limits): nat
    requires i < |items|
  {
    var n := Room(b, items[..i], limits);
    var fits := b.records + Records(items[..i]) + items[i].records <= limits.records
                && b.text + Texts(items[..i]) + items[i].text <= limits.outputText;
    if b.open && n == i && fits then i + 1 else n
  }

  // What the loop has after i details.
  ghost predicate Adding(b: Progress, class_: Class, items: seq<Item>, i: nat, limits: Limits, c: Class, r: Progress)
    requires i <= |items|
  {
    var n := Room(b, items[..i], limits);
    var now := items[..n];
    && c == class_.(fields := FieldsIn(now), methods := MethodsIn(now), truncated := class_.truncated || n < i)
    && r == Progress(b.classes, b.relations + RelationsIn(now), b.records + Records(now), b.text + Texts(now), b.open && n == i)
  }

  lemma RoomStep(b: Progress, items: seq<Item>, i: nat, limits: Limits)
    requires i < |items|
    ensures Room(b, items[..i + 1], limits) == Next(b, items, i, limits)
  {
    assert items[..i + 1] == items[..i] + [items[i]];
    KeptConcat(items[..i], [items[i]], limits, b.records, b.text);
  }

  lemma InStep(items: seq<Item>, i: nat)
    requires i < |items|
    ensures var v := items[i].value;
            && FieldsIn(items[..i + 1]) == FieldsIn(items[..i]) + (if v.Field? then [v.name] else [])
            && MethodsIn(items[..i + 1]) == MethodsIn(items[..i]) + (if v.Method? then [v.name] else [])
            && RelationsIn(items[..i + 1]) == RelationsIn(items[..i]) + (if v.Related? then [v.relation] else [])
            && Records(items[..i + 1]) == Records(items[..i]) + items[i].records
            && Texts(items[..i + 1]) == Texts(items[..i]) + items[i].text
  {
    assert items[..i + 1] == items[..i] + [items[i]];
    assert [items[i]][1..] == [];
    PickConcat(items[..i], [items[i]], FieldOf());
    PickConcat(items[..i], [items[i]], MethodOf());
    PickConcat(items[..i], [items[i]], RelationOf());
    PickOne(items[i], FieldOf());
    PickOne(items[i], MethodOf());
    PickOne(items[i], RelationOf());
    SumsConcat(items[..i], [items[i]]);
  }

  lemma AddingStep(b: Progress, class_: Class, items: seq<Item>, i: nat, limits: Limits,
      c0: Class, r0: Progress, c: Class, r: Progress)
    requires i < |items| && Adding(b, class_, items, i, limits, c0, r0)
    requires Detailed(c0, r0, items[i], limits, c, r)
    ensures Adding(b, class_, items, i + 1, limits, c, r)
  {
    RoomStep(b, items, i, limits);
    InStep(items, i);
  }

  // One detail more, or one dropped.
  ghost predicate Detailed(c: Class, b: Progress, item: Item, limits: Limits, d: Class, r: Progress) {
    if !b.open || b.records + item.records > limits.records || b.text + item.text > limits.outputText then
      d == c.(truncated := true) && r == b.(open := false)
    else
      && d == c.(fields := c.fields + (if item.value.Field? then [item.value.name] else []),
                 methods := c.methods + (if item.value.Method? then [item.value.name] else []))
      && r == b.(records := b.records + item.records, text := b.text + item.text,
                 relations := b.relations + (if item.value.Related? then [item.value.relation] else []))
  }

  // The details of one declaration, until a budget closes them.
  method AddClass(b: Progress, f: Extraction, index: nat, limits: Limits, ghost slots: seq<Slot>) returns (r: Progress)
    requires b == Built(slots, limits) && index < |f.classes|
    ensures r == Built(slots + [Slot(f.classes[index], ItemsOf(f.items, index))], limits)
  {
    var items := ItemsOf(f.items, index);
    var c := f.classes[index].(fields := [], methods := []);
    r := b;
    for i := 0 to |items|
      invariant Adding(b, f.classes[index], items, i, limits, c, r)
    {
      ghost var c0, r0 := c, r;
      c, r := AddDetail(c, r, items[i], limits);
      AddingStep(b, f.classes[index], items, i, limits, c0, r0, c, r);
    }
    assert items[..|items|] == items;
    BuiltSnoc(slots, Slot(f.classes[index], items), limits);
    r := r.(classes := r.classes + [c]);
  }

  method AddDetail(c: Class, b: Progress, item: Item, limits: Limits) returns (d: Class, r: Progress)
    ensures Detailed(c, b, item, limits, d, r)
  {
    d, r := c, b;
    if !b.open || b.records + item.records > limits.records || b.text + item.text > limits.outputText {
      return c.(truncated := true), b.(open := false);
    }
    r := r.(records := r.records + item.records, text := r.text + item.text);
    if item.value.Field? {
      d := d.(fields := d.fields + [item.value.name]);
    } else if item.value.Method? {
      d := d.(methods := d.methods + [item.value.name]);
    } else if item.value.Related? {
      r := r.(relations := r.relations + [item.value.relation]);
    }
  }

  lemma FileSlotNext(f: Extraction, index: nat)
    requires index < |f.classes|
    ensures FileSlots(f, 0)[..index + 1] == FileSlots(f, 0)[..index] + [Slot(f.classes[index], ItemsOf(f.items, index))]
  {
    FileSlotAt(f, 0, index);
  }

  // The declarations of one file, until their number is reached.
  method AddFile(b: Progress, f: Extraction, limits: Limits, ghost slots: seq<Slot>) returns (r: Progress, full: bool)
    requires b == Built(slots, limits) && |slots| <= limits.classes
    ensures var all := slots + FileSlots(f, 0);
            && full == (|all| > limits.classes)
            && r == Built(all[..Least(|all|, limits.classes)], limits)
  {
    r := b;
    ghost var own := FileSlots(f, 0);
    assert slots + own[..0] == slots;
    for index := 0 to |f.classes|
      invariant |slots| + index <= limits.classes && r == Built(slots + own[..index], limits)
    {
      if |r.classes| == limits.classes {
        assert (slots + own)[..|slots| + index] == slots + own[..index];
        return r, true;
      }
      r := AddClass(r, f, index, limits, slots + own[..index]);
      FileSlotNext(f, index);
      assert slots + own[..index] + [Slot(f.classes[index], ItemsOf(f.items, index))] == slots + own[..index + 1];
    }
    assert (slots + own)[..|slots + own|] == slots + own[..|own|];
    return r, false;
  }

  // The composition is at file j of the ordered ones, with nothing cut off so far.
  ghost predicate At(ordered: seq<Extraction>, j: nat, limits: Limits, source: nat, registry: nat,
                     b: Progress, truncated: bool, incomplete: bool) {
    && j <= |ordered| && j + Admitted(ordered[j..], limits, source, registry) == Admitted(ordered, limits, 0, 0)
    && |Slots(ordered[..j])| <= limits.classes && b == Built(Slots(ordered[..j]), limits)
    && truncated == AnyTruncated(ordered[..j]) && incomplete == AnyIncomplete(ordered[..j])
  }

  ghost predicate Stopped(ordered: seq<Extraction>, limits: Limits, b: Progress) {
    var cut := TakenOf(ordered, limits);
    b == Built(cut.slots, limits) && (|cut.files| != |ordered| || |cut.slots| != |Slots(cut.files)|)
  }

  lemma SlotsNext(ordered: seq<Extraction>, j: nat)
    requires j < |ordered|
    ensures Slots(ordered[..j + 1]) == Slots(ordered[..j]) + FileSlots(ordered[j], 0)
  {
    assert ordered[..j + 1] == ordered[..j] + [ordered[j]];
    SlotsConcat(ordered[..j], [ordered[j]]);
    assert [ordered[j]][1..] == [];
    assert Slots([ordered[j]]) == FileSlots(ordered[j], 0) + Slots([]);
  }

  lemma AnyNext(ordered: seq<Extraction>, j: nat)
    requires j < |ordered|
    ensures AnyTruncated(ordered[..j + 1]) <==> AnyTruncated(ordered[..j]) || ordered[j].truncated
    ensures AnyIncomplete(ordered[..j + 1]) <==> AnyIncomplete(ordered[..j]) || ordered[j].registryIncomplete
  {
    assert ordered[..j + 1][j] == ordered[j];
    assert forall i | 0 <= i < j :: ordered[..j + 1][i] == ordered[..j][i];
  }

  lemma AtNext(ordered: seq<Extraction>, j: nat, limits: Limits, source: nat, registry: nat,
      b: Progress, next: Progress, truncated: bool, incomplete: bool)
    requires At(ordered, j, limits, source, registry, b, truncated, incomplete)
    requires j < |ordered| && Affordable(ordered[j], limits, source, registry)
    requires var all := Slots(ordered[..j]) + FileSlots(ordered[j], 0);
             |all| <= limits.classes && next == Built(all[..|all|], limits)
    ensures At(ordered, j + 1, limits, source + ordered[j].sourceBytes, registry + ordered[j].registryBytes, next,
               truncated || ordered[j].truncated, incomplete || ordered[j].registryIncomplete)
  {
    var f := ordered[j];
    SlotsNext(ordered, j);
    assert ordered[j..][1..] == ordered[j + 1..];
    AnyNext(ordered, j);
    var all := Slots(ordered[..j + 1]);
    assert all[..|all|] == all;
  }

  lemma AtEnd(ordered: seq<Extraction>, j: nat, limits: Limits, source: nat, registry: nat,
      b: Progress, truncated: bool, incomplete: bool)
    requires At(ordered, j, limits, source, registry, b, truncated, incomplete)
    requires j == |ordered| || !Affordable(ordered[j], limits, source, registry)
    ensures var cut := TakenOf(ordered, limits);
            b == Built(cut.slots, limits) && cut.files == ordered[..j] && cut.slots == Slots(cut.files)
  {
    assert Slots(ordered[..j])[..|Slots(ordered[..j])|] == Slots(ordered[..j]);
  }

  lemma AtFull(ordered: seq<Extraction>, j: nat, limits: Limits, source: nat, registry: nat,
      before: Progress, b: Progress, truncated: bool, incomplete: bool)
    requires At(ordered, j, limits, source, registry, before, truncated, incomplete)
    requires j < |ordered| && Affordable(ordered[j], limits, source, registry)
    requires var all := Slots(ordered[..j]) + FileSlots(ordered[j], 0);
             |all| > limits.classes && b == Built(all[..limits.classes], limits)
    ensures Stopped(ordered, limits, b)
  {
    var cut := TakenOf(ordered, limits);
    SlotsNext(ordered, j);
    assert Admitted(ordered[j..], limits, source, registry) > 0;
    SlotsGrow(ordered[..j + 1], cut.files);
    assert cut.slots == Slots(ordered[..j + 1])[..limits.classes];
  }

  ghost predicate Running(ordered: seq<Extraction>, j: nat, limits: Limits, source: nat, registry: nat,
                          b: Progress, truncated: bool, incomplete: bool, stopped: bool) {
    if stopped then Stopped(ordered, limits, b) else At(ordered, j, limits, source, registry, b, truncated, incomplete)
  }

  // What the loop over the files has found out when it ends.
  ghost predicate Assembled(ordered: seq<Extraction>, limits: Limits, b: Progress, truncated: bool, incomplete: bool) {
    var cut := TakenOf(ordered, limits);
    var whole := |cut.files| == |ordered| && |cut.slots| == |Slots(cut.files)|;
    && b == Built(cut.slots, limits)
    && truncated == (!whole || AnyTruncated(cut.files))
    && incomplete == (!whole || AnyIncomplete(cut.files))
  }

  lemma Assembles(ordered: seq<Extraction>, j: nat, limits: Limits, source: nat, registry: nat,
                  b: Progress, truncated: bool, incomplete: bool, stopped: bool)
    requires Running(ordered, j, limits, source, registry, b, truncated, incomplete, stopped) && (stopped || j == |ordered|)
    ensures Assembled(ordered, limits, b, truncated || stopped, incomplete || stopped)
  {
    if !stopped {
      AtEnd(ordered, j, limits, source, registry, b, truncated, incomplete);
    }
  }

  method Compose(extracts: seq<Extraction>, fileCount: nat, symbolCount: nat, limits: Limits) returns (c: Catalog)
    ensures c == Composed(extracts, fileCount, symbolCount, limits)
  {
    if fileCount > limits.files || symbolCount > limits.symbols {
      return Catalog([], [], true, false);
    }
    SortLength(ByPath(), extracts);
    var b, truncated, incomplete := Admit(Sort(ByPath(), extracts), limits);
    c := Catalog(Sort(ClassOrder(), b.classes), Dedup(Sort(RelationOrder(), b.relations)), truncated || !b.open, incomplete);
  }

  method AdmitFile(ghost ordered: seq<Extraction>, f: Extraction, ghost j: nat, limits: Limits, ghost source: nat,
                   ghost registry: nat, b: Progress, ghost truncated: bool, ghost incomplete: bool)
    returns (r: Progress, full: bool)
    requires At(ordered, j, limits, source, registry, b, truncated, incomplete)
    requires j < |ordered| && f == ordered[j] && Affordable(f, limits, source, registry)
    ensures Running(ordered, j + 1, limits, source + f.sourceBytes, registry + f.registryBytes, r,
                    truncated || f.truncated, incomplete || f.registryIncomplete, full)
  {
    r, full := AddFile(b, f, limits, Slots(ordered[..j]));
    if full {
      AtFull(ordered, j, limits, source, registry, b, r, truncated, incomplete);
    } else {
      AtNext(ordered, j, limits, source, registry, b, r, truncated, incomplete);
    }
  }

  // The loop over the files, in the order of their paths.
  method Admit(ordered: seq<Extraction>, limits: Limits) returns (b: Progress, truncated: bool, incomplete: bool)
    ensures Assembled(ordered, limits, b, truncated, incomplete)
  {
    var source: nat, registry: nat := 0, 0;
    var stopped, j := false, 0;
    truncated, incomplete, b := false, false, Progress([], [], 0, 0, true);
    while j < |ordered| && !stopped
      invariant j <= |ordered| && Running(ordered, j, limits, source, registry, b, truncated, incomplete, stopped)
      decreases |ordered| - j, !stopped
    {
      var f := ordered[j];
      if !Affordable(f, limits, source, registry) {
        AtEnd(ordered, j, limits, source, registry, b, truncated, incomplete);
        stopped := true;
      } else {
        b, stopped := AdmitFile(ordered, f, j, limits, source, registry, b, truncated, incomplete);
        source, registry := source + f.sourceBytes, registry + f.registryBytes;
        truncated, incomplete := truncated || f.truncated, incomplete || f.registryIncomplete;
        j := j + 1;
      }
    }
    Assembles(ordered, j, limits, source, registry, b, truncated, incomplete, stopped);
    truncated, incomplete := truncated || stopped, incomplete || stopped;
  }
}
