/**
 * The consolidated report endpoint (pages/api/v1/megajson.ts): merges the
 * incoming per-type documents, derives the identity of the person they are
 * about, and aggregates salary slips, annual fee receipts and bank accounts.
 */
module Megajson {
  import opened Results
  import opened Js

  // ---------------------------------------------------------------------
  // Catalogues (reqdocs.json and field-aliases.json are parameters)
  // ---------------------------------------------------------------------

  /** field-aliases.json: document type, then canonical field, then its aliases in declared order. */
  type AliasTable = map<string, map<string, seq<string>>>

  /** `fieldAliases?.[docType]?.[fieldName] || []` */
  function AliasesFor(table: AliasTable, docType: string, field: string): seq<string> {
    if docType in table && field in table[docType] then table[docType][field] else []
  }

  /** The ids of reqdocs.json that the `reduce` keeps: the truthy ones. */
  function SchemaIds(reqDocIds: seq<string>): (r: set<string>)
    ensures forall id :: id in r <==> id in reqDocIds && id != ""
  {
    set id | id in reqDocIds && id != ""
  }

  // ---------------------------------------------------------------------
  // resolveField
  // ---------------------------------------------------------------------

  /** The value of the first name, in order, that the record defines; undefined when none does. */
  function FirstDefined(rec: Value, names: seq<string>): (r: Value)
    ensures r == Undefined <==> forall i :: 0 <= i < |names| ==> Get(rec, names[i]) == Undefined
    ensures r != Undefined ==>
      exists i :: 0 <= i < |names| && r == Get(rec, names[i])
        && forall j :: 0 <= j < i ==> Get(rec, names[j]) == Undefined
  {
    if names == [] then Undefined
    else if Get(rec, names[0]) != Undefined then Get(rec, names[0])
    else
      var r := FirstDefined(rec, names[1..]);
      assert r != Undefined ==>
        exists i :: 1 <= i < |names| && r == Get(rec, names[i]) && (forall j :: 1 <= j < i ==> Get(rec, names[j]) == Undefined);
      r
  }

  /**
   * `resolveField`: a non-object gives undefined; a defined canonical field
   * wins, even when it is '' or null; otherwise the first defined alias.
   */
  function ResolveField(obj: Value, docType: string, field: string, table: AliasTable): (r: Value)
    ensures !IsObject(obj) ==> r == Undefined
    ensures IsObject(obj) && Get(obj, field) != Undefined ==> r == Get(obj, field)
    ensures IsObject(obj) && Get(obj, field) == Undefined ==>
      (r == Undefined <==> forall a :: a in AliasesFor(table, docType, field) ==> Get(obj, a) == Undefined)
    ensures IsObject(obj) && Get(obj, field) == Undefined && r != Undefined ==>
      exists i :: 0 <= i < |AliasesFor(table, docType, field)|
        && r == Get(obj, AliasesFor(table, docType, field)[i])
        && forall j :: 0 <= j < i ==> Get(obj, AliasesFor(table, docType, field)[j]) == Undefined
  {
    if !(Truthy(obj) && IsObject(obj)) then Undefined
    else if Get(obj, field) != Undefined then Get(obj, field)
    else FirstDefined(obj, AliasesFor(table, docType, field))
  }

  // ---------------------------------------------------------------------
  // Merging the incoming documents
  // ---------------------------------------------------------------------

  /** `schemas[doc.id]` is truthy: the id, read as a property key, is in the catalogue. */
  function KnownKey(doc: Value, catalog: set<string>): (r: Option<string>)
    ensures r.Some? ==> r.value in catalog && PropertyKey(Get(doc, "id")) == Some(r.value)
    ensures Get(doc, "id").Str? ==> (r == Some(Get(doc, "id").s) <==> Get(doc, "id").s in catalog)
    ensures Get(doc, "id").Str? && Get(doc, "id").s !in catalog ==> r == None
  {
    match PropertyKey(Get(doc, "id"))
    case Some(k) => if k in catalog then Some(k) else None
    case None => None
  }

  /** `items.filter(item => item && typeof item === 'object')` */
  function FilterObjects(xs: seq<Value>): (r: seq<Value>)
    ensures |r| <= |xs|
    ensures forall x :: x in r <==> x in xs && IsObject(x)
  {
    if xs == [] then []
    else
      var rest := FilterObjects(xs[1..]);
      assert forall x :: x in xs <==> x == xs[0] || x in xs[1..];
      if IsObject(xs[0]) then [xs[0]] + rest else rest
  }

  /** `Array.isArray(d) ? d : [d]` */
  function EntriesOf(v: Value): seq<Value> {
    if v.Arr? then v.items else [v]
  }

  /** The data of a document with everything that is not an object dropped. */
  function CleanEntries(data: Value): seq<Value> {
    FilterObjects(EntriesOf(data))
  }

  /** `cleanArr.length <= 1 ? cleanArr[0] : cleanArr` */
  function Collapse(clean: seq<Value>): Value {
    if |clean| == 0 then Undefined else if |clean| == 1 then clean[0] else Arr(clean)
  }

  /**
   * `if (!rec.docdate) rec.docdate = doc.docdate` on one entry: an object
   * without a truthy date gets the document's date and nothing else changes;
   * every other entry is left as it is.
   */
  function StampEntry(item: Value, date: Value): (r: Value)
    ensures !item.Obj? || Truthy(Get(item, "docdate")) ==> r == item
    ensures item.Obj? && !Truthy(Get(item, "docdate")) ==>
      r.Obj? && Get(r, "docdate") == date
      && (forall k :: k != "docdate" ==> Get(r, k) == Get(item, k))
      && KeysOf(r.props) == KeysOf(item.props) + (if "docdate" in KeysOf(item.props) then [] else ["docdate"])
  {
    if item.Obj? && !Truthy(Get(item, "docdate")) then Obj(Put(item.props, "docdate", date)) else item
  }

  function StampAll(xs: seq<Value>, date: Value): (r: seq<Value>)
    ensures |r| == |xs| && forall i :: 0 <= i < |xs| ==> r[i] == StampEntry(xs[i], date)
  {
    if xs == [] then [] else [StampEntry(xs[0], date)] + StampAll(xs[1..], date)
  }

  /** The `docdate` stamping of lines 53-60, on the value stored for a document. */
  function Stamp(stored: Value, date: Value): Value {
    if !Truthy(date) then stored
    else if stored.Arr? then Arr(StampAll(stored.items, date))
    else StampEntry(stored, date)
  }

  /** What `documents[doc.id]` holds after one document has been merged. */
  function StoredValue(doc: Value): Value {
    Stamp(Collapse(CleanEntries(Get(doc, "data"))), Get(doc, "docdate"))
  }

  /** One turn of the merge loop: unknown ids are skipped, a known id is (over)written. */
  function MergeStep(documents: seq<Prop>, doc: Value, catalog: set<string>): seq<Prop> {
    match KnownKey(doc, catalog)
    case None => documents
    case Some(k) => Put(documents, k, StoredValue(doc))
  }

  /** The `documents` dictionary after the loop of lines 45-61 has seen every incoming document. */
  function MergeAll(docs: seq<Value>, catalog: set<string>): seq<Prop> {
    if docs == [] then []
    else MergeStep(MergeAll(docs[..|docs| - 1], catalog), docs[|docs| - 1], catalog)
  }

  /** One merge step adds the document's key, when it is known, and keeps every other key. */
  lemma MergeStepKeys(documents: seq<Prop>, doc: Value, catalog: set<string>, k: string)
    ensures k in KeysOf(MergeStep(documents, doc, catalog)) <==>
      k in KeysOf(documents) || KnownKey(doc, catalog) == Some(k)
  {
  }

  /** The merged dictionary has a key exactly for each known id that some incoming document carries. */
  lemma {:induction false} MergeKeys(docs: seq<Value>, catalog: set<string>, k: string)
    ensures k in KeysOf(MergeAll(docs, catalog)) <==>
      exists i :: 0 <= i < |docs| && KnownKey(docs[i], catalog) == Some(k)
  {
    if docs != [] {
      var init := docs[..|docs| - 1];
      var last := docs[|docs| - 1];
      MergeKeys(init, catalog, k);
      MergeStepKeys(MergeAll(init, catalog), last, catalog, k);
      ExistsSplit(docs, init, d => KnownKey(d, catalog) == Some(k));
    }
  }

  /** Some element satisfies p exactly when one before the last does or the last one does. */
  lemma ExistsSplit<T>(xs: seq<T>, init: seq<T>, p: T -> bool)
    requires xs != [] && init == xs[..|xs| - 1]
    ensures (exists i :: 0 <= i < |xs| && p(xs[i])) <==>
      (exists i :: 0 <= i < |init| && p(init[i])) || p(xs[|xs| - 1])
  {
    if exists i :: 0 <= i < |xs| && p(xs[i]) {
      var i :| 0 <= i < |xs| && p(xs[i]);
      if i < |init| {
        assert init[i] == xs[i];
      }
    }
    if exists i :: 0 <= i < |init| && p(init[i]) {
      var i :| 0 <= i < |init| && p(init[i]);
      assert xs[i] == init[i];
    }
  }

  /**
   * A later document with the same id overwrites an earlier one: the value
   * under k is what the last document with id k stores.
   */
  lemma {:induction false} MergeLastWins(docs: seq<Value>, catalog: set<string>, i: nat, k: string)
    requires i < |docs| && KnownKey(docs[i], catalog) == Some(k)
    requires forall j :: i < j < |docs| ==> KnownKey(docs[j], catalog) != Some(k)
    ensures Lookup(MergeAll(docs, catalog), k) == StoredValue(docs[i])
    decreases |docs|
  {
    var init := docs[..|docs| - 1];
    if i < |docs| - 1 {
      assert init[i] == docs[i];
      MergeLastWins(init, catalog, i, k);
    }
  }

  /**
   * `cleanArr.length <= 1 ? cleanArr[0] : cleanArr`: nothing survives the
   * filter, undefined is stored; one entry is stored bare; two or more as
   * the array of the cleaned entries.
   */
  lemma StoredShape(doc: Value)
    ensures var clean := FilterObjects(EntriesOf(Get(doc, "data")));
      var stored := Collapse(clean);
      (|clean| == 0 ==> stored == Undefined)
      && (|clean| == 1 ==> stored == clean[0] && IsObject(stored))
      && (|clean| >= 2 ==> stored == Arr(clean))
  {
    var clean := FilterObjects(EntriesOf(Get(doc, "data")));
    if |clean| == 1 {
      assert clean[0] in clean;
    }
  }

  /** When nothing inside the data is itself an array, a stored array holds at least two entries. */
  lemma StoredArrayHasTwo(doc: Value)
    requires forall x :: x in EntriesOf(Get(doc, "data")) ==> !x.Arr?
    ensures StoredValue(doc).Arr? ==> |StoredValue(doc).items| >= 2
  {
    var clean := CleanEntries(Get(doc, "data"));
    if |clean| == 1 {
      assert clean[0] in clean;
    }
  }

  /**
   * The merge loop of the handler. For each document it filters the data,
   * stores it under the id, and stamps the document's date on the stored
   * entries that have none.
   */
  method MergeDocuments(incoming: seq<Value>, catalog: set<string>) returns (documents: seq<Prop>)
    ensures documents == MergeAll(incoming, catalog)
  {
    documents := [];
    for i := 0 to |incoming|
      invariant documents == MergeAll(incoming[..i], catalog)
    {
      var doc := incoming[i];
      assert incoming[..i + 1][..i] == incoming[..i];
      var key := KnownKey(doc, catalog);
      if key.Some? {
        var stored := Collapse(CleanEntries(Get(doc, "data")));
        var date := Get(doc, "docdate");
        if Truthy(date) {
          if stored.Arr? {
            var entries := StampEntries(stored.items, date);
            stored := Arr(entries);
          } else {
            stored := StampEntry(stored, date);
          }
        }
        assert stored == StoredValue(doc);
        documents := Put(documents, key.value, stored);
      }
      assert documents == MergeStep(MergeAll(incoming[..i], catalog), doc, catalog);
    }
    assert incoming[..|incoming|] == incoming;
  }

  /** The stamping loop over the entries of a stored array, in place. */
  method StampEntries(items: seq<Value>, date: Value) returns (entries: seq<Value>)
    ensures entries == StampAll(items, date)
  {
    entries := items;
    for j := 0 to |entries|
      invariant |entries| == |items|
      invariant forall k :: 0 <= k < j ==> entries[k] == StampEntry(items[k], date)
      invariant forall k :: j <= k < |items| ==> entries[k] == items[k]
    {
      entries := entries[j := StampEntry(entries[j], date)];
    }
  }

  // ---------------------------------------------------------------------
  // Identity: mainRut, mainName, allRuts, allNames
  // ---------------------------------------------------------------------

  const CedulaType := "cedula-identidad"

  /** `Array.isArray(cedula) ? cedula[0] : cedula` */
  function CedulaData(documents: seq<Prop>): Value {
    var cedula := Lookup(documents, CedulaType);
    if cedula.Arr? then (if |cedula.items| > 0 then cedula.items[0] else Undefined) else cedula
  }

  /** `resolveField(cedulaData, 'cedula-identidad', 'rut') || ''` */
  function MainRut(documents: seq<Prop>, table: AliasTable): (r: Value)
    ensures Truthy(r) || r == Str("")
    ensures Truthy(ResolveField(CedulaData(documents), CedulaType, "rut", table)) ==>
      r == ResolveField(CedulaData(documents), CedulaType, "rut", table)
    ensures !Truthy(ResolveField(CedulaData(documents), CedulaType, "rut", table)) ==> r == Str("")
  {
    Or(ResolveField(CedulaData(documents), CedulaType, "rut", table), Str(""))
  }

  /** `vs.filter(Boolean)` */
  function TruthyOnly(vs: seq<Value>): (r: seq<Value>)
    ensures forall x :: x in r <==> x in vs && Truthy(x)
  {
    if vs == [] then []
    else
      var rest := TruthyOnly(vs[1..]);
      assert forall x :: x in vs <==> x == vs[0] || x in vs[1..];
      if Truthy(vs[0]) then [vs[0]] + rest else rest
  }

  /** `vs.join(sep)` for values none of which is null or undefined. */
  function JoinWith(vs: seq<Value>, sep: string, numText: real -> string): string {
    if vs == [] then ""
    else if |vs| == 1 then Display(vs[0], numText)
    else Display(vs[0], numText) + sep + JoinWith(vs[1..], sep, numText)
  }

  /** `[nombres, apellidos].filter(Boolean).join(' ')` */
  function FullName(nombres: Value, apellidos: Value, numText: real -> string): string {
    JoinWith(TruthyOnly([nombres, apellidos]), " ", numText)
  }

  /** For text parts: both joined by a single space, an empty part dropped. */
  lemma FullNameOfText(first: string, last: string, numText: real -> string)
    ensures FullName(Str(first), Str(last), numText) ==
      if first != "" && last != "" then first + " " + last else first + last
  {
    var parts := [Str(first), Str(last)];
    assert parts[1..] == [Str(last)];
    assert [Str(last)][1..] == [];
    var kept := TruthyOnly(parts);
    assert TruthyOnly([Str(last)]) == if last != "" then [Str(last)] else [];
    assert kept == (if first != "" then [Str(first)] else []) + TruthyOnly([Str(last)]);
    if first != "" && last != "" {
      assert kept == parts;
      assert JoinWith(kept, " ", numText) == first + " " + JoinWith([Str(last)], " ", numText);
    } else if first != "" {
      assert kept == [Str(first)];
      assert first + last == first;
    } else if last != "" {
      assert kept == [Str(last)];
      assert first + last == last;
    } else {
      assert kept == [];
      assert first + last == "";
    }
  }

  function MainName(documents: seq<Prop>, table: AliasTable, numText: real -> string): string {
    var data := CedulaData(documents);
    FullName(Or(ResolveField(data, CedulaType, "nombres", table), Str("")),
             Or(ResolveField(data, CedulaType, "apellidos", table), Str("")), numText)
  }

  const NameKeys: seq<string> := ["nombre", "nombres", "trabajador_nombre", "titular_nombre"]

  /** Every entry of every stored document, document by document. */
  function AllEntries(values: seq<Value>): seq<Value> {
    if values == [] then [] else AllEntries(values[..|values| - 1]) + EntriesOf(values[|values| - 1])
  }

  /** `entry?.rut` for each entry, in order. */
  function RutCandidates(entries: seq<Value>): (r: seq<Value>)
    ensures |r| == |entries| && forall i :: 0 <= i < |entries| ==> r[i] == Get(entries[i], "rut")
  {
    if entries == [] then []
    else RutCandidates(entries[..|entries| - 1]) + [Get(entries[|entries| - 1], "rut")]
  }

  /** `entry?.[key]` for the name keys of one entry. */
  function NamesOfEntry(entry: Value): (r: seq<Value>)
    ensures |r| == |NameKeys| && forall i :: 0 <= i < |NameKeys| ==> r[i] == Get(entry, NameKeys[i])
  {
    [Get(entry, NameKeys[0]), Get(entry, NameKeys[1]), Get(entry, NameKeys[2]), Get(entry, NameKeys[3])]
  }

  function NameCandidates(entries: seq<Value>): seq<Value> {
    if entries == [] then []
    else NameCandidates(entries[..|entries| - 1]) + NamesOfEntry(entries[|entries| - 1])
  }

  predicate NoDuplicates(s: seq<Value>) {
    forall i, j :: 0 <= i < j < |s| ==> s[i] != s[j]
  }

  /** `set.add(x)` on a Set, which keeps insertion order and ignores a value it holds. */
  function AddToSet(s: seq<Value>, x: Value): seq<Value> {
    if x in s then s else s + [x]
  }

  /** `if (x) set.add(x)` for each candidate in order. */
  function AddTruthy(s: seq<Value>, xs: seq<Value>): seq<Value> {
    if xs == [] then s
    else
      var init := AddTruthy(s, xs[..|xs| - 1]);
      var x := xs[|xs| - 1];
      if Truthy(x) then AddToSet(init, x) else init
  }

  /**
   * The set gains exactly the truthy candidates, keeps what it held in
   * front, and never holds a value twice.
   */
  lemma {:induction false} AddTruthySpec(s: seq<Value>, xs: seq<Value>)
    ensures var r := AddTruthy(s, xs);
      |s| <= |r| && r[..|s|] == s
      && (forall x :: x in r <==> x in s || (x in xs && Truthy(x)))
      && (NoDuplicates(s) ==> NoDuplicates(r))
  {
    if xs != [] {
      var init := xs[..|xs| - 1];
      var x := xs[|xs| - 1];
      AddTruthySpec(s, init);
      assert forall y :: y in xs <==> y in init || y == x;
      var before := AddTruthy(s, init);
      if Truthy(x) && x !in before {
        assert (before + [x])[..|s|] == before[..|s|];
      }
    }
  }

  lemma AddTruthyAppend(s: seq<Value>, xs: seq<Value>, ys: seq<Value>)
    ensures AddTruthy(s, xs + ys) == AddTruthy(AddTruthy(s, xs), ys)
    decreases |ys|
  {
    if ys == [] {
      assert xs + ys == xs;
    } else {
      assert (xs + ys)[..|xs + ys| - 1] == xs + ys[..|ys| - 1];
      AddTruthyAppend(s, xs, ys[..|ys| - 1]);
    }
  }

  /** `Array.from(allRuts)` after the scan of lines 73-81. */
  function AllRuts(documents: seq<Prop>): seq<Value> {
    AddTruthy([], RutCandidates(AllEntries(ValuesOf(documents))))
  }

  /** `Array.from(allNames)` after the scan of lines 73-81. */
  function AllNames(documents: seq<Prop>): seq<Value> {
    AddTruthy([], NameCandidates(AllEntries(ValuesOf(documents))))
  }

  /**
   * The RUTs seen are exactly the truthy `rut` fields of the stored entries,
   * each once, so the final `filter(Boolean)` drops nothing.
   */
  lemma AllRutsSpec(documents: seq<Prop>)
    ensures NoDuplicates(AllRuts(documents))
    ensures TruthyOnly(AllRuts(documents)) == AllRuts(documents)
    ensures forall x :: x in AllRuts(documents) <==>
      Truthy(x) && exists e :: e in AllEntries(ValuesOf(documents)) && Get(e, "rut") == x
  {
    var entries := AllEntries(ValuesOf(documents));
    var cands := RutCandidates(entries);
    AddTruthySpec([], cands);
    MapMembers(entries, cands, e => Get(e, "rut"));
    TruthyOnlyOfTruthy(AllRuts(documents));
  }

  /** The values of a pointwise image are exactly the images of the elements. */
  lemma MapMembers<T, U>(xs: seq<T>, ys: seq<U>, f: T -> U)
    requires |ys| == |xs| && forall i :: 0 <= i < |xs| ==> ys[i] == f(xs[i])
    ensures forall y :: y in ys <==> exists x :: x in xs && f(x) == y
  {
    forall y ensures y in ys <==> exists x :: x in xs && f(x) == y {
      if y in ys {
        var i :| 0 <= i < |ys| && ys[i] == y;
        assert xs[i] in xs;
      }
      if exists x :: x in xs && f(x) == y {
        var x :| x in xs && f(x) == y;
        var i :| 0 <= i < |xs| && xs[i] == x;
        assert ys[i] == y;
      }
    }
  }

  /** The names seen are exactly the truthy name fields of the stored entries, each once. */
  lemma AllNamesSpec(documents: seq<Prop>)
    ensures NoDuplicates(AllNames(documents))
    ensures TruthyOnly(AllNames(documents)) == AllNames(documents)
    ensures forall x :: x in AllNames(documents) <==> x in NameCandidates(AllEntries(ValuesOf(documents))) && Truthy(x)
  {
    AddTruthySpec([], NameCandidates(AllEntries(ValuesOf(documents))));
    TruthyOnlyOfTruthy(AllNames(documents));
  }

  lemma {:induction false} TruthyOnlyOfTruthy(vs: seq<Value>)
    requires forall x :: x in vs ==> Truthy(x)
    ensures TruthyOnly(vs) == vs
  {
    if vs != [] {
      assert vs[0] in vs;
      assert forall x :: x in vs[1..] ==> x in vs;
      TruthyOnlyOfTruthy(vs[1..]);
      assert vs == [vs[0]] + vs[1..];
    }
  }

  lemma AddTruthyLast(s: seq<Value>, xs: seq<Value>, x: Value)
    ensures AddTruthy(s, xs + [x]) == if Truthy(x) then AddToSet(AddTruthy(s, xs), x) else AddTruthy(s, xs)
  {
    assert (xs + [x])[..|xs|] == xs;
  }

  lemma RutCandidatesLast(before: seq<Value>, e: Value)
    ensures RutCandidates(before + [e]) == RutCandidates(before) + [Get(e, "rut")]
  {
    assert (before + [e])[..|before|] == before;
  }

  lemma NameCandidatesLast(before: seq<Value>, e: Value)
    ensures NameCandidates(before + [e]) == NameCandidates(before) + NamesOfEntry(e)
  {
    assert (before + [e])[..|before|] == before;
  }

  lemma AllEntriesStep(values: seq<Value>, i: nat)
    requires i < |values|
    ensures AllEntries(values[..i + 1]) == AllEntries(values[..i]) + EntriesOf(values[i])
  {
    assert values[..i + 1][..i] == values[..i];
  }

  /** The innermost loop of the identity scan: each truthy name field of one entry joins the name set. */
  method AddNames(names: seq<Value>, entry: Value) returns (r: seq<Value>)
    ensures r == AddTruthy(names, NamesOfEntry(entry))
  {
    var cands := NamesOfEntry(entry);
    r := names;
    for k := 0 to |NameKeys|
      invariant r == AddTruthy(names, cands[..k])
    {
      assert cands[..k + 1] == cands[..k] + [cands[k]];
      AddTruthyLast(names, cands[..k], cands[k]);
      var name := Get(entry, NameKeys[k]);
      if Truthy(name) {
        r := AddToSet(r, name);
      }
    }
    assert cands[..|NameKeys|] == cands;
  }

  /** The loop over the entries of one stored document. */
  method ScanEntries(ruts: seq<Value>, names: seq<Value>, entries: seq<Value>)
    returns (ruts': seq<Value>, names': seq<Value>)
    ensures ruts' == AddTruthy(ruts, RutCandidates(entries))
    ensures names' == AddTruthy(names, NameCandidates(entries))
  {
    ruts', names' := ruts, names;
    for j := 0 to |entries|
      invariant ruts' == AddTruthy(ruts, RutCandidates(entries[..j]))
      invariant names' == AddTruthy(names, NameCandidates(entries[..j]))
    {
      var entry := entries[j];
      assert entries[..j + 1] == entries[..j] + [entry];
      RutCandidatesLast(entries[..j], entry);
      AddTruthyLast(ruts, RutCandidates(entries[..j]), Get(entry, "rut"));
      NameCandidatesLast(entries[..j], entry);
      AddTruthyAppend(names, NameCandidates(entries[..j]), NamesOfEntry(entry));
      var rut := Get(entry, "rut");
      if Truthy(rut) {
        ruts' := AddToSet(ruts', rut);
      }
      names' := AddNames(names', entry);
    }
    assert entries[..|entries|] == entries;
  }

  /**
   * The identity scan of the handler: for each stored document, for each of
   * its entries, add a truthy `rut` to the RUT set and each truthy name field
   * to the name set.
   */
  method CollectIdentities(documents: seq<Prop>) returns (ruts: seq<Value>, names: seq<Value>)
    ensures ruts == AllRuts(documents)
    ensures names == AllNames(documents)
  {
    var values := ValuesOf(documents);
    ruts, names := [], [];
    for i := 0 to |values|
      invariant ruts == AddTruthy([], RutCandidates(AllEntries(values[..i])))
      invariant names == AddTruthy([], NameCandidates(AllEntries(values[..i])))
    {
      var entries := EntriesOf(values[i]);
      ghost var done := AllEntries(values[..i]);
      AllEntriesStep(values, i);
      RutCandidatesAppend(done, entries);
      NameCandidatesAppend(done, entries);
      AddTruthyAppend([], RutCandidates(done), RutCandidates(entries));
      AddTruthyAppend([], NameCandidates(done), NameCandidates(entries));
      ruts, names := ScanEntries(ruts, names, entries);
    }
    assert values[..|values|] == values;
  }

  lemma {:induction false} RutCandidatesAppend(xs: seq<Value>, ys: seq<Value>)
    ensures RutCandidates(xs + ys) == RutCandidates(xs) + RutCandidates(ys)
  {
    assert |RutCandidates(xs + ys)| == |xs| + |ys|;
    forall i | 0 <= i < |xs| + |ys|
      ensures RutCandidates(xs + ys)[i] == (RutCandidates(xs) + RutCandidates(ys))[i]
    {
      if i >= |xs| {
        assert (xs + ys)[i] == ys[i - |xs|];
      }
    }
  }

  lemma {:induction false} NameCandidatesAppend(xs: seq<Value>, ys: seq<Value>)
    ensures NameCandidates(xs + ys) == NameCandidates(xs) + NameCandidates(ys)
    decreases |ys|
  {
    if ys == [] {
      assert xs + ys == xs;
    } else {
      var init := ys[..|ys| - 1];
      var e := ys[|ys| - 1];
      assert xs + ys == (xs + init) + [e];
      assert ys == init + [e];
      NameCandidatesLast(xs + init, e);
      NameCandidatesLast(init, e);
      NameCandidatesAppend(xs, init);
    }
  }

  // ---------------------------------------------------------------------
  // Aggregations
  // ---------------------------------------------------------------------

  /** `val !== undefined && val !== null && val !== ''` */
  predicate Present(v: Value) {
    v != Undefined && v != Null && v != Str("")
  }

  /** The host's `parseFloat` (None for NaN) and its number formatting, used by `String(n)`. */
  datatype NumberHost = NumberHost(parseFloat: string -> Option<real>, numText: real -> string)

  /** `parseFloat(String(v || 0)) || 0` */
  function Amount(v: Value, host: NumberHost): (r: real)
    ensures !Truthy(v) ==> r == 0.0
    ensures Truthy(v) && host.parseFloat(Display(v, host.numText)).None? ==> r == 0.0
    ensures Truthy(v) && host.parseFloat(Display(v, host.numText)).Some? ==>
      r == host.parseFloat(Display(v, host.numText)).value
  {
    if !Truthy(v) then 0.0
    else match host.parseFloat(Display(v, host.numText))
      case Some(x) => x
      case None => 0.0
  }

  /** `xs.filter(x => present(resolveField(x, docType, field)))`: the entries that are counted. */
  function WithField(xs: seq<Value>, docType: string, field: string, table: AliasTable): (r: seq<Value>)
    ensures |r| <= |xs|
    ensures forall x :: x in r <==> x in xs && Present(ResolveField(x, docType, field, table))
  {
    if xs == [] then []
    else
      var init := WithField(xs[..|xs| - 1], docType, field, table);
      var x := xs[|xs| - 1];
      assert forall y :: y in xs <==> y in xs[..|xs| - 1] || y == x;
      if Present(ResolveField(x, docType, field, table)) then init + [x] else init
  }

  /** `items.reduce((sum, x) => sum + amount(resolveField(x, docType, field)), 0)` */
  function SumOf(items: seq<Value>, docType: string, field: string, table: AliasTable, host: NumberHost): real {
    if items == [] then 0.0
    else
      var last := Amount(ResolveField(items[|items| - 1], docType, field, table), host);
      SumOf(items[..|items| - 1], docType, field, table, host) + last
  }

  /** `items.map(x => resolveField(x, docType, field))` */
  function ResolvedAll(items: seq<Value>, docType: string, field: string, table: AliasTable): (r: seq<Value>)
    ensures |r| == |items| && forall i :: 0 <= i < |items| ==> r[i] == ResolveField(items[i], docType, field, table)
  {
    seq(|items|, i requires 0 <= i < |items| => ResolveField(items[i], docType, field, table))
  }

  /**
   * `items.map(x => resolveField(x, docType, field)).filter(Boolean)`: the
   * truthy resolved values, in the order of the items.
   */
  function DatesOf(items: seq<Value>, docType: string, field: string, table: AliasTable): (r: seq<Value>)
    ensures |r| <= |items|
    ensures forall x :: x in r ==> Truthy(x)
    ensures r == TruthyOnly(ResolvedAll(items, docType, field, table))
  {
    if items == [] then []
    else
      var rest := DatesOf(items[1..], docType, field, table);
      var d := ResolveField(items[0], docType, field, table);
      var all := ResolvedAll(items, docType, field, table);
      assert all[1..] == ResolvedAll(items[1..], docType, field, table);
      if Truthy(d) then [d] + rest else rest
  }

  /** `Array.isArray(v) && v.length` and some entry whose driving field is present. */
  predicate Emits(stored: Value, docType: string, field: string, table: AliasTable) {
    stored.Arr? && exists x :: x in stored.items && Present(ResolveField(x, docType, field, table))
  }

  lemma EmitsIffCounted(stored: Value, docType: string, field: string, table: AliasTable)
    requires stored.Arr?
    ensures Emits(stored, docType, field, table) <==> |WithField(stored.items, docType, field, table)| > 0
  {
    var items := WithField(stored.items, docType, field, table);
    if |items| > 0 {
      assert items[0] in items;
    }
    if Emits(stored, docType, field, table) {
      var x :| x in stored.items && Present(ResolveField(x, docType, field, table));
      assert x in items;
    }
  }

  /** `total / count`: the average times the count gives back the total. */
  function Average(total: real, count: nat): (r: real)
    requires count > 0
    ensures r * (count as real) == total
  {
    total / (count as real)
  }

  datatype SalaryAgg = SalaryAgg(count: nat, totalLiquido: real, avgLiquido: real,
                                 totalBaseImponible: real, avgBaseImponible: real, periodos: seq<Value>)

  datatype ReceiptsAgg = ReceiptsAgg(count: nat, totalLiquido: real, totalHonorarioBruto: real, anios: seq<Value>)

  datatype BankAgg = BankAgg(count: nat, saldoFinalPromedio: real, totalAbonos: real, totalCargos: real)

  /** The `aggregations` dictionary: a block is absent rather than zero. */
  datatype Aggregations = Aggregations(liquidacionSueldo: Option<SalaryAgg>,
                                       boletasAnual: Option<ReceiptsAgg>,
                                       cuentaBancaria: Option<BankAgg>)

  const SalaryType := "liquidacion-sueldo"
  const ReceiptsType := "boletas-anual"
  const BankType := "cuenta-bancaria"

  /** Lines 85-104: the salary-slip block, driven by `liquido_a_pagar`. */
  function SalaryAggregation(stored: Value, table: AliasTable, host: NumberHost): (r: Option<SalaryAgg>)
    ensures r.Some? <==> Emits(stored, SalaryType, "liquido_a_pagar", table)
    ensures r.Some? ==>
      var items := WithField(stored.items, SalaryType, "liquido_a_pagar", table);
      r.value.count == |items| >= 1
      && r.value.totalLiquido == SumOf(items, SalaryType, "liquido_a_pagar", table, host)
      && r.value.avgLiquido == Average(r.value.totalLiquido, r.value.count)
      && r.value.totalBaseImponible == SumOf(items, SalaryType, "base_imponible", table, host)
      && r.value.avgBaseImponible == Average(r.value.totalBaseImponible, r.value.count)
      && r.value.periodos == DatesOf(items, SalaryType, "docdate", table)
  {
    if stored.Arr? && |stored.items| > 0 then
      var items := WithField(stored.items, SalaryType, "liquido_a_pagar", table);
      EmitsIffCounted(stored, SalaryType, "liquido_a_pagar", table);
      if |items| > 0 then
        var total := SumOf(items, SalaryType, "liquido_a_pagar", table, host);
        var base := SumOf(items, SalaryType, "base_imponible", table, host);
        Some(SalaryAgg(|items|, total, Average(total, |items|), base, Average(base, |items|), DatesOf(items, SalaryType, "docdate", table)))
      else
        None
    else None
  }

  /** Lines 106-120: the annual-receipts block, driven by `total_liquido`. */
  function ReceiptsAggregation(stored: Value, table: AliasTable, host: NumberHost): (r: Option<ReceiptsAgg>)
    ensures r.Some? <==> Emits(stored, ReceiptsType, "total_liquido", table)
    ensures r.Some? ==>
      var items := WithField(stored.items, ReceiptsType, "total_liquido", table);
      r.value.count == |items| >= 1
      && r.value.totalLiquido == SumOf(items, ReceiptsType, "total_liquido", table, host)
      && r.value.totalHonorarioBruto == SumOf(items, ReceiptsType, "honorario_bruto", table, host)
      && r.value.anios == DatesOf(items, ReceiptsType, "a\U{F1}o", table)
  {
    if stored.Arr? && |stored.items| > 0 then
      var items := WithField(stored.items, ReceiptsType, "total_liquido", table);
      EmitsIffCounted(stored, ReceiptsType, "total_liquido", table);
      if |items| > 0 then
        Some(ReceiptsAgg(|items|, SumOf(items, ReceiptsType, "total_liquido", table, host),
                         SumOf(items, ReceiptsType, "honorario_bruto", table, host),
                         DatesOf(items, ReceiptsType, "a\U{F1}o", table)))
      else
        None
    else None
  }

  /** Lines 122-136: the bank-account block, driven by `saldo_final`. */
  function BankAggregation(stored: Value, table: AliasTable, host: NumberHost): (r: Option<BankAgg>)
    ensures r.Some? <==> Emits(stored, BankType, "saldo_final", table)
    ensures r.Some? ==>
      var items := WithField(stored.items, BankType, "saldo_final", table);
      r.value.count == |items| >= 1
      && r.value.saldoFinalPromedio == Average(SumOf(items, BankType, "saldo_final", table, host), r.value.count)
      && r.value.totalAbonos == SumOf(items, BankType, "total_abonos", table, host)
      && r.value.totalCargos == SumOf(items, BankType, "total_cargos", table, host)
  {
    if stored.Arr? && |stored.items| > 0 then
      var items := WithField(stored.items, BankType, "saldo_final", table);
      EmitsIffCounted(stored, BankType, "saldo_final", table);
      if |items| > 0 then
        Some(BankAgg(|items|, Average(SumOf(items, BankType, "saldo_final", table, host), |items|),
                     SumOf(items, BankType, "total_abonos", table, host),
                     SumOf(items, BankType, "total_cargos", table, host)))
      else
        None
    else None
  }

  /**
   * An entry whose driving field is present but does not parse as a number
   * is still counted, and adds 0 to the total.
   */
  lemma UnparsableAmountCounted(xs: seq<Value>, e: Value, table: AliasTable, host: NumberHost)
    requires Present(ResolveField(e, SalaryType, "liquido_a_pagar", table))
    requires host.parseFloat(Display(ResolveField(e, SalaryType, "liquido_a_pagar", table), host.numText)).None?
    ensures var r := SalaryAggregation(Arr(xs + [e]), table, host);
      var before := WithField(xs, SalaryType, "liquido_a_pagar", table);
      r.Some? && r.value.count == |before| + 1
      && r.value.totalLiquido == SumOf(before, SalaryType, "liquido_a_pagar", table, host)
  {
    var all := xs + [e];
    var before := WithField(xs, SalaryType, "liquido_a_pagar", table);
    assert WithField(all, SalaryType, "liquido_a_pagar", table) == before + [e] by {
      assert all[..|all| - 1] == xs;
    }
    assert Emits(Arr(all), SalaryType, "liquido_a_pagar", table) by {
      assert e in all;
    }
    assert SumOf(before + [e], SalaryType, "liquido_a_pagar", table, host)
        == SumOf(before, SalaryType, "liquido_a_pagar", table, host) by {
      assert (before + [e])[..|before|] == before;
    }
  }

  /** An all-missing driving field yields no block (here: three salary slips without `liquido_a_pagar`). */
  lemma SalaryOmittedWhenMissing(a: Value, b: Value, c: Value, table: AliasTable, host: NumberHost)
    requires forall x :: x in [a, b, c] ==> !Present(ResolveField(x, SalaryType, "liquido_a_pagar", table))
    ensures SalaryAggregation(Arr([a, b, c]), table, host).None?
  {
  }

  lemma PairCounted(a: Value, b: Value, docType: string, field: string, table: AliasTable, host: NumberHost)
    requires Present(ResolveField(a, docType, field, table)) && Present(ResolveField(b, docType, field, table))
    ensures WithField([a, b], docType, field, table) == [a, b]
    ensures SumOf([a, b], docType, field, table, host) ==
      Amount(ResolveField(a, docType, field, table), host) + Amount(ResolveField(b, docType, field, table), host)
  {
    assert [a, b][..1] == [a];
    assert [a][..0] == [];
    assert SumOf([a], docType, field, table, host) == Amount(ResolveField(a, docType, field, table), host);
  }

  lemma ResolveSingle(key: string, v: Value, docType: string, table: AliasTable)
    requires v != Undefined
    ensures ResolveField(Obj([Prop(key, v)]), docType, key, table) == v
  {
    assert Get(Obj([Prop(key, v)]), key) == v;
  }

  /** Net pay of 500000 and 700000 totals 1200000 and averages 600000. */
  lemma SalaryArithmeticExample(table: AliasTable, host: NumberHost)
    requires host.parseFloat("500000") == Some(500000.0) && host.parseFloat("700000") == Some(700000.0)
    ensures var r := SalaryAggregation(Arr([Obj([Prop("liquido_a_pagar", Str("500000"))]),
                                            Obj([Prop("liquido_a_pagar", Str("700000"))])]), table, host);
      r.Some? && r.value.count == 2 && r.value.totalLiquido == 1200000.0 && r.value.avgLiquido == 600000.0
  {
    var a := Obj([Prop("liquido_a_pagar", Str("500000"))]);
    var b := Obj([Prop("liquido_a_pagar", Str("700000"))]);
    ResolveSingle("liquido_a_pagar", Str("500000"), SalaryType, table);
    ResolveSingle("liquido_a_pagar", Str("700000"), SalaryType, table);
    assert Amount(Str("500000"), host) == 500000.0;
    assert Amount(Str("700000"), host) == 700000.0;
    PairCounted(a, b, SalaryType, "liquido_a_pagar", table, host);
  }

  // ---------------------------------------------------------------------
  // The handler
  // ---------------------------------------------------------------------

  datatype Request = Request(verb: string, body: Value)

  /** What the handler reads besides the request: the catalogues, the number host and the clock. */
  datatype Env = Env(reqDocIds: seq<string>, aliases: AliasTable, host: NumberHost, now: string)

  datatype Meta = Meta(mainRut: Value, mainName: string, allRuts: seq<Value>, allNames: seq<Value>,
                       generatedAt: string, requiredDocs: seq<string>, providedDocs: seq<Value>,
                       aggregations: Aggregations)

  datatype Report = Report(meta: Meta, documents: seq<Prop>)

  datatype Reply = Rejected(status: nat, error: string) | Done(report: Report)

  /** `req.verb === 'POST' && Array.isArray(req.body?.documents)` */
  predicate Accepts(req: Request) {
    req.verb == "POST" && Get(req.body, "documents").Arr?
  }

  /** `d.id` throws on a null or undefined entry. */
  predicate HasNullish(docs: seq<Value>) {
    exists i :: 0 <= i < |docs| && IsNullish(docs[i])
  }

  function ProvidedIds(docs: seq<Value>): (r: seq<Value>)
    ensures |r| == |docs| && forall i :: 0 <= i < |docs| ==> r[i] == Get(docs[i], "id")
  {
    if docs == [] then [] else [Get(docs[0], "id")] + ProvidedIds(docs[1..])
  }

  /**
   * The handler: a request without a documents array is rejected with 400
   * and nothing is computed; a null or undefined document makes it throw
   * (500); otherwise the report is the merged documents with the identity
   * fields, the three aggregation blocks and the list of ids.
   */
  method Handle(req: Request, env: Env) returns (reply: Reply)
    ensures !Accepts(req) ==> reply == Rejected(400, "POST with documents array required")
    ensures Accepts(req) && HasNullish(Get(req.body, "documents").items) ==>
      reply == Rejected(500, "Internal Server Error")
    ensures Accepts(req) && !HasNullish(Get(req.body, "documents").items) ==>
      var incoming := Get(req.body, "documents").items;
      var documents := MergeAll(incoming, SchemaIds(env.reqDocIds));
      reply.Done? && reply.report.documents == documents
      && reply.report.meta == Meta(
           MainRut(documents, env.aliases), MainName(documents, env.aliases, env.host.numText),
           AllRuts(documents), AllNames(documents), env.now, KeysOf(documents), ProvidedIds(incoming),
           Aggregations(SalaryAggregation(Lookup(documents, SalaryType), env.aliases, env.host),
                        ReceiptsAggregation(Lookup(documents, ReceiptsType), env.aliases, env.host),
                        BankAggregation(Lookup(documents, BankType), env.aliases, env.host)))
  {
    if !Accepts(req) {
      return Rejected(400, "POST with documents array required");
    }
    var incoming := Get(req.body, "documents").items;
    if HasNullish(incoming) {
      return Rejected(500, "Internal Server Error");
    }
    var catalog := SchemaIds(env.reqDocIds);
    var documents := MergeDocuments(incoming, catalog);
    var mainRut := MainRut(documents, env.aliases);
    var mainName := MainName(documents, env.aliases, env.host.numText);
    var allRuts, allNames := CollectIdentities(documents);
    AllRutsSpec(documents);
    AllNamesSpec(documents);
    var aggregations := Aggregations(None, None, None);
    var salary := SalaryAggregation(Lookup(documents, SalaryType), env.aliases, env.host);
    if salary.Some? {
      aggregations := aggregations.(liquidacionSueldo := salary);
    }
    var receipts := ReceiptsAggregation(Lookup(documents, ReceiptsType), env.aliases, env.host);
    if receipts.Some? {
      aggregations := aggregations.(boletasAnual := receipts);
    }
    var bank := BankAggregation(Lookup(documents, BankType), env.aliases, env.host);
    if bank.Some? {
      aggregations := aggregations.(cuentaBancaria := bank);
    }
    var meta := Meta(mainRut, mainName, TruthyOnly(allRuts), TruthyOnly(allNames), env.now,
                     KeysOf(documents), ProvidedIds(incoming), aggregations);
    reply := Done(Report(meta, documents));
  }
}
