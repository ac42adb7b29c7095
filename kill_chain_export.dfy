/** The export serialiser: an object graph as the ORM has loaded it becomes a
    JSON-like tree. Columns are copied (dates as ISO text), loaded
    relationships are followed, list relationships are ordered by id, and
    cycles are cut with a set of (class, id) keys that every child receives
    as its own copy, so a cut happens only on an object's own ancestor path. */
module KillChainExport {
  import opened Wrappers
  import IsoFormat
  import PyDict

  /** A column value as a mapped attribute holds it. */
  datatype Value =
    | VNone
    | VBool(b: bool)
    | VInt(i: int)
    | VStr(s: string)
    | VDate(date: IsoFormat.ValidDate)
    | VDateTime(dateTime: IsoFormat.ValidDateTime)

  /** The identity of a mapped instance (Python object identity). */
  type ObjRef = nat

  datatype Column = Column(key: string, value: Value)

  /** A relationship attribute: not loaded, loaded as None, a single related
      object (`uselist` false), or a collection (`uselist` true). */
  datatype RelState = Unloaded | NullRef | One(target: ObjRef) | Many(targets: seq<ObjRef>)

  datatype Relationship = Relationship(key: string, state: RelState)

  /** A mapped instance: its class, its `id` attribute (None when missing or
      unset), its column attributes and its relationships, in mapper order. */
  datatype Obj = Obj(cls: string, id: Option<int>, columns: seq<Column>, rels: seq<Relationship>)

  type Graph = map<ObjRef, Obj>

  /** The visited-set key `(instance.__class__, getattr(instance, 'id', None))`. */
  datatype Key = Key(cls: string, id: Option<int>)

  function KeyOf(o: Obj): Key {
    Key(o.cls, o.id)
  }

  /** The exported tree: a leaf value, a dict with insertion-ordered keys, or
      a list. */
  datatype Json = Leaf(value: Value) | Dict(entries: seq<(string, Json)>) | List(items: seq<Json>)

  predicate RelTargets(state: RelState, t: ObjRef) {
    (state.One? && state.target == t) || (state.Many? && t in state.targets)
  }

  /** Every object the relationships of `o` point to is in the graph. */
  ghost predicate TargetsIn(g: Graph, o: Obj) {
    forall j, t :: 0 <= j < |o.rels| && RelTargets(o.rels[j].state, t) ==> t in g
  }

  /** The graph holds every object reachable from its objects. */
  ghost predicate Closed(g: Graph) {
    forall r :: r in g ==> TargetsIn(g, g[r])
  }

  /** The keys of all objects of the graph. */
  function AllKeys(g: Graph): set<Key> {
    set r | r in g :: KeyOf(g[r])
  }

  /** How many keys the recursion may still add: the termination measure. */
  function Unvisited(g: Graph, visited: set<Key>): nat {
    |AllKeys(g) - visited|
  }

  /** Adding an object's unvisited key leaves one key fewer to visit. */
  lemma UnvisitedShrinks(g: Graph, visited: set<Key>, k: Key)
    requires k in AllKeys(g) && k !in visited
    ensures Unvisited(g, visited + {k}) == Unvisited(g, visited) - 1
  {
    assert AllKeys(g) - (visited + {k}) == (AllKeys(g) - visited) - {k};
  }

  /** What is written for a column value: dates and date-times as their ISO
      text, everything else unchanged. */
  function Exported(v: Value): (e: Value)
    ensures !e.VDate? && !e.VDateTime?
    ensures !v.VDate? && !v.VDateTime? ==> e == v
    ensures v.VDate? ==> e == VStr(IsoFormat.IsoDate(v.date))
    ensures v.VDateTime? ==> e == VStr(IsoFormat.IsoDateTime(v.dateTime))
  {
    match v
    case VDate(d) => VStr(IsoFormat.IsoDate(d))
    case VDateTime(dt) => VStr(IsoFormat.IsoDateTime(dt))
    case _ => v
  }

  /** A date or date-time column is written as ISO text that reads back as
      the value it came from. */
  lemma ExportedReadsBack(v: Value)
    ensures v.VDate? ==>
      Exported(v).VStr? && IsoFormat.IsoDateShaped(Exported(v).s)
      && IsoFormat.DateOfIso(Exported(v).s) == v.date
    ensures v.VDateTime? ==>
      Exported(v).VStr? && (|Exported(v).s| == 19 || |Exported(v).s| == 26)
      && IsoFormat.IsoDateShaped(Exported(v).s[..10]) && Exported(v).s[10] == 'T'
      && IsoFormat.ClockShaped(Exported(v).s[11..])
      && IsoFormat.DateTimeOfIso(Exported(v).s) == v.dateTime
  {
    match v
    case VDate(d) => IsoFormat.IsoDateRoundTrip(d);
    case VDateTime(dt) => IsoFormat.IsoDateTimeRoundTrip(dt);
    case _ =>
  }

  /** `getattr(instance, 'id', None)` as a value. */
  function IdValue(id: Option<int>): Value {
    if id.Some? then VInt(id.value) else VNone
  }

  /** `{'id': id, '__ref__': 'Circular'}`. */
  function CircularMarker(id: Option<int>): Json {
    Dict([("id", Leaf(IdValue(id))), ("__ref__", Leaf(VStr("Circular")))])
  }

  /** The dict after the column loop over `columns`. */
  function ColumnsDict(columns: seq<Column>): seq<(string, Json)> {
    if columns == [] then []
    else
      var c := columns[|columns| - 1];
      PyDict.Put(ColumnsDict(columns[..|columns| - 1]), c.key, Leaf(Exported(c.value)))
  }

  /** Every element is an object of the graph with an id. */
  predicate AllIded(g: Graph, refs: seq<ObjRef>) {
    forall i :: 0 <= i < |refs| ==> refs[i] in g && g[refs[i]].id.Some?
  }

  function IdOf(g: Graph, r: ObjRef): int
    requires r in g && g[r].id.Some?
  {
    g[r].id.value
  }

  predicate SortedById(g: Graph, refs: seq<ObjRef>)
    requires AllIded(g, refs)
  {
    forall i, j :: 0 <= i < j < |refs| ==> IdOf(g, refs[i]) <= IdOf(g, refs[j])
  }

  /** Appending an element whose id is at least every id keeps the order. */
  lemma AppendLargest(g: Graph, p: seq<ObjRef>, y: ObjRef)
    requires AllIded(g, p) && SortedById(g, p)
    requires y in g && g[y].id.Some?
    requires forall z :: z in p ==> IdOf(g, z) <= IdOf(g, y)
    ensures AllIded(g, p + [y]) && SortedById(g, p + [y])
  {
    var q := p + [y];
    forall i, j | 0 <= i < j < |q| ensures IdOf(g, q[i]) <= IdOf(g, q[j]) {
      if j < |p| {
        assert q[i] == p[i] && q[j] == p[j];
      } else {
        assert q[i] in p;
      }
    }
  }

  /** Inserting keeps every id within a bound that holds for the parts. */
  lemma InsertBounded(g: Graph, s: seq<ObjRef>, x: ObjRef, r: seq<ObjRef>, bound: int)
    requires AllIded(g, s) && x in g && g[x].id.Some? && AllIded(g, r)
    requires multiset(r) == multiset(s) + multiset{x}
    requires forall z :: z in s ==> IdOf(g, z) <= bound
    requires IdOf(g, x) <= bound
    ensures forall z :: z in r ==> IdOf(g, z) <= bound
  {
    forall z | z in r ensures IdOf(g, z) <= bound {
      assert z in multiset(r);
      if z != x {
        assert z in multiset(s);
      }
    }
  }

  /** `x` placed into the id-ordered `s` after every element whose id is not
      larger. */
  function InsertById(g: Graph, s: seq<ObjRef>, x: ObjRef): (r: seq<ObjRef>)
    requires AllIded(g, s) && SortedById(g, s)
    requires x in g && g[x].id.Some?
    ensures AllIded(g, r) && SortedById(g, r)
    ensures multiset(r) == multiset(s) + multiset{x}
  {
    if s == [] then [x]
    else
      var last := s[|s| - 1];
      if IdOf(g, last) <= IdOf(g, x) then
        AppendLargest(g, s, x);
        s + [x]
      else
        var front := s[..|s| - 1];
        SplitLast(g, s);
        var mid := InsertById(g, front, x);
        InsertBounded(g, front, x, mid, IdOf(g, last));
        AppendLargest(g, mid, last);
        mid + [last]
  }

  /** The front of an id-ordered sequence is id-ordered, and its last
      element's id bounds the ids of the front. */
  lemma SplitLast(g: Graph, s: seq<ObjRef>)
    requires AllIded(g, s) && SortedById(g, s) && s != []
    ensures s == s[..|s| - 1] + [s[|s| - 1]]
    ensures AllIded(g, s[..|s| - 1]) && SortedById(g, s[..|s| - 1])
    ensures forall z :: z in s[..|s| - 1] ==> IdOf(g, z) <= IdOf(g, s[|s| - 1])
  {
    var front := s[..|s| - 1];
    assert forall i :: 0 <= i < |front| ==> front[i] == s[i];
    forall z | z in front ensures IdOf(g, z) <= IdOf(g, s[|s| - 1]) {
      var i :| 0 <= i < |front| && front[i] == z;
    }
  }

  /** `list.sort(key=id)` on objects that all have an id. */
  function SortById(g: Graph, refs: seq<ObjRef>): (r: seq<ObjRef>)
    requires AllIded(g, refs)
    ensures AllIded(g, r) && SortedById(g, r)
    ensures multiset(r) == multiset(refs)
  {
    if refs == [] then []
    else
      assert refs == refs[..|refs| - 1] + [refs[|refs| - 1]];
      InsertById(g, SortById(g, refs[..|refs| - 1]), refs[|refs| - 1])
  }

  /** `related_list.sort(key=lambda x: getattr(x, "id", None))`: a list of
      fewer than two objects is left as it is; a longer one is ordered by id,
      and raises TypeError when some id is None, since None does not compare. */
  function SortChildren(g: Graph, refs: seq<ObjRef>): (r: Outcome<seq<ObjRef>>)
    requires forall i :: 0 <= i < |refs| ==> refs[i] in g
    ensures r.Raised? <==> |refs| >= 2 && !AllIded(g, refs)
    ensures r.Raised? ==> r.error == TypeError
    ensures r.Ok? ==> multiset(r.value) == multiset(refs) && |r.value| == |refs|
    ensures r.Ok? ==> forall i :: 0 <= i < |r.value| ==> r.value[i] in g
    ensures r.Ok? && |refs| >= 2 ==> AllIded(g, r.value) && SortedById(g, r.value)
  {
    if |refs| <= 1 then Ok(refs)
    else if AllIded(g, refs) then
      var s := SortById(g, refs);
      assert |s| == |multiset(s)| == |multiset(refs)| == |refs|;
      Ok(s)
    else Raised(TypeError)
  }

  // ---------------------------------------------------------------------
  // Building a dict and a list from contributions that may raise

  /** The first raising outcome is at `i`: every earlier one succeeded. */
  predicate FirstRaised(outcomes: seq<Outcome<Json>>, i: nat, e: PyException) {
    && i < |outcomes|
    && outcomes[i] == Raised(e)
    && forall j :: 0 <= j < i ==> outcomes[j].Ok?
  }

  /** A list comprehension over elements whose evaluation may raise: the
      list of values in order, or the first exception. */
  function Collect(outcomes: seq<Outcome<Json>>): (r: Outcome<seq<Json>>)
    ensures r.Ok? <==> forall i :: 0 <= i < |outcomes| ==> outcomes[i].Ok?
    ensures r.Ok? ==> |r.value| == |outcomes|
    ensures r.Ok? ==> forall i :: 0 <= i < |outcomes| ==> r.value[i] == outcomes[i].value
    ensures r.Raised? ==> exists i :: FirstRaised(outcomes, i, r.error)
  {
    if outcomes == [] then Ok([])
    else
      var n := |outcomes| - 1;
      var front := outcomes[..n];
      assert forall i :: 0 <= i < n ==> front[i] == outcomes[i];
      match Collect(front)
      case Raised(e) =>
        var i :| FirstRaised(front, i, e);
        assert FirstRaised(outcomes, i, e);
        Raised(e)
      case Ok(items) =>
        match outcomes[n]
        case Raised(e) =>
          assert FirstRaised(outcomes, n, e);
          Raised(e)
        case Ok(t) => Ok(items + [t])
  }

  /** Once an element has raised, the later ones are not evaluated. */
  lemma {:induction false} CollectErrorSticks(outcomes: seq<Outcome<Json>>, c: nat)
    requires c <= |outcomes|
    requires Collect(outcomes[..c]).Raised?
    ensures Collect(outcomes) == Collect(outcomes[..c])
    decreases |outcomes| - c
  {
    if c < |outcomes| {
      var front := outcomes[..|outcomes| - 1];
      assert front[..c] == outcomes[..c];
      CollectErrorSticks(front, c);
    } else {
      assert outcomes[..c] == outcomes;
    }
  }

  /** One element of the comprehension. */
  lemma CollectStep(outcomes: seq<Outcome<Json>>, c: nat, items: seq<Json>)
    requires c < |outcomes|
    requires Collect(outcomes[..c]) == Ok(items)
    ensures Collect(outcomes[..c + 1])
         == if outcomes[c].Ok? then Ok(items + [outcomes[c].value]) else Raised(outcomes[c].error)
  {
    assert outcomes[..c + 1][..c] == outcomes[..c];
  }

  /** A contribution that raises. */
  predicate Raises(entry: Option<Outcome<Json>>) {
    entry.Some? && entry.value.Raised?
  }

  /** `entries[j]` raises `e` and no contribution before it raises. */
  predicate FirstRaising(entries: seq<Option<Outcome<Json>>>, j: nat, e: PyException) {
    j < |entries| && entries[j] == Some(Raised(e))
    && forall i :: 0 <= i < j ==> !Raises(entries[i])
  }

  /** The relationship loop over contributions known in advance: `keys[j]`
      receives what `entries[j]` holds, nothing is written for None, and the
      first exception ends the loop. */
  function Assemble(base: seq<(string, Json)>, keys: seq<string>, entries: seq<Option<Outcome<Json>>>)
    : (r: Outcome<seq<(string, Json)>>)
    requires |keys| == |entries|
    ensures r.Ok? <==> forall j :: 0 <= j < |entries| ==> !Raises(entries[j])
    ensures r.Raised? ==> exists j :: FirstRaising(entries, j, r.error)
  {
    if keys == [] then Ok(base)
    else
      var n := |keys| - 1;
      assert forall j :: 0 <= j < n ==> entries[..n][j] == entries[j];
      match Assemble(base, keys[..n], entries[..n])
      case Raised(e) =>
        var j: nat :| FirstRaising(entries[..n], j, e);
        assert FirstRaising(entries, j, e);
        Raised(e)
      case Ok(data) =>
        match entries[n]
        case None => Ok(data)
        case Some(Raised(e)) =>
          assert FirstRaising(entries, n, e);
          Raised(e)
        case Some(Ok(v)) => Ok(PyDict.Put(data, keys[n], v))
  }

  /** Once the loop has raised, the later steps do not run. */
  lemma {:induction false} AssembleErrorSticks(
    base: seq<(string, Json)>, keys: seq<string>, entries: seq<Option<Outcome<Json>>>, i: nat)
    requires |keys| == |entries| && i <= |keys|
    requires Assemble(base, keys[..i], entries[..i]).Raised?
    ensures Assemble(base, keys, entries) == Assemble(base, keys[..i], entries[..i])
    decreases |keys| - i
  {
    if i < |keys| {
      var n := |keys| - 1;
      var fk, fe := keys[..n], entries[..n];
      assert fk[..i] == keys[..i] && fe[..i] == entries[..i];
      AssembleErrorSticks(base, fk, fe, i);
      AssembleRaisedFront(base, keys, entries);
    } else {
      assert keys[..i] == keys && entries[..i] == entries;
    }
  }

  /** A raised front makes the whole loop raise the same exception. */
  lemma AssembleRaisedFront(base: seq<(string, Json)>, keys: seq<string>, entries: seq<Option<Outcome<Json>>>)
    requires |keys| == |entries| && keys != []
    requires Assemble(base, keys[..|keys| - 1], entries[..|keys| - 1]).Raised?
    ensures Assemble(base, keys, entries) == Assemble(base, keys[..|keys| - 1], entries[..|keys| - 1])
  {
  }

  /** One step of the loop, given the dict so far. */
  lemma AssembleStep(
    base: seq<(string, Json)>, keys: seq<string>, entries: seq<Option<Outcome<Json>>>,
    j: nat, data: seq<(string, Json)>)
    requires |keys| == |entries| && j < |keys|
    requires Assemble(base, keys[..j], entries[..j]) == Ok(data)
    ensures entries[j].None? ==> Assemble(base, keys[..j + 1], entries[..j + 1]) == Ok(data)
    ensures Raises(entries[j]) ==> Assemble(base, keys[..j + 1], entries[..j + 1]) == Raised(entries[j].value.error)
    ensures entries[j].Some? && entries[j].value.Ok? ==>
      Assemble(base, keys[..j + 1], entries[..j + 1]) == Ok(PyDict.Put(data, keys[j], entries[j].value.value))
  {
    assert keys[..j + 1][..j] == keys[..j];
    assert entries[..j + 1][..j] == entries[..j];
  }

  /** The keys whose contribution is present, in order. */
  function PresentKeys(keys: seq<string>, entries: seq<Option<Outcome<Json>>>): (ks: seq<string>)
    requires |keys| == |entries|
    ensures forall x :: x in ks ==> exists j :: 0 <= j < |keys| && keys[j] == x && entries[j].Some?
  {
    if keys == [] then []
    else
      var n := |keys| - 1;
      var front := PresentKeys(keys[..n], entries[..n]);
      assert forall j :: 0 <= j < n ==> keys[..n][j] == keys[j] && entries[..n][j] == entries[j];
      front + (if entries[n].Some? then [keys[n]] else [])
  }

  /** With pairwise distinct keys, none already in the base dict, the loop
      appends the key of each present contribution, in order. */
  lemma {:induction false} AssembleKeys(
    base: seq<(string, Json)>, keys: seq<string>, entries: seq<Option<Outcome<Json>>>)
    requires |keys| == |entries|
    requires forall i, j :: 0 <= i < j < |keys| ==> keys[i] != keys[j]
    requires forall j :: 0 <= j < |keys| ==> keys[j] !in PyDict.Keys(base)
    requires Assemble(base, keys, entries).Ok?
    ensures PyDict.Keys(Assemble(base, keys, entries).value) == PyDict.Keys(base) + PresentKeys(keys, entries)
  {
    if keys != [] {
      var n := |keys| - 1;
      var fk, fe := keys[..n], entries[..n];
      assert forall j :: 0 <= j < n ==> fk[j] == keys[j] && fe[j] == entries[j];
      assert Assemble(base, fk, fe).Ok?;
      assert forall i, j :: 0 <= i < j < n ==> fk[i] != fk[j];
      assert forall j :: 0 <= j < n ==> fk[j] !in PyDict.Keys(base);
      AssembleKeys(base, fk, fe);
      AssembleKeysStep(base, keys, entries);
    }
  }

  /** The last step of `AssembleKeys`, given the keys the front leaves. */
  lemma AssembleKeysStep(base: seq<(string, Json)>, keys: seq<string>, entries: seq<Option<Outcome<Json>>>)
    requires |keys| == |entries| && keys != []
    requires forall j :: 0 <= j < |keys| - 1 ==> keys[j] != keys[|keys| - 1]
    requires keys[|keys| - 1] !in PyDict.Keys(base)
    requires Assemble(base, keys, entries).Ok?
    requires Assemble(base, keys[..|keys| - 1], entries[..|keys| - 1]).Ok?
    requires PyDict.Keys(Assemble(base, keys[..|keys| - 1], entries[..|keys| - 1]).value)
      == PyDict.Keys(base) + PresentKeys(keys[..|keys| - 1], entries[..|keys| - 1])
    ensures PyDict.Keys(Assemble(base, keys, entries).value) == PyDict.Keys(base) + PresentKeys(keys, entries)
  {
    var n := |keys| - 1;
    var fk, fe := keys[..n], entries[..n];
    var data := Assemble(base, fk, fe).value;
    var front := PresentKeys(fk, fe);
    if entries[n].Some? {
      var k := keys[n];
      var v := entries[n].value.value;
      assert Assemble(base, keys, entries) == Ok(PyDict.Put(data, k, v));
      assert PresentKeys(keys, entries) == front + [k];
      assert k !in PyDict.Keys(data) by {
        forall x | x in front ensures x != k {
          var j :| 0 <= j < n && fk[j] == x && fe[j].Some?;
        }
      }
      PyDict.PutKeys(data, k, v);
    } else {
      assert Assemble(base, keys, entries) == Ok(data);
      assert PresentKeys(keys, entries) == front;
    }
  }

  /** Keys outside `keys` keep the value the base dict gives them. */
  lemma {:induction false} AssembleKeepsBase(
    base: seq<(string, Json)>, keys: seq<string>, entries: seq<Option<Outcome<Json>>>, x: string)
    requires |keys| == |entries|
    requires x !in keys
    requires Assemble(base, keys, entries).Ok?
    ensures PyDict.Get(Assemble(base, keys, entries).value, x) == PyDict.Get(base, x)
  {
    if keys != [] {
      var n := |keys| - 1;
      assert keys == keys[..n] + [keys[n]];
      AssembleKeepsBase(base, keys[..n], entries[..n], x);
      if entries[n].Some? {
        PyDict.PutThenGet(Assemble(base, keys[..n], entries[..n]).value, keys[n], entries[n].value.value);
      }
    }
  }

  /** With pairwise distinct keys, each present contribution is found under
      its key. */
  lemma {:induction false} AssembleGets(
    base: seq<(string, Json)>, keys: seq<string>, entries: seq<Option<Outcome<Json>>>, j: nat)
    requires |keys| == |entries| && j < |keys|
    requires forall i, j :: 0 <= i < j < |keys| ==> keys[i] != keys[j]
    requires Assemble(base, keys, entries).Ok?
    requires entries[j].Some?
    ensures PyDict.Get(Assemble(base, keys, entries).value, keys[j]) == Some(entries[j].value.value)
  {
    var n := |keys| - 1;
    var fk, fe := keys[..n], entries[..n];
    var data := Assemble(base, fk, fe).value;
    if j == n {
      PyDict.PutThenGet(data, keys[n], entries[n].value.value);
    } else {
      assert fk[j] == keys[j] && fe[j] == entries[j];
      AssembleGets(base, fk, fe, j);
      if entries[n].Some? {
        assert keys[j] != keys[n];
        PyDict.PutThenGet(data, keys[n], entries[n].value.value);
      }
    }
  }

  /** Every entry the loop leaves is a base entry or a present contribution. */
  lemma {:induction false} AssembleValues(
    base: seq<(string, Json)>, keys: seq<string>, entries: seq<Option<Outcome<Json>>>)
    requires |keys| == |entries|
    requires Assemble(base, keys, entries).Ok?
    ensures forall p :: p in Assemble(base, keys, entries).value ==>
      p in base || exists j :: 0 <= j < |entries| && entries[j] == Some(Ok(p.1))
  {
    if keys != [] {
      var n := |keys| - 1;
      var fk, fe := keys[..n], entries[..n];
      assert forall j :: 0 <= j < n ==> fe[j] == entries[j];
      AssembleValues(base, fk, fe);
      if entries[n].Some? {
        PyDict.PutEntries(Assemble(base, fk, fe).value, keys[n], entries[n].value.value);
      }
    }
  }

  // ---------------------------------------------------------------------
  // The serialiser

  /** `result_to_dict_recursive(instance, visited)`: the tree, or the
      exception that escapes. The changes to `visited` are stated by the
      method below. Every contribution is a function of the graph alone, so
      computing them first and then running the loop gives what the loop
      that computes them one by one gives. */
  function ToDict(g: Graph, inst: Option<ObjRef>, visited: set<Key>): (r: Outcome<Json>)
    requires Closed(g)
    requires inst.Some? ==> inst.value in g
    ensures r.Ok? ==> r.value.Dict?
    ensures r.Raised? ==>
      inst.Some? && KeyOf(g[inst.value]) !in visited
      && exists j :: FirstRaising(RelEntries(g, inst.value, visited), j, r.error)
    decreases Unvisited(g, visited), 4
  {
    if inst.None? then Ok(Dict([]))
    else
      var o := g[inst.value];
      if KeyOf(o) in visited then Ok(CircularMarker(o.id))
      else
        match Assemble(ColumnsDict(o.columns), RelKeys(o.rels), RelEntries(g, inst.value, visited))
        case Ok(data) => Ok(Dict(data))
        case Raised(e) => Raised(e)
  }

  /** What each relationship of object `r` contributes, in mapper order;
      `visited` is the set before `r`'s key is added. */
  function RelEntries(g: Graph, r: ObjRef, visited: set<Key>): (es: seq<Option<Outcome<Json>>>)
    requires Closed(g) && r in g && KeyOf(g[r]) !in visited
    decreases Unvisited(g, visited), 3
  {
    seq(|g[r].rels|, j requires 0 <= j < |g[r].rels| => RelEntry(g, r, visited, j))
  }

  /** What relationship `j` of object `r` contributes: nothing when it is
      unloaded or None, otherwise the child's tree or the list of the
      children's trees, each computed with its own copy of the visited set
      that holds `r`'s key. */
  function RelEntry(g: Graph, r: ObjRef, visited: set<Key>, j: nat): Option<Outcome<Json>>
    requires Closed(g) && r in g && KeyOf(g[r]) !in visited
    requires j < |g[r].rels|
    decreases Unvisited(g, visited), 2
  {
    var k := KeyOf(g[r]);
    assert k in AllKeys(g);
    UnvisitedShrinks(g, visited, k);
    assert TargetsIn(g, g[r]);
    match g[r].rels[j].state
    case Unloaded => None
    case NullRef => None
    case One(t) =>
      assert RelTargets(g[r].rels[j].state, t);
      Some(ToDict(g, Some(t), visited + {k}))
    case Many(ts) =>
      assert forall i :: 0 <= i < |ts| ==> RelTargets(g[r].rels[j].state, ts[i]);
      Some(ListEntry(g, k, visited, ts))
  }

  /** A list relationship of the object with key `k`: the related objects
      sorted by id, then serialised in that order. */
  function ListEntry(g: Graph, k: Key, visited: set<Key>, ts: seq<ObjRef>): Outcome<Json>
    requires Closed(g) && k in AllKeys(g) && k !in visited
    requires forall i :: 0 <= i < |ts| ==> ts[i] in g
    decreases Unvisited(g, visited), 1
  {
    match SortChildren(g, ts)
    case Raised(e) => Raised(e)
    case Ok(sorted) =>
      match Collect(ChildOutcomes(g, k, visited, sorted))
      case Raised(e) => Raised(e)
      case Ok(items) => Ok(List(items))
  }

  /** Each child of a list relationship serialised with `visited + {k}`. */
  function ChildOutcomes(g: Graph, k: Key, visited: set<Key>, refs: seq<ObjRef>): seq<Outcome<Json>>
    requires Closed(g) && k in AllKeys(g) && k !in visited
    requires forall i :: 0 <= i < |refs| ==> refs[i] in g
    decreases Unvisited(g, visited), 0
  {
    UnvisitedShrinks(g, visited, k);
    seq(|refs|, i requires 0 <= i < |refs| => ToDict(g, Some(refs[i]), visited + {k}))
  }

  /** `result_to_dict_recursive(instance, visited)`: the column loop, then the
      relationship loop. The caller's set gains the instance's key. */
  method ResultToDictRecursive(g: Graph, inst: Option<ObjRef>, visited: set<Key>)
    returns (r: Outcome<Json>, visitedOut: set<Key>)
    requires Closed(g)
    requires inst.Some? ==> inst.value in g
    ensures r == ToDict(g, inst, visited)
    ensures visitedOut == if inst.Some? then visited + {KeyOf(g[inst.value])} else visited
    decreases Unvisited(g, visited), 2
  {
    visitedOut := visited;
    if inst.None? {
      return Ok(Dict([])), visitedOut;
    }
    var o := g[inst.value];
    var instanceId := KeyOf(o);
    if instanceId in visitedOut {
      return Ok(CircularMarker(o.id)), visitedOut;
    }
    visitedOut := visitedOut + {instanceId};

    var data := ColumnValues(o.columns);
    ghost var keys := RelKeys(o.rels);
    ghost var entries := RelEntries(g, inst.value, visited);
    for j := 0 to |o.rels|
      invariant Assemble(ColumnsDict(o.columns), keys[..j], entries[..j]) == Ok(data)
    {
      var entry := RelationshipValue(g, inst.value, visited, j);
      AssembleStep(ColumnsDict(o.columns), keys, entries, j, data);
      match entry {
        case None =>
        case Some(Raised(e)) =>
          AssembleErrorSticks(ColumnsDict(o.columns), keys, entries, j + 1);
          return Raised(e), visitedOut;
        case Some(Ok(v)) =>
          data := PyDict.Put(data, o.rels[j].key, v);
      }
    }
    assert keys[..|o.rels|] == keys && entries[..|o.rels|] == entries;
    r := Ok(Dict(data));
  }

  /** The column loop: each column's value, dates and date-times as ISO text. */
  method ColumnValues(columns: seq<Column>) returns (data: seq<(string, Json)>)
    ensures data == ColumnsDict(columns)
  {
    data := [];
    for i := 0 to |columns|
      invariant data == ColumnsDict(columns[..i])
    {
      var column := columns[i];
      assert columns[..i + 1][..i] == columns[..i];
      match column.value {
        case VDate(d) => data := PyDict.Put(data, column.key, Leaf(VStr(IsoFormat.IsoDate(d))));
        case VDateTime(dt) => data := PyDict.Put(data, column.key, Leaf(VStr(IsoFormat.IsoDateTime(dt))));
        case _ => data := PyDict.Put(data, column.key, Leaf(column.value));
      }
    }
    assert columns[..|columns|] == columns;
  }

  /** One step of the relationship loop of object `r`, whose key is being
      added to `visited`: nothing for an unloaded or None relationship, else
      the related object or the sorted related list, serialised. */
  method RelationshipValue(g: Graph, r: ObjRef, visited: set<Key>, j: nat) returns (e: Option<Outcome<Json>>)
    requires Closed(g) && r in g && KeyOf(g[r]) !in visited
    requires j < |g[r].rels|
    ensures e == RelEntry(g, r, visited, j)
    decreases Unvisited(g, visited), 1
  {
    var instanceId := KeyOf(g[r]);
    assert instanceId in AllKeys(g);
    UnvisitedShrinks(g, visited, instanceId);
    assert TargetsIn(g, g[r]);
    var rel := g[r].rels[j];
    match rel.state {
      case Unloaded => e := None;
      case NullRef => e := None;
      case One(target) =>
        assert RelTargets(rel.state, target);
        var child, _ := ResultToDictRecursive(g, Some(target), visited + {instanceId});
        e := Some(child);
      case Many(targets) =>
        assert forall i :: 0 <= i < |targets| ==> RelTargets(rel.state, targets[i]);
        var relatedList := SortChildren(g, targets);
        if relatedList.Raised? {
          return Some(Raised(relatedList.error));
        }
        var items := ChildValues(g, instanceId, visited, relatedList.value);
        e := if items.Raised? then Some(Raised(items.error)) else Some(Ok(List(items.value)));
    }
  }

  /** The list comprehension: each child serialised with its own copy of
      `visited + {k}`, in order, stopping at the first exception. */
  method ChildValues(g: Graph, k: Key, visited: set<Key>, sorted: seq<ObjRef>) returns (r: Outcome<seq<Json>>)
    requires Closed(g) && k in AllKeys(g) && k !in visited
    requires forall i :: 0 <= i < |sorted| ==> sorted[i] in g
    ensures r == Collect(ChildOutcomes(g, k, visited, sorted))
    decreases Unvisited(g, visited), 0
  {
    UnvisitedShrinks(g, visited, k);
    ghost var outcomes := ChildOutcomes(g, k, visited, sorted);
    var items: seq<Json> := [];
    for c := 0 to |sorted|
      invariant Collect(outcomes[..c]) == Ok(items)
    {
      var child, _ := ResultToDictRecursive(g, Some(sorted[c]), visited + {k});
      CollectStep(outcomes, c, items);
      if child.Raised? {
        CollectErrorSticks(outcomes, c + 1);
        return Raised(child.error);
      }
      items := items + [child.value];
    }
    assert outcomes[..|sorted|] == outcomes;
    r := Ok(items);
  }
  // ---------------------------------------------------------------------
  // What the export produces

  /** The empty dict for no instance, and the marker for an instance whose
      key is already on the path. */
  lemma NoneAndRepeatedKey(g: Graph, r: ObjRef, visited: set<Key>)
    requires Closed(g) && r in g
    ensures ToDict(g, None, visited) == Ok(Dict([]))
    ensures KeyOf(g[r]) in visited ==> ToDict(g, Some(r), visited) == Ok(CircularMarker(g[r].id))
  {
  }

  /** Two distinct objects of one class that both lack an id share a key, so
      once one is on the path the other is cut as well. */
  lemma ObjectsWithoutIdShareKey(g: Graph, r1: ObjRef, r2: ObjRef, visited: set<Key>)
    requires Closed(g) && r1 in g && r2 in g
    requires g[r1].cls == g[r2].cls && g[r1].id.None? && g[r2].id.None?
    ensures KeyOf(g[r1]) == KeyOf(g[r2])
    ensures KeyOf(g[r1]) in visited ==> ToDict(g, Some(r2), visited) == Ok(CircularMarker(None))
  {
  }

  /** The keys of the column attributes, in mapper order. */
  function ColumnKeys(columns: seq<Column>): (ks: seq<string>)
    ensures |ks| == |columns|
    ensures forall i :: 0 <= i < |columns| ==> ks[i] == columns[i].key
  {
    seq(|columns|, i requires 0 <= i < |columns| => columns[i].key)
  }

  /** The keys of the relationships, in mapper order. The same projection as
      `ColumnKeys`, written for the other element type. */
  function RelKeys(rels: seq<Relationship>): (ks: seq<string>)
    ensures |ks| == |rels|
    ensures forall i :: 0 <= i < |rels| ==> ks[i] == rels[i].key
  {
    seq(|rels|, i requires 0 <= i < |rels| => rels[i].key)
  }

  /** A relationship that contributes an entry: loaded and not None. */
  predicate Included(state: RelState) {
    state.One? || state.Many?
  }

  /** The keys of the relationships that contribute an entry, in order. */
  function IncludedKeys(rels: seq<Relationship>): (ks: seq<string>)
    ensures forall x :: x in ks ==> exists j :: 0 <= j < |rels| && rels[j].key == x && Included(rels[j].state)
  {
    if rels == [] then []
    else
      var last := rels[|rels| - 1];
      var front := IncludedKeys(rels[..|rels| - 1]);
      assert forall x :: x in front ==> exists j :: 0 <= j < |rels| && rels[j].key == x && Included(rels[j].state) by {
        forall x | x in front ensures exists j :: 0 <= j < |rels| && rels[j].key == x && Included(rels[j].state) {
          var j :| 0 <= j < |rels[..|rels| - 1]| && rels[..|rels| - 1][j].key == x && Included(rels[..|rels| - 1][j].state);
          assert rels[j] == rels[..|rels| - 1][j];
        }
      }
      front + (if Included(last.state) then [last.key] else [])
  }

  /** The mapper's attribute keys are pairwise distinct: no column shares a
      key with another column or with a relationship. */
  predicate MapperKeysDistinct(o: Obj) {
    var ks := ColumnKeys(o.columns) + RelKeys(o.rels);
    forall i, j :: 0 <= i < j < |ks| ==> ks[i] != ks[j]
  }

  /** With distinct column keys the column loop writes one entry per column,
      in order, holding the exported value. */
  lemma ColumnsDictSpec(columns: seq<Column>)
    requires forall i, j :: 0 <= i < j < |columns| ==> columns[i].key != columns[j].key
    ensures PyDict.Keys(ColumnsDict(columns)) == ColumnKeys(columns)
    ensures forall i :: 0 <= i < |columns| ==>
      PyDict.Get(ColumnsDict(columns), columns[i].key) == Some(Leaf(Exported(columns[i].value)))
  {
    ColumnsDictEntries(columns);
    var d := ColumnEntries(columns);
    assert PyDict.KeysDistinct(d);
    forall i | 0 <= i < |columns|
      ensures PyDict.Get(d, columns[i].key) == Some(Leaf(Exported(columns[i].value)))
    {
      PyDict.GetFinds(d, i);
    }
  }

  /** One entry per column: its key and its exported value. */
  function ColumnEntries(columns: seq<Column>): (d: seq<(string, Json)>)
    ensures |d| == |columns|
    ensures forall i :: 0 <= i < |columns| ==> d[i] == (columns[i].key, Leaf(Exported(columns[i].value)))
  {
    seq(|columns|, i requires 0 <= i < |columns| => (columns[i].key, Leaf(Exported(columns[i].value))))
  }

  /** With distinct column keys no assignment overwrites: the column loop
      appends one entry per column, in mapper order. */
  lemma {:induction false} ColumnsDictEntries(columns: seq<Column>)
    requires forall i, j :: 0 <= i < j < |columns| ==> columns[i].key != columns[j].key
    ensures ColumnsDict(columns) == ColumnEntries(columns)
  {
    if columns != [] {
      var n := |columns| - 1;
      var front := columns[..n];
      ColumnsDictEntries(front);
      var d := ColumnEntries(front);
      var k, v := columns[n].key, Leaf(Exported(columns[n].value));
      assert forall i :: 0 <= i < n ==> d[i].0 == columns[i].key;
      assert k !in PyDict.Keys(d);
      PyDict.PutKeys(d, k, v);
      assert ColumnEntries(columns) == d + [(k, v)];
    }
  }

  /** A relationship contributes an entry exactly when it is loaded and not
      None. */
  lemma RelEntryPresence(g: Graph, r: ObjRef, visited: set<Key>, j: nat)
    requires Closed(g) && r in g && KeyOf(g[r]) !in visited && j < |g[r].rels|
    ensures RelEntry(g, r, visited, j).Some? <==> Included(g[r].rels[j].state)
  {
  }

  /** With distinct mapper keys, the column keys are distinct, the
      relationship keys are distinct, and the two never meet. */
  lemma MapperKeysSplit(o: Obj)
    requires MapperKeysDistinct(o)
    ensures forall i, j :: 0 <= i < j < |o.columns| ==> o.columns[i].key != o.columns[j].key
    ensures forall i, j :: 0 <= i < j < |o.rels| ==> RelKeys(o.rels)[i] != RelKeys(o.rels)[j]
    ensures forall j :: 0 <= j < |o.rels| ==> RelKeys(o.rels)[j] !in ColumnKeys(o.columns)
  {
    var ks := ColumnKeys(o.columns) + RelKeys(o.rels);
    var c := |o.columns|;
    forall i, j | 0 <= i < j < c ensures o.columns[i].key != o.columns[j].key {
      assert ks[i] == o.columns[i].key && ks[j] == o.columns[j].key;
    }
    forall i, j | 0 <= i < j < |o.rels| ensures RelKeys(o.rels)[i] != RelKeys(o.rels)[j] {
      assert ks[c + i] == RelKeys(o.rels)[i] && ks[c + j] == RelKeys(o.rels)[j];
    }
    forall j | 0 <= j < |o.rels| ensures RelKeys(o.rels)[j] !in ColumnKeys(o.columns) {
      forall i | 0 <= i < c ensures ColumnKeys(o.columns)[i] != RelKeys(o.rels)[j] {
        assert ks[i] == ColumnKeys(o.columns)[i] && ks[c + j] == RelKeys(o.rels)[j];
      }
    }
  }

  /** When exactly the included relationships contribute, the keys written
      are the included keys. */
  lemma {:induction false} PresentKeysIncluded(rels: seq<Relationship>, entries: seq<Option<Outcome<Json>>>)
    requires |rels| == |entries|
    requires forall j :: 0 <= j < |rels| ==> (entries[j].Some? <==> Included(rels[j].state))
    ensures PresentKeys(RelKeys(rels), entries) == IncludedKeys(rels)
  {
    if rels != [] {
      var n := |rels| - 1;
      assert RelKeys(rels)[..n] == RelKeys(rels[..n]);
      assert forall j :: 0 <= j < n ==> rels[..n][j] == rels[j] && entries[..n][j] == entries[j];
      PresentKeysIncluded(rels[..n], entries[..n]);
    }
  }

  /** An object met for the first time is serialised exactly when none of
      its relationships raises; then it is a dict. */
  lemma ObjectOutcome(g: Graph, r: ObjRef, visited: set<Key>)
    requires Closed(g) && r in g && KeyOf(g[r]) !in visited
    ensures ToDict(g, Some(r), visited).Ok? <==> forall j :: 0 <= j < |g[r].rels| ==> !Raises(RelEntry(g, r, visited, j))
    ensures ToDict(g, Some(r), visited).Ok? ==> ToDict(g, Some(r), visited).value.Dict?
    ensures ToDict(g, Some(r), visited).Raised? ==>
      exists j :: 0 <= j < |g[r].rels| && RelEntry(g, r, visited, j) == Some(Raised(ToDict(g, Some(r), visited).error))
        && forall i :: 0 <= i < j ==> !Raises(RelEntry(g, r, visited, i))
  {
    var o := g[r];
    var es := RelEntries(g, r, visited);
    var a := Assemble(ColumnsDict(o.columns), RelKeys(o.rels), es);
    assert ToDict(g, Some(r), visited) == if a.Ok? then Ok(Dict(a.value)) else Raised(a.error);
    if forall j :: 0 <= j < |o.rels| ==> !Raises(RelEntry(g, r, visited, j)) {
      forall j | 0 <= j < |es| ensures !Raises(es[j]) {
        assert es[j] == RelEntry(g, r, visited, j);
      }
    }
    if a.Ok? {
      forall j | 0 <= j < |o.rels| ensures !Raises(RelEntry(g, r, visited, j)) {
        assert es[j] == RelEntry(g, r, visited, j);
      }
    } else {
      var j: nat :| FirstRaising(es, j, a.error);
      assert es[j] == RelEntry(g, r, visited, j);
      forall i | 0 <= i < j ensures !Raises(RelEntry(g, r, visited, i)) {
        assert es[i] == RelEntry(g, r, visited, i);
      }
    }
  }

  /** With distinct mapper keys, the dict of an object met for the first time
      holds one entry per column, in mapper order and holding the exported
      value, followed by one entry per loaded, non-None relationship, in
      mapper order and holding what that relationship contributes. */
  lemma ObjectEntries(g: Graph, r: ObjRef, visited: set<Key>)
    requires Closed(g) && r in g && KeyOf(g[r]) !in visited
    requires MapperKeysDistinct(g[r])
    requires ToDict(g, Some(r), visited).Ok?
    ensures ToDict(g, Some(r), visited).value.Dict?
    ensures var data := ToDict(g, Some(r), visited).value.entries;
      && PyDict.Keys(data) == ColumnKeys(g[r].columns) + IncludedKeys(g[r].rels)
      && (forall i :: 0 <= i < |g[r].columns| ==>
           PyDict.Get(data, g[r].columns[i].key) == Some(Leaf(Exported(g[r].columns[i].value))))
      && (forall j :: 0 <= j < |g[r].rels| && Included(g[r].rels[j].state) ==>
           && RelEntry(g, r, visited, j).Some?
           && RelEntry(g, r, visited, j).value.Ok?
           && PyDict.Get(data, g[r].rels[j].key) == Some(RelEntry(g, r, visited, j).value.value))
  {
    var o := g[r];
    var base := ColumnsDict(o.columns);
    var keys := RelKeys(o.rels);
    var es := RelEntries(g, r, visited);
    var a := Assemble(base, keys, es);
    assert ToDict(g, Some(r), visited) == Ok(Dict(a.value));
    MapperKeysSplit(o);
    ColumnsDictSpec(o.columns);
    forall j | 0 <= j < |o.rels| ensures es[j].Some? <==> Included(o.rels[j].state) {
      RelEntryPresence(g, r, visited, j);
    }
    AssembleKeys(base, keys, es);
    PresentKeysIncluded(o.rels, es);
    forall i | 0 <= i < |o.columns|
      ensures PyDict.Get(a.value, o.columns[i].key) == Some(Leaf(Exported(o.columns[i].value)))
    {
      forall j | 0 <= j < |keys| ensures keys[j] != o.columns[i].key {
        assert ColumnKeys(o.columns)[i] == o.columns[i].key;
      }
      AssembleKeepsBase(base, keys, es, o.columns[i].key);
    }
    forall j | 0 <= j < |o.rels| && Included(o.rels[j].state)
      ensures RelEntry(g, r, visited, j).Some? && RelEntry(g, r, visited, j).value.Ok?
      ensures PyDict.Get(a.value, o.rels[j].key) == Some(RelEntry(g, r, visited, j).value.value)
    {
      assert es[j] == RelEntry(g, r, visited, j);
      AssembleGets(base, keys, es, j);
    }
  }

  /** A scalar relationship contributes the related object's tree, computed
      with the parent's key added; a target with the parent's own key is cut
      to the marker. */
  lemma ScalarRelationship(g: Graph, r: ObjRef, visited: set<Key>, j: nat)
    requires Closed(g) && r in g && KeyOf(g[r]) !in visited && j < |g[r].rels|
    requires g[r].rels[j].state.One?
    ensures var t := g[r].rels[j].state.target;
      && t in g
      && RelEntry(g, r, visited, j) == Some(ToDict(g, Some(t), visited + {KeyOf(g[r])}))
      && (KeyOf(g[t]) == KeyOf(g[r]) ==> RelEntry(g, r, visited, j) == Some(Ok(CircularMarker(g[t].id))))
  {
    assert TargetsIn(g, g[r]);
    assert RelTargets(g[r].rels[j].state, g[r].rels[j].state.target);
  }

  /** A list relationship: with two or more children of which one lacks an
      id the sort raises TypeError; otherwise the children, ordered by id,
      are serialised each with the parent's key added, and the list holds
      their trees in that order, or the first child's exception escapes. */
  lemma ListRelationship(g: Graph, r: ObjRef, visited: set<Key>, j: nat)
    requires Closed(g) && r in g && KeyOf(g[r]) !in visited && j < |g[r].rels|
    requires g[r].rels[j].state.Many?
    ensures var ts := g[r].rels[j].state.targets;
      && (forall i :: 0 <= i < |ts| ==> ts[i] in g)
      && RelEntry(g, r, visited, j).Some?
      && (|ts| >= 2 && !AllIded(g, ts) ==> RelEntry(g, r, visited, j) == Some(Raised(TypeError)))
      && (SortChildren(g, ts).Ok? ==>
           var sorted := SortChildren(g, ts).value;
           var k := KeyOf(g[r]);
           var e := RelEntry(g, r, visited, j).value;
           && (e.Ok? <==> forall i :: 0 <= i < |sorted| ==> ToDict(g, Some(sorted[i]), visited + {k}).Ok?)
           && (e.Ok? ==> e.value.List? && |e.value.items| == |sorted|)
           && (e.Ok? ==> forall i :: 0 <= i < |sorted| ==>
                 e.value.items[i] == ToDict(g, Some(sorted[i]), visited + {k}).value)
           && (e.Raised? ==>
                 exists i :: (0 <= i < |sorted| && ToDict(g, Some(sorted[i]), visited + {k}) == Raised(e.error) && forall i' :: 0 <= i' < i ==> ToDict(g, Some(sorted[i']), visited + {k}).Ok?)))
  {
    var ts := g[r].rels[j].state.targets;
    ListEntryOf(g, r, visited, j);
    if SortChildren(g, ts).Ok? {
      ListEntryItems(g, KeyOf(g[r]), visited, ts);
      ListEntryError(g, KeyOf(g[r]), visited, ts);
    }
  }

  /** A list whose children all serialise holds their trees in sorted order. */
  lemma ListEntryItems(g: Graph, k: Key, visited: set<Key>, ts: seq<ObjRef>)
    requires Closed(g) && k in AllKeys(g) && k !in visited
    requires forall i :: 0 <= i < |ts| ==> ts[i] in g
    requires SortChildren(g, ts).Ok?
    ensures var sorted := SortChildren(g, ts).value;
      var e := ListEntry(g, k, visited, ts);
      && (e.Ok? <==> forall i :: 0 <= i < |sorted| ==> ToDict(g, Some(sorted[i]), visited + {k}).Ok?)
      && (e.Ok? ==> e.value.List? && |e.value.items| == |sorted|)
      && (e.Ok? ==> forall i :: 0 <= i < |sorted| ==>
            e.value.items[i] == ToDict(g, Some(sorted[i]), visited + {k}).value)
  {
    var sorted := SortChildren(g, ts).value;
    var outs := ChildOutcomes(g, k, visited, sorted);
    assert forall i :: 0 <= i < |sorted| ==> outs[i] == ToDict(g, Some(sorted[i]), visited + {k});
  }

  /** A list whose serialisation raises raises its first failing child's
      error, in sorted order. */
  lemma ListEntryError(g: Graph, k: Key, visited: set<Key>, ts: seq<ObjRef>)
    requires Closed(g) && k in AllKeys(g) && k !in visited
    requires forall i :: 0 <= i < |ts| ==> ts[i] in g
    requires SortChildren(g, ts).Ok?
    ensures var sorted := SortChildren(g, ts).value;
      var e := ListEntry(g, k, visited, ts);
      e.Raised? ==>
        exists i :: (0 <= i < |sorted| && ToDict(g, Some(sorted[i]), visited + {k}) == Raised(e.error)
          && forall i' :: 0 <= i' < i ==> ToDict(g, Some(sorted[i']), visited + {k}).Ok?)
  {
    var sorted := SortChildren(g, ts).value;
    var outs := ChildOutcomes(g, k, visited, sorted);
    var c := Collect(outs);
    if c.Raised? {
      var i: nat :| FirstRaised(outs, i, c.error);
      assert outs[i] == ToDict(g, Some(sorted[i]), visited + {k});
      forall i' | 0 <= i' < i ensures ToDict(g, Some(sorted[i']), visited + {k}).Ok? {
        assert outs[i'] == ToDict(g, Some(sorted[i']), visited + {k});
      }
    }
  }

  /** A list relationship contributes `ListEntry` of its targets. */
  lemma ListEntryOf(g: Graph, r: ObjRef, visited: set<Key>, j: nat)
    requires Closed(g) && r in g && KeyOf(g[r]) !in visited && j < |g[r].rels|
    requires g[r].rels[j].state.Many?
    ensures var ts := g[r].rels[j].state.targets;
      && KeyOf(g[r]) in AllKeys(g)
      && (forall i :: 0 <= i < |ts| ==> ts[i] in g)
      && RelEntry(g, r, visited, j) == Some(ListEntry(g, KeyOf(g[r]), visited, ts))
  {
    assert TargetsIn(g, g[r]);
    var ts := g[r].rels[j].state.targets;
    assert forall i :: 0 <= i < |ts| ==> RelTargets(g[r].rels[j].state, ts[i]);
  }

  // ---------------------------------------------------------------------
  // Properties of every export

  /** A tree with no date or date-time leaf: what `json` can write. */
  predicate PlainJson(t: Json) {
    match t
    case Leaf(v) => !v.VDate? && !v.VDateTime?
    case Dict(es) => forall p :: p in es ==> PlainJson(p.1)
    case List(items) => forall c :: c in items ==> PlainJson(c)
  }

  /** The tree nests dicts and lists at most `d` deep. */
  predicate DepthAtMost(t: Json, d: nat) {
    match t
    case Leaf(_) => true
    case Dict(es) => d >= 1 && forall p :: p in es ==> DepthAtMost(p.1, d - 1)
    case List(items) => d >= 1 && forall c :: c in items ==> DepthAtMost(c, d - 1)
  }

  /** A bound on the depth holds for every larger bound. */
  lemma {:induction false} DepthAtMostMono(t: Json, d: nat, d': nat)
    requires DepthAtMost(t, d) && d <= d'
    ensures DepthAtMost(t, d')
  {
    match t {
      case Leaf(_) =>
      case Dict(es) =>
        forall p | p in es ensures DepthAtMost(p.1, d' - 1) {
          DepthAtMostMono(p.1, d - 1, d' - 1);
        }
      case List(items) =>
        forall c | c in items ensures DepthAtMost(c, d' - 1) {
          DepthAtMostMono(c, d - 1, d' - 1);
        }
    }
  }

  /** A list of plain trees is plain and one level deeper than they are. */
  lemma ListShape(items: seq<Json>, d: nat)
    requires forall c :: c in items ==> PlainJson(c) && DepthAtMost(c, d)
    ensures PlainJson(List(items)) && DepthAtMost(List(items), d + 1)
  {
  }

  /** Every object a list relationship holds has an id. */
  ghost predicate ListsIded(g: Graph) {
    forall r, j :: r in g && 0 <= j < |g[r].rels| && g[r].rels[j].state.Many? ==>
      AllIded(g, g[r].rels[j].state.targets)
  }

  /** The column loop writes only plain leaves. */
  lemma {:induction false} ColumnsDictPlain(columns: seq<Column>)
    ensures forall p :: p in ColumnsDict(columns) ==> p.1.Leaf? && PlainJson(p.1)
  {
    if columns != [] {
      var n := |columns| - 1;
      ColumnsDictPlain(columns[..n]);
      PyDict.PutEntries(ColumnsDict(columns[..n]), columns[n].key, Leaf(Exported(columns[n].value)));
    }
  }

  /** What every serialisation outcome looks like: the only exception is
      TypeError, none is raised when `noRaise` holds, and a result is plain
      and at most `d` deep. */
  predicate Shaped(o: Outcome<Json>, noRaise: bool, d: nat) {
    && (o.Raised? ==> o.error == TypeError)
    && (noRaise ==> o.Ok?)
    && (o.Ok? ==> PlainJson(o.value) && DepthAtMost(o.value, d))
  }

  lemma ShapedMono(o: Outcome<Json>, noRaise: bool, d: nat, d': nat)
    requires Shaped(o, noRaise, d) && d <= d'
    ensures Shaped(o, noRaise, d')
  {
    if o.Ok? {
      DepthAtMostMono(o.value, d, d');
    }
  }

  /** A dict of plain trees is plain and one level deeper than they are. */
  lemma DictShape(entries: seq<(string, Json)>, d: nat)
    requires forall p :: p in entries ==> PlainJson(p.1) && DepthAtMost(p.1, d)
    ensures PlainJson(Dict(entries)) && DepthAtMost(Dict(entries), d + 1)
  {
  }

  /** The only exception the serialiser raises is the sort's TypeError, it
      raises none when every listed object has an id, and what it returns is
      plain: no date survives unconverted, at any depth. Each object adds a
      dict level and each list relationship a list level, and each nested
      object adds a key not yet visited, so the tree is at most twice as
      deep as there are keys left to visit, plus one. */
  lemma {:induction false} ToDictShape(g: Graph, inst: Option<ObjRef>, visited: set<Key>)
    requires Closed(g) && (inst.Some? ==> inst.value in g)
    ensures Shaped(ToDict(g, inst, visited), ListsIded(g), 2 * Unvisited(g, visited) + 1)
    decreases Unvisited(g, visited), 3
  {
    if inst.Some? && KeyOf(g[inst.value]) !in visited {
      var r := inst.value;
      var o := g[r];
      var base := ColumnsDict(o.columns);
      var keys := RelKeys(o.rels);
      var es := RelEntries(g, r, visited);
      var d := 2 * Unvisited(g, visited);
      forall j | 0 <= j < |es| ensures es[j].Some? ==> Shaped(es[j].value, ListsIded(g), d) {
        RelEntryShape(g, r, visited, j);
      }
      var a := Assemble(base, keys, es);
      assert ToDict(g, inst, visited) == if a.Ok? then Ok(Dict(a.value)) else Raised(a.error);
      if a.Ok? {
        ColumnsDictPlain(o.columns);
        AssembleValues(base, keys, es);
        forall p | p in a.value ensures PlainJson(p.1) && DepthAtMost(p.1, d) {
          if p !in base {
            var j :| 0 <= j < |es| && es[j] == Some(Ok(p.1));
          }
        }
        DictShape(a.value, d);
      } else {
        var j: nat :| FirstRaising(es, j, a.error);
      }
    }
  }

  /** `ToDictShape` for one relationship's contribution. */
  lemma {:induction false} RelEntryShape(g: Graph, r: ObjRef, visited: set<Key>, j: nat)
    requires Closed(g) && r in g && KeyOf(g[r]) !in visited && j < |g[r].rels|
    ensures RelEntry(g, r, visited, j).Some? ==>
      Shaped(RelEntry(g, r, visited, j).value, ListsIded(g), 2 * Unvisited(g, visited))
    decreases Unvisited(g, visited), 2
  {
    var k := KeyOf(g[r]);
    assert k in AllKeys(g);
    UnvisitedShrinks(g, visited, k);
    assert TargetsIn(g, g[r]);
    var state := g[r].rels[j].state;
    match state {
      case Unloaded =>
      case NullRef =>
      case One(t) =>
        assert RelTargets(state, t);
        assert RelEntry(g, r, visited, j) == Some(ToDict(g, Some(t), visited + {k}));
        ScalarEntryShape(g, k, visited, t);
      case Many(ts) =>
        assert forall i :: 0 <= i < |ts| ==> RelTargets(state, ts[i]);
        assert RelEntry(g, r, visited, j) == Some(ListEntry(g, k, visited, ts));
        if ListsIded(g) {
          assert AllIded(g, ts);
        }
        ListEntryShape(g, k, visited, ts);
    }
  }

  /** `ToDictShape` for a scalar relationship of the object with key `k`. */
  lemma {:induction false} ScalarEntryShape(g: Graph, k: Key, visited: set<Key>, t: ObjRef)
    requires Closed(g) && k in AllKeys(g) && k !in visited && t in g
    ensures Shaped(ToDict(g, Some(t), visited + {k}), ListsIded(g), 2 * Unvisited(g, visited))
    decreases Unvisited(g, visited), 1
  {
    UnvisitedShrinks(g, visited, k);
    ToDictShape(g, Some(t), visited + {k});
    ShapedMono(ToDict(g, Some(t), visited + {k}), ListsIded(g),
      2 * Unvisited(g, visited + {k}) + 1, 2 * Unvisited(g, visited));
  }

  /** `ToDictShape` for a list relationship of the object with key `k`. */
  lemma {:induction false} ListEntryShape(g: Graph, k: Key, visited: set<Key>, ts: seq<ObjRef>)
    requires Closed(g) && k in AllKeys(g) && k !in visited
    requires forall i :: 0 <= i < |ts| ==> ts[i] in g
    ensures Shaped(ListEntry(g, k, visited, ts), ListsIded(g) && AllIded(g, ts), 2 * Unvisited(g, visited))
    decreases Unvisited(g, visited), 1
  {
    UnvisitedShrinks(g, visited, k);
    var sorting := SortChildren(g, ts);
    if sorting.Raised? {
      assert ListEntry(g, k, visited, ts) == Raised(sorting.error);
    } else {
      var c := Collect(ChildOutcomes(g, k, visited, sorting.value));
      assert ListEntry(g, k, visited, ts) == if c.Ok? then Ok(List(c.value)) else Raised(c.error);
      ChildrenShape(g, k, visited, sorting.value);
      if c.Ok? {
        DepthAtMostMono(List(c.value), 2 * Unvisited(g, visited + {k}) + 2, 2 * Unvisited(g, visited));
      }
    }
  }

  /** `ToDictShape` for the children of a list relationship of the object
      with key `k`. */
  lemma {:induction false} ChildrenShape(g: Graph, k: Key, visited: set<Key>, refs: seq<ObjRef>)
    requires Closed(g) && k in AllKeys(g) && k !in visited
    requires forall i :: 0 <= i < |refs| ==> refs[i] in g
    ensures Collect(ChildOutcomes(g, k, visited, refs)).Raised? ==>
      Collect(ChildOutcomes(g, k, visited, refs)).error == TypeError
    ensures ListsIded(g) ==> Collect(ChildOutcomes(g, k, visited, refs)).Ok?
    ensures Collect(ChildOutcomes(g, k, visited, refs)).Ok? ==>
      && PlainJson(List(Collect(ChildOutcomes(g, k, visited, refs)).value))
      && DepthAtMost(List(Collect(ChildOutcomes(g, k, visited, refs)).value), 2 * Unvisited(g, visited + {k}) + 2)
    decreases Unvisited(g, visited), 0
  {
    UnvisitedShrinks(g, visited, k);
    var outs := ChildOutcomes(g, k, visited, refs);
    forall i | 0 <= i < |outs|
      ensures outs[i].Raised? ==> outs[i].error == TypeError
      ensures ListsIded(g) ==> outs[i].Ok?
      ensures outs[i].Ok? ==> PlainJson(outs[i].value)
      ensures outs[i].Ok? ==> DepthAtMost(outs[i].value, 2 * Unvisited(g, visited + {k}) + 1)
    {
      ToDictShape(g, Some(refs[i]), visited + {k});
    }
    var c := Collect(outs);
    if c.Raised? {
      var i :| FirstRaised(outs, i, c.error);
    } else {
      var d := 2 * Unvisited(g, visited + {k}) + 1;
      forall x | x in c.value ensures PlainJson(x) && DepthAtMost(x, d) {
        var i :| 0 <= i < |c.value| && c.value[i] == x;
      }
      ListShape(c.value, d);
    }
  }

  // ---------------------------------------------------------------------
  // The visited set is copied, not shared

  /** A chain whose two relationships point at the same step, which points
      back at the chain. */
  function SharedStepGraph(): Graph {
    map[
      0 := Obj("KillChain", Some(1), [Column("name", VStr("c"))],
               [Relationship("first", One(1)), Relationship("last", One(1))]),
      1 := Obj("AttackStep", Some(5), [Column("id", VInt(5))],
               [Relationship("chain", One(0))])
    ]
  }

  lemma SharedStepGraphClosed()
    ensures Closed(SharedStepGraph())
  {
    var g := SharedStepGraph();
    forall r | r in g ensures TargetsIn(g, g[r]) {
      forall j, t | 0 <= j < |g[r].rels| && RelTargets(g[r].rels[j].state, t) ensures t in g {
        assert r == 0 || r == 1;
      }
    }
  }

  /** The step as written under the chain: its link back to the chain, whose
      key is on the path, is cut. */
  lemma StepBelowChain()
    ensures Closed(SharedStepGraph())
    ensures ToDict(SharedStepGraph(), Some(1), {Key("KillChain", Some(1))})
         == Ok(Dict([("id", Leaf(VInt(5))), ("chain", CircularMarker(Some(1)))]))
  {
    SharedStepGraphClosed();
    var g := SharedStepGraph();
    var k0, k1 := Key("KillChain", Some(1)), Key("AttackStep", Some(5));
    var marker := CircularMarker(Some(1));
    assert ToDict(g, Some(0), {k0, k1}) == Ok(marker);
    var back := RelEntries(g, 1, {k0});
    assert {k0} + {k1} == {k0, k1};
    assert RelEntry(g, 1, {k0}, 0) == Some(Ok(marker));
    assert back == [Some(Ok(marker))];
    var stepCols := ColumnsDict(g[1].columns);
    assert stepCols == [("id", Leaf(VInt(5)))];
    assert RelKeys(g[1].rels) == ["chain"];
    var entries := [("id", Leaf(VInt(5))), ("chain", marker)];
    assert PyDict.Put(stepCols, "chain", marker) == entries;
    assert back[..0] == [] && ["chain"][..0] == [];
    assert Assemble(stepCols, ["chain"], back) == Ok(entries);
  }

  /** The shared step is written out in full under both relationships, since
      siblings do not see each other's keys; inside each copy the link back
      to the chain, an ancestor, is cut to the marker. */
  lemma SiblingsAreNotCut()
    ensures Closed(SharedStepGraph())
    ensures var step := Dict([("id", Leaf(VInt(5))), ("chain", CircularMarker(Some(1)))]);
      ToDict(SharedStepGraph(), Some(0), {}) == Ok(Dict([("name", Leaf(VStr("c"))), ("first", step), ("last", step)]))
  {
    StepBelowChain();
    var g := SharedStepGraph();
    var k0 := Key("KillChain", Some(1));
    var step := Dict([("id", Leaf(VInt(5))), ("chain", CircularMarker(Some(1)))]);
    var top := RelEntries(g, 0, {});
    assert {} + {k0} == {k0};
    assert RelEntry(g, 0, {}, 0) == Some(Ok(step));
    assert RelEntry(g, 0, {}, 1) == Some(Ok(step));
    assert top == [Some(Ok(step)), Some(Ok(step))];
    var chainCols := ColumnsDict(g[0].columns);
    assert chainCols == [("name", Leaf(VStr("c")))];
    var keys := RelKeys(g[0].rels);
    assert keys == ["first", "last"];
    var once := [("name", Leaf(VStr("c"))), ("first", step)];
    assert PyDict.Put(chainCols, "first", step) == once;
    assert PyDict.Keys(once) == ["name", "first"];
    PyDict.PutKeys(once, "last", step);
    assert keys[..1][..0] == [] && top[..1][..0] == [];
    assert Assemble(chainCols, keys[..1], top[..1]) == Ok(once);
    assert keys[..1] == keys[..|keys| - 1] && top[..1] == top[..|top| - 1];
    assert Assemble(chainCols, keys, top) == Ok(once + [("last", step)]);
    assert once + [("last", step)] == [("name", Leaf(VStr("c"))), ("first", step), ("last", step)];
    assert KeyOf(g[0]) !in {};
  }
}
